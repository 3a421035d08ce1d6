/** Timestamps as the cache tables hold them: UTC instants printed in the
    format of section 5.6 of RFC 3339, compared as text.  The seconds' fraction
    is printed with 0, 3, 6 or 9 digits, the fewest that lose nothing, so texts
    of different lengths are compared.  Text order is time order all the same. */
module Timestamps {
  import opened Wrappers
  import opened TextLines

  /** A UTC instant with a year of four digits, by its calendar fields. */
  datatype Instant = Instant(year: nat, month: nat, day: nat, hour: nat, minute: nat, second: nat, nanos: nat) {
    predicate Valid() {
      && year <= 9999 && 1 <= month <= 12 && 1 <= day <= 31
      && hour <= 23 && minute <= 59 && second <= 59 && nanos <= 999_999_999
    }

    /** Time order: the first field that differs decides. */
    predicate Before(b: Instant) {
      if year != b.year then year < b.year
      else if month != b.month then month < b.month
      else if day != b.day then day < b.day
      else if hour != b.hour then hour < b.hour
      else if minute != b.minute then minute < b.minute
      else if second != b.second then second < b.second
      else nanos < b.nanos
    }
  }

  // ---- Printing ----

  function Digit(n: nat): (c: char)
    requires n < 10
    ensures '0' <= c <= '9'
  {
    ('0' as int + n) as char
  }

  function Power10(w: nat): nat {
    if w == 0 then 1 else 10 * Power10(w - 1)
  }

  /** The last `w` decimal digits of a number. */
  function Digits(n: nat, w: nat): (s: string)
    ensures |s| == w
    ensures forall i :: 0 <= i < w ==> '0' <= s[i] <= '9'
  {
    if w == 0 then "" else Digits(n / 10, w - 1) + [Digit(n % 10)]
  }

  const ZONE := "+00:00"

  function Milli(nanos: nat): nat { nanos / 1_000 / 1_000 }

  function Micro(nanos: nat): nat { nanos / 1_000 % 1_000 }

  function Nano(nanos: nat): nat { nanos % 1_000 }

  /** The digit groups of the fraction, cut after the last that is not zero. */
  function FractionOf(milli: nat, micro: nat, nano: nat): string {
    if milli == 0 && micro == 0 && nano == 0 then ""
    else if micro == 0 && nano == 0 then "." + Digits(milli, 3)
    else if nano == 0 then "." + Digits(milli, 3) + Digits(micro, 3)
    else "." + Digits(milli, 3) + Digits(micro, 3) + Digits(nano, 3)
  }

  function Fraction(nanos: nat): string {
    FractionOf(Milli(nanos), Micro(nanos), Nano(nanos))
  }

  function FromMinutes(t: Instant): string {
    Digits(t.minute, 2) + (":" + (Digits(t.second, 2) + ("" + (Fraction(t.nanos) + ZONE))))
  }

  function FromDays(t: Instant): string {
    Digits(t.day, 2) + ("T" + (Digits(t.hour, 2) + (":" + FromMinutes(t))))
  }

  function Render(t: Instant): string {
    Digits(t.year, 4) + ("-" + (Digits(t.month, 2) + ("-" + FromDays(t))))
  }

  // ---- Reading what was printed ----

  lemma {:induction false} DigitsReadBack(n: nat, w: nat)
    requires n < Power10(w)
    ensures AllDigits(Digits(n, w)) && Value(Digits(n, w)) == n
    decreases w
  {
    if w > 0 {
      assert n / 10 < Power10(w - 1);
      DigitsReadBack(n / 10, w - 1);
      assert Digits(n, w)[..w - 1] == Digits(n / 10, w - 1);
    }
  }

  lemma ValueAppend(a: string, c: char)
    requires AllDigits(a) && '0' <= c <= '9'
    ensures AllDigits(a + [c]) && Value(a + [c]) == 10 * Value(a) + (c as int - '0' as int)
  {
    assert (a + [c])[..|a|] == a;
  }

  lemma ValueGroup(a: string, b: string)
    requires AllDigits(a) && AllDigits(b) && |b| == 3
    ensures AllDigits(a + b) && Value(a + b) == 1_000 * Value(a) + Value(b)
  {
    assert a + b == a + [b[0]] + [b[1]] + [b[2]];
    ValueAppend(a, b[0]);
    ValueAppend(a + [b[0]], b[1]);
    ValueAppend(a + [b[0]] + [b[1]], b[2]);
    assert b == [] + [b[0]] + [b[1]] + [b[2]];
    ValueAppend([], b[0]);
    ValueAppend([] + [b[0]], b[1]);
    ValueAppend([] + [b[0]] + [b[1]], b[2]);
  }

  /** A number of fixed width. */
  predicate Reads(s: string, w: nat, n: nat) {
    |s| == w && AllDigits(s) && Value(s) == n
  }

  /** The fraction is absent for whole seconds; otherwise a point and 3, 6 or 9
      digits, as few as hold the nanoseconds. */
  predicate ReadsAsFraction(s: string, nanos: nat) {
    if nanos == 0 then s == ""
    else
      && (if nanos % 1_000_000 == 0 then |s| == 4 else if nanos % 1_000 == 0 then |s| == 7 else |s| == 10)
      && s[0] == '.' && AllDigits(s[1..])
      && (|s| == 4 ==> Value(s[1..]) * 1_000_000 == nanos)
      && (|s| == 7 ==> Value(s[1..]) * 1_000 == nanos)
      && (|s| == 10 ==> Value(s[1..]) == nanos)
  }

  /** Year, month, day, hour, minute and second in their fixed places with the
      separators of the format, the fraction, and the zone. */
  predicate ReadsAsStamp(s: string, t: Instant, y: string, mo: string, d: string,
                         h: string, mi: string, se: string, f: string) {
    && s == y + ("-" + (mo + ("-" + (d + ("T" + (h + (":" + (mi + (":" + (se + (f + "+00:00")))))))))))
    && Reads(y, 4, t.year) && Reads(mo, 2, t.month) && Reads(d, 2, t.day)
    && Reads(h, 2, t.hour) && Reads(mi, 2, t.minute) && Reads(se, 2, t.second)
    && ReadsAsFraction(f, t.nanos)
  }

  lemma AfterPoint(point: string, digits: string)
    requires |point| == 1
    ensures (point + digits)[1..] == digits && |point + digits| == 1 + |digits|
  {
  }

  lemma ThousandRemainder(a: nat, b: nat)
    requires b < 1_000
    ensures (1_000 * a + b) % 1_000 == b
  {
  }

  lemma MillionRemainder(a: nat, b: nat)
    requires b < 1_000_000
    ensures (1_000_000 * a + b) % 1_000_000 == b
  {
  }

  lemma GroupsRemain(milli: nat, micro: nat, nano: nat)
    requires milli < 1_000 && micro < 1_000 && nano < 1_000
    ensures var nanos := 1_000_000 * milli + 1_000 * micro + nano;
            && (nanos % 1_000_000 == 0 <==> micro == 0 && nano == 0)
            && (nanos % 1_000 == 0 <==> nano == 0)
  {
    MillionRemainder(milli, 1_000 * micro + nano);
    ThousandRemainder(1_000 * milli + micro, nano);
  }

  lemma GroupDigits(milli: nat, micro: nat, nano: nat)
    requires milli < 1_000 && micro < 1_000 && nano < 1_000
    ensures var x, y, z := Digits(milli, 3), Digits(micro, 3), Digits(nano, 3);
            && Reads(x, 3, milli) && Reads(x + y, 6, 1_000 * milli + micro)
            && Reads(x + y + z, 9, 1_000_000 * milli + 1_000 * micro + nano)
  {
    Power10Of3();
    DigitsReadBack(milli, 3);
    DigitsReadBack(micro, 3);
    DigitsReadBack(nano, 3);
    ValueGroup(Digits(milli, 3), Digits(micro, 3));
    ValueGroup(Digits(milli, 3) + Digits(micro, 3), Digits(nano, 3));
  }

  lemma GroupsReadBack(milli: nat, micro: nat, nano: nat)
    requires milli < 1_000 && micro < 1_000 && nano < 1_000
    ensures ReadsAsFraction(FractionOf(milli, micro, nano), 1_000_000 * milli + 1_000 * micro + nano)
  {
    var x, y, z := Digits(milli, 3), Digits(micro, 3), Digits(nano, 3);
    GroupsRemain(milli, micro, nano);
    GroupDigits(milli, micro, nano);
    if micro == 0 && nano == 0 {
      AfterPoint(".", x);
    } else if nano == 0 {
      AfterPoint(".", x + y);
      Associate(".", x, y);
    } else {
      AfterPoint(".", x + y + z);
      Associate(".", x, y);
      Associate(".", x + y, z);
    }
  }

  lemma FractionReadsBack(nanos: nat)
    requires nanos <= 999_999_999
    ensures ReadsAsFraction(Fraction(nanos), nanos)
  {
    NanosByGroups(nanos);
    GroupsReadBack(Milli(nanos), Micro(nanos), Nano(nanos));
  }

  /** A printed instant reads back, field by field. */
  lemma RenderReadsBack(t: Instant)
    requires t.Valid()
    ensures ReadsAsStamp(Render(t), t, Digits(t.year, 4), Digits(t.month, 2), Digits(t.day, 2), Digits(t.hour, 2),
                         Digits(t.minute, 2), Digits(t.second, 2), Fraction(t.nanos))
  {
    Power10Of3();
    DigitsReadBack(t.year, 4);
    DigitsReadBack(t.month, 2);
    DigitsReadBack(t.day, 2);
    DigitsReadBack(t.hour, 2);
    DigitsReadBack(t.minute, 2);
    DigitsReadBack(t.second, 2);
    FractionReadsBack(t.nanos);
    assert "" + (Fraction(t.nanos) + ZONE) == Fraction(t.nanos) + ZONE;
  }

  // ---- Text order ----

  /** The order of texts by their first difference; a proper prefix is smaller. */
  predicate TextBefore(a: string, b: string)
    decreases |a|
  {
    if b == "" then false
    else if a == "" then true
    else a[0] < b[0] || (a[0] == b[0] && TextBefore(a[1..], b[1..]))
  }

  /** For texts that start with parts of one length, the parts decide unless
      they are equal. */
  lemma {:induction false} TextBeforeParts(p: string, q: string, a: string, b: string)
    requires |p| == |q|
    ensures TextBefore(p + a, q + b) <==> TextBefore(p, q) || (p == q && TextBefore(a, b))
    decreases |p|
  {
    if p == "" {
      assert p + a == a && q + b == b;
    } else {
      assert (p + a)[1..] == p[1..] + a && (q + b)[1..] == q[1..] + b;
      TextBeforeParts(p[1..], q[1..], a, b);
      assert p == [p[0]] + p[1..] && q == [q[0]] + q[1..];
    }
  }

  lemma {:induction false} TextBeforeIrreflexive(a: string)
    ensures !TextBefore(a, a)
    decreases |a|
  {
    if a == "" {
    } else {
      TextBeforeIrreflexive(a[1..]);
    }
  }

  lemma {:induction false} DigitsOrder(m: nat, n: nat, w: nat)
    requires m < Power10(w) && n < Power10(w)
    ensures TextBefore(Digits(m, w), Digits(n, w)) <==> m < n
    ensures Digits(m, w) == Digits(n, w) <==> m == n
  {
    if w > 0 {
      assert m / 10 < Power10(w - 1) && n / 10 < Power10(w - 1);
      DigitsOrder(m / 10, n / 10, w - 1);
      var a, b := Digits(m / 10, w - 1), Digits(n / 10, w - 1);
      var x, y := [Digit(m % 10)], [Digit(n % 10)];
      TextBeforeParts(a, b, x, y);
      assert x[1..] == "" && y[1..] == "";
      assert TextBefore(x, y) <==> m % 10 < n % 10;
      if a + x == b + y {
        assert (a + x)[..w - 1] == a && (b + y)[..w - 1] == b && (a + x)[w - 1] == x[0] && (b + y)[w - 1] == y[0];
      }
    }
  }

  /** A field of fixed width, then the rest: the field decides unless equal. */
  lemma FieldOrder(m: nat, n: nat, w: nat, sep: string, a: string, b: string)
    requires m < Power10(w) && n < Power10(w)
    ensures TextBefore(Digits(m, w) + (sep + a), Digits(n, w) + (sep + b))
            <==> m < n || (m == n && TextBefore(a, b))
  {
    DigitsOrder(m, n, w);
    TextBeforeParts(Digits(m, w), Digits(n, w), sep + a, sep + b);
    TextBeforeParts(sep, sep, a, b);
    TextBeforeIrreflexive(sep);
  }

  // ---- The fraction ----

  /** The last digit group, absent when zero. */
  function LastGroup(nano: nat): string {
    if nano == 0 then ZONE else Digits(nano, 3) + ZONE
  }

  function LastGroups(micro: nat, nano: nat): string {
    if micro == 0 && nano == 0 then ZONE else Digits(micro, 3) + LastGroup(nano)
  }

  /** The zone sign comes before every digit and before the point. */
  lemma ZoneFirst(n: nat, rest: string)
    ensures TextBefore(ZONE, Digits(n, 3) + rest) && !TextBefore(Digits(n, 3) + rest, ZONE)
    ensures TextBefore(ZONE, "." + rest) && !TextBefore("." + rest, ZONE)
  {
    var s := Digits(n, 3) + rest;
    assert ZONE[0] == '+' && '0' <= s[0];
  }

  lemma Power10Of3()
    ensures Power10(2) == 100 && Power10(3) == 1_000 && Power10(4) == 10_000
  {
    assert Power10(1) == 10;
  }

  lemma LastGroupOrder(m: nat, n: nat)
    requires m < 1_000 && n < 1_000
    ensures TextBefore(LastGroup(m), LastGroup(n)) <==> m < n
  {
    Power10Of3();
    ZoneFirst(m, ZONE);
    ZoneFirst(n, ZONE);
    TextBeforeIrreflexive(ZONE);
    if m != 0 && n != 0 {
      DigitsOrder(m, n, 3);
      TextBeforeParts(Digits(m, 3), Digits(n, 3), ZONE, ZONE);
    }
  }

  lemma LastGroupsOrder(u: nat, m: nat, v: nat, n: nat)
    requires u < 1_000 && m < 1_000 && v < 1_000 && n < 1_000
    ensures TextBefore(LastGroups(u, m), LastGroups(v, n)) <==> u < v || (u == v && m < n)
  {
    Power10Of3();
    ZoneFirst(u, LastGroup(m));
    ZoneFirst(v, LastGroup(n));
    TextBeforeIrreflexive(ZONE);
    if (u != 0 || m != 0) && (v != 0 || n != 0) {
      DigitsOrder(u, v, 3);
      TextBeforeParts(Digits(u, 3), Digits(v, 3), LastGroup(m), LastGroup(n));
      LastGroupOrder(m, n);
    }
  }

  lemma FractionByGroups(milli: nat, micro: nat, nano: nat)
    requires milli > 0 || micro > 0 || nano > 0
    ensures FractionOf(milli, micro, nano) + ZONE == "." + (Digits(milli, 3) + LastGroups(micro, nano))
  {
    var (x, y, z) := (Digits(milli, 3), Digits(micro, 3), Digits(nano, 3));
    if micro == 0 && nano == 0 {
      Associate(".", x, ZONE);
    } else if nano == 0 {
      Associate("." + x, y, ZONE);
      Associate(".", x, y + ZONE);
    } else {
      Associate("." + x + y, z, ZONE);
      Associate("." + x, y, z + ZONE);
      Associate(".", x, y + (z + ZONE));
    }
  }

  lemma NanosByGroups(nanos: nat)
    ensures nanos == 1_000_000 * Milli(nanos) + 1_000 * Micro(nanos) + Nano(nanos)
    ensures Micro(nanos) < 1_000 && Nano(nanos) < 1_000
    ensures nanos <= 999_999_999 ==> Milli(nanos) < 1_000
  {
    var thousands := nanos / 1_000;
    assert nanos == 1_000 * thousands + nanos % 1_000;
    assert thousands == 1_000 * (thousands / 1_000) + thousands % 1_000;
  }

  lemma GroupsOrder(a: nat, b: nat, c: nat, d: nat, e: nat, f: nat)
    requires b < 1_000 && c < 1_000 && e < 1_000 && f < 1_000
    ensures 1_000_000 * a + 1_000 * b + c < 1_000_000 * d + 1_000 * e + f
            <==> a < d || (a == d && (b < e || (b == e && c < f)))
  {
  }

  lemma FractionOfOrder(a: nat, b: nat, c: nat, d: nat, e: nat, f: nat)
    requires a < 1_000 && b < 1_000 && c < 1_000 && d < 1_000 && e < 1_000 && f < 1_000
    ensures TextBefore(FractionOf(a, b, c) + ZONE, FractionOf(d, e, f) + ZONE)
            <==> a < d || (a == d && (b < e || (b == e && c < f)))
  {
    TextBeforeIrreflexive(ZONE);
    var x, y := Digits(a, 3) + LastGroups(b, c), Digits(d, 3) + LastGroups(e, f);
    ZoneFirst(0, x);
    ZoneFirst(0, y);
    if a == b == c == 0 {
      assert FractionOf(a, b, c) + ZONE == ZONE;
    } else {
      FractionByGroups(a, b, c);
    }
    if d == e == f == 0 {
      assert FractionOf(d, e, f) + ZONE == ZONE;
    } else {
      FractionByGroups(d, e, f);
    }
    TextBeforeParts(".", ".", x, y);
    TextBeforeIrreflexive(".");
    Power10Of3();
    TextBeforeParts(Digits(a, 3), Digits(d, 3), LastGroups(b, c), LastGroups(e, f));
    DigitsOrder(a, d, 3);
    LastGroupsOrder(b, c, e, f);
  }

  lemma FractionOrder(x: nat, y: nat)
    requires x <= 999_999_999 && y <= 999_999_999
    ensures TextBefore(Fraction(x) + ZONE, Fraction(y) + ZONE) <==> x < y
  {
    NanosByGroups(x);
    NanosByGroups(y);
    FractionOfOrder(Milli(x), Micro(x), Nano(x), Milli(y), Micro(y), Nano(y));
    GroupsOrder(Milli(x), Micro(x), Nano(x), Milli(y), Micro(y), Nano(y));
  }

  // ---- Main result ----

  /** Comparing printed instants as text compares the instants. */
  lemma TextOrderIsTimeOrder(a: Instant, b: Instant)
    requires a.Valid() && b.Valid()
    ensures TextBefore(Render(a), Render(b)) <==> a.Before(b)
  {
    Power10Of3();
    FractionOrder(a.nanos, b.nanos);
    FieldOrder(a.second, b.second, 2, "", Fraction(a.nanos) + ZONE, Fraction(b.nanos) + ZONE);
    FieldOrder(a.minute, b.minute, 2, ":", Digits(a.second, 2) + ("" + (Fraction(a.nanos) + ZONE)),
               Digits(b.second, 2) + ("" + (Fraction(b.nanos) + ZONE)));
    FieldOrder(a.hour, b.hour, 2, ":", FromMinutes(a), FromMinutes(b));
    FieldOrder(a.day, b.day, 2, "T", Digits(a.hour, 2) + (":" + FromMinutes(a)), Digits(b.hour, 2) + (":" + FromMinutes(b)));
    FieldOrder(a.month, b.month, 2, "-", FromDays(a), FromDays(b));
    FieldOrder(a.year, b.year, 4, "-", Digits(a.month, 2) + ("-" + FromDays(a)), Digits(b.month, 2) + ("-" + FromDays(b)));
  }
}
