/** The textual flight key (src/shield/coalesce.rs, src/gateway/server.rs):
    `url|fingerprint|trust domain|policy hash`.  The last three are hexadecimal,
    so the text identifies them and the URL, whatever the URL contains; taking
    the text apart again from the left works exactly for URLs without a bar. */
module FlightKeys {
  import opened Wrappers
  import opened ContentStore
  import opened Coalesce
  import opened TextLines
  import Fingerprints
  import Gateway

  datatype Parts = Parts(url: string, fingerprint: string, trustDomain: string, policyHash: string) {
    predicate HexTail() {
      BarFree(fingerprint) && BarFree(trustDomain) && BarFree(policyHash)
    }
  }

  predicate BarFree(s: string) {
    Free('|', s)
  }

  /** What follows the URL in a key. */
  function KeyTail(p: Parts): string {
    p.fingerprint + ("|" + (p.trustDomain + ("|" + p.policyHash)))
  }

  function KeyText(p: Parts): (s: string)
    ensures s != ""
  {
    p.url + ("|" + KeyTail(p))
  }

  /** Texts with one bar-free ending after a bar agree before it too. */
  lemma LastField(a: string, x: string, b: string, y: string)
    requires BarFree(x) && BarFree(y) && a + ("|" + x) == b + ("|" + y)
    ensures a == b && x == y
  {
    var s := a + ("|" + x);
    var t := b + ("|" + y);
    assert s[|a|] == '|' && t[|b|] == '|';
    assert |a| == |b|;
    assert s[..|a|] == a && t[..|b|] == b && s[|a| + 1..] == x && t[|b| + 1..] == y;
  }

  /** Two flight keys are equal only if all four parts are. */
  lemma KeyTextInjective(p: Parts, q: Parts)
    requires p.HexTail() && q.HexTail() && KeyText(p) == KeyText(q)
    ensures p == q
  {
    var p1 := p.url + ("|" + p.fingerprint);
    var q1 := q.url + ("|" + q.fingerprint);
    var p2 := p1 + ("|" + p.trustDomain);
    var q2 := q1 + ("|" + q.trustDomain);
    assert KeyText(p) == p2 + ("|" + p.policyHash);
    assert KeyText(q) == q2 + ("|" + q.policyHash);
    LastField(p2, p.policyHash, q2, q.policyHash);
    LastField(p1, p.trustDomain, q1, q.trustDomain);
    LastField(p.url, p.fingerprint, q.url, q.fingerprint);
  }

  // ---- The keys of the handler ----

  /** How a fingerprint is written: in hexadecimal, different ones differently. */
  ghost predicate WritesFingerprints(hex: Fingerprints.Fingerprint -> string) {
    && (forall f :: BarFree(hex(f)))
    && (forall f, g :: hex(f) == hex(g) ==> f == g)
  }

  function PartsOf(k: Gateway.FlightKey, hex: Fingerprints.Fingerprint -> string): Parts {
    Parts(k.url, hex(k.fingerprint), k.trustDomain, k.policyHash)
  }

  /** So flights may be told apart by their four parts, as the handler's steps do:
      the texts are equal exactly when the parts are. */
  lemma KeyTextIdentifiesFlight(k: Gateway.FlightKey, l: Gateway.FlightKey, hex: Fingerprints.Fingerprint -> string)
    requires WritesFingerprints(hex)
    requires BarFree(k.trustDomain) && BarFree(k.policyHash) && BarFree(l.trustDomain) && BarFree(l.policyHash)
    ensures KeyText(PartsOf(k, hex)) == KeyText(PartsOf(l, hex)) <==> k == l
  {
    if KeyText(PartsOf(k, hex)) == KeyText(PartsOf(l, hex)) {
      KeyTextInjective(PartsOf(k, hex), PartsOf(l, hex));
    }
  }

  /** Flights are acquired under key texts only. */
  ghost predicate KeyedByTexts(ops: seq<StoreOp<string>>) {
    forall key :: Acquire(key) in ops ==> exists p :: key == KeyText(p)
  }

  lemma {:induction false} EmptyKeyNeverOpen(s: Flights<string>, ops: seq<StoreOp<string>>)
    requires s.Sound() && "" !in s.pending && KeyedByTexts(ops)
    ensures "" !in After(s, ops).pending
    decreases |ops|
  {
    if ops == [] {
    } else {
      assert ops[0] in ops;
      match ops[0] {
        case Acquire(k) =>
          AcquiredSound(s, k);
          assert Acquire(k) in ops;
          EmptyKeyNeverOpen(s.Acquired(k), ops[1..]);
        case Complete(k, r) =>
          ResolvedSound(s, k, Some(r));
          EmptyKeyNeverOpen(s.Resolved(k, Some(r)), ops[1..]);
        case Cancel(k) =>
          ResolvedSound(s, k, None);
          EmptyKeyNeverOpen(s.Resolved(k, None), ops[1..]);
      }
    }
  }

  lemma {:induction false} AfterSound(s: Flights<string>, ops: seq<StoreOp<string>>)
    requires s.Sound()
    ensures After(s, ops).Sound()
    decreases |ops|
  {
    if ops == [] {
    } else {
      match ops[0] {
        case Acquire(k) =>
          AcquiredSound(s, k);
          AfterSound(s.Acquired(k), ops[1..]);
        case Complete(k, r) =>
          ResolvedSound(s, k, Some(r));
          AfterSound(s.Resolved(k, Some(r)), ops[1..]);
        case Cancel(k) =>
          ResolvedSound(s, k, None);
          AfterSound(s.Resolved(k, None), ops[1..]);
      }
    }
  }

  /** Completing the empty key, which stands for no flight, never touches one. */
  lemma CompletingNoKey(ops: seq<StoreOp<string>>, r: Response)
    requires KeyedByTexts(ops)
    ensures var s := After(Flights(map[], []), ops);
            s.Sound() && s.Resolved("", Some(r)) == s
  {
    AfterSound(Flights(map[], []), ops);
    EmptyKeyNeverOpen(Flights(map[], []), ops);
  }

  // ---- Taking a key apart for the status page ----

  function SplitBars(s: string): seq<string> {
    SplitOn('|', s)
  }

  lemma SplitTwo(a: string, b: string)
    requires BarFree(a) && BarFree(b)
    ensures SplitBars(a + ("|" + b)) == [a, b]
  {
    SplitFirst('|', a, b);
    assert ['|'] + b == "|" + b;
  }

  lemma SplitTail(a: string, b: string, c: string)
    requires BarFree(a) && BarFree(b) && BarFree(c)
    ensures SplitBars(a + ("|" + (b + ("|" + c)))) == [a, b, c]
  {
    var rest := b + ("|" + c);
    SplitTwo(b, c);
    SplitFirst('|', a, rest);
    assert ['|'] + rest == "|" + rest;
    assert [a] + [b, c] == [a, b, c];
  }

  /** The first piece is the URL exactly when the URL has no bar, and then the
      pieces are the four parts, the third of them the trust domain. */
  lemma StatusSplit(p: Parts)
    requires p.HexTail()
    ensures SplitBars(KeyText(p))[0] == p.url <==> BarFree(p.url)
    ensures BarFree(p.url) ==> SplitBars(KeyText(p)) == [p.url, p.fingerprint, p.trustDomain, p.policyHash]
  {
    var pieces := SplitBars(KeyText(p));
    if BarFree(p.url) {
      SplitTail(p.fingerprint, p.trustDomain, p.policyHash);
      SplitFirst('|', p.url, KeyTail(p));
      assert pieces == [p.url] + SplitBars(KeyTail(p));
    } else {
      assert BarFree(pieces[0]);
    }
  }
}
