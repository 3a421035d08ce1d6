/** Text helpers of the line filters (src/reduce/rtk/utils.rs and the standard
    library's line functions): lines, joining and splitting at newlines,
    shortening, removal of terminal colours. */
module TextLines {

  // ---- Separators ----

  predicate Free(sep: char, s: string) {
    sep !in s
  }

  /** The position of the first separator, or the length. */
  function FirstAt(sep: char, s: string): (n: nat)
    ensures n <= |s| && Free(sep, s[..n])
    ensures n < |s| ==> s[n] == sep
    ensures n == |s| <==> Free(sep, s)
  {
    if s == "" || s[0] == sep then 0
    else
      assert s == [s[0]] + s[1..];
      var n := 1 + FirstAt(sep, s[1..]);
      assert s[..n] == [s[0]] + s[1..][..n - 1];
      n
  }

  /** The pieces between separators; a text without separator is one piece. */
  function SplitOn(sep: char, s: string): (pieces: seq<string>)
    ensures |pieces| >= 1 && Free(sep, pieces[0])
    ensures Free(sep, s) ==> pieces == [s]
    decreases |s|
  {
    var n := FirstAt(sep, s);
    if n == |s| then [s] else [s[..n]] + SplitOn(sep, s[n + 1..])
  }

  lemma SplitFirst(sep: char, first: string, rest: string)
    requires Free(sep, first)
    ensures SplitOn(sep, first + ([sep] + rest)) == [first] + SplitOn(sep, rest)
  {
    var s := first + ([sep] + rest);
    var n := |first|;
    assert s[n] == sep && s[..n] == first && s[n + 1..] == rest;
    assert FirstAt(sep, s) == n;
  }

  lemma Regroup<T>(x: T, a: seq<T>, b: seq<T>)
    ensures [x] + (a + b) == ([x] + a) + b
  {
  }

  /** A text with a separator in it, before and after. */
  lemma AroundSeparator(sep: char, first: string, rest: string, b: string)
    ensures (first + ([sep] + rest)) + ([sep] + b) == first + ([sep] + (rest + ([sep] + b)))
  {
  }

  lemma {:induction false} SplitAt(sep: char, a: string, b: string)
    ensures SplitOn(sep, a + ([sep] + b)) == SplitOn(sep, a) + SplitOn(sep, b)
    decreases |a|
  {
    var n := FirstAt(sep, a);
    if n == |a| {
      SplitFirst(sep, a, b);
    } else {
      var first, rest := a[..n], a[n + 1..];
      assert a == first + ([sep] + rest);
      AroundSeparator(sep, first, rest, b);
      SplitFirst(sep, first, rest + ([sep] + b));
      SplitFirst(sep, first, rest);
      SplitAt(sep, rest, b);
      Regroup(first, SplitOn(sep, rest), SplitOn(sep, b));
    }
  }

  // ---- Newlines ----

  predicate NewlineFree(s: string) {
    Free('\n', s)
  }

  predicate AllNewlineFree(lines: seq<string>) {
    forall i :: 0 <= i < |lines| ==> NewlineFree(lines[i])
  }

  function DropCarriageReturn(line: string): string {
    if line != "" && line[|line| - 1] == '\r' then line[..|line| - 1] else line
  }

  /** The lines of a text: each ends with a newline, or a carriage return and a
      newline, which are dropped; the last one may lack the ending. */
  function Lines(s: string): (lines: seq<string>)
    ensures AllNewlineFree(lines)
    decreases |s|
  {
    if s == "" then []
    else
      var n := FirstAt('\n', s);
      if n == |s| then [s] else [DropCarriageReturn(s[..n])] + Lines(s[n + 1..])
  }

  /** How a line may end in a text. */
  function Ending(withReturn: bool): string {
    if withReturn then "\r\n" else "\n"
  }

  /** A text of ended lines and a rest. */
  function Ended(lines: seq<string>, crs: seq<bool>, rest: string): string
    requires |crs| == |lines|
  {
    if lines == [] then rest else lines[0] + (Ending(crs[0]) + Ended(lines[1..], crs[1..], rest))
  }

  /** A line that could be read back: no newline in it, and no carriage return at
      its end unless the ending brings one of its own. */
  predicate Endable(line: string, withReturn: bool) {
    NewlineFree(line) && (withReturn || line == "" || line[|line| - 1] != '\r')
  }

  lemma LinesAtNewline(first: string, more: string)
    requires NewlineFree(first)
    ensures Lines(first + (['\n'] + more)) == [DropCarriageReturn(first)] + Lines(more)
  {
    var s := first + (['\n'] + more);
    assert s[|first|] == '\n' && s[..|first|] == first && s[|first| + 1..] == more;
    assert FirstAt('\n', s) == |first|;
  }

  lemma LinesFirst(line: string, withReturn: bool, more: string)
    requires Endable(line, withReturn)
    ensures Lines(line + (Ending(withReturn) + more)) == [line] + Lines(more)
  {
    if withReturn {
      assert line + (Ending(true) + more) == (line + ['\r']) + (['\n'] + more);
      LinesAtNewline(line + ['\r'], more);
    } else {
      assert Ending(false) + more == ['\n'] + more;
      LinesAtNewline(line, more);
    }
  }

  /** The lines of a text are those it was put together from, whichever way they
      end; what follows the last ending is a line of its own unless it is empty. */
  lemma {:induction false} LinesReadBack(lines: seq<string>, crs: seq<bool>, rest: string)
    requires |crs| == |lines| && NewlineFree(rest)
    requires forall i :: 0 <= i < |lines| ==> Endable(lines[i], crs[i])
    ensures Lines(Ended(lines, crs, rest)) == lines + if rest == "" then [] else [rest]
    decreases |lines|
  {
    var last := if rest == "" then [] else [rest];
    if lines == [] {
      assert lines + last == last;
    } else {
      var more := Ended(lines[1..], crs[1..], rest);
      LinesReadBack(lines[1..], crs[1..], rest);
      LinesFirst(lines[0], crs[0], more);
      Regroup(lines[0], lines[1..], last);
      assert [lines[0]] + lines[1..] == lines;
    }
  }

  function Join(lines: seq<string>): string {
    if lines == [] then ""
    else if |lines| == 1 then lines[0]
    else lines[0] + "\n" + Join(lines[1..])
  }

  function Split(s: string): (pieces: seq<string>)
    ensures |pieces| >= 1
    ensures NewlineFree(s) ==> pieces == [s]
  {
    SplitOn('\n', s)
  }

  lemma SplitAtNewline(a: string, b: string)
    ensures Split(a + ("\n" + b)) == Split(a) + Split(b)
  {
    SplitAt('\n', a, b);
    assert ['\n'] + b == "\n" + b;
  }

  lemma NewlineFreeApart(lines: seq<string>)
    requires lines != []
    ensures AllNewlineFree(lines) <==> NewlineFree(lines[0]) && AllNewlineFree(lines[1..])
  {
    if NewlineFree(lines[0]) && AllNewlineFree(lines[1..]) {
      forall i | 0 <= i < |lines|
        ensures NewlineFree(lines[i])
      {
        if i > 0 { assert lines[i] == lines[1..][i - 1]; }
      }
    }
    if AllNewlineFree(lines) {
      forall i | 0 <= i < |lines[1..]|
        ensures NewlineFree(lines[1..][i])
      {
        assert lines[1..][i] == lines[i + 1];
      }
    }
  }

  lemma SplitJoinFirst(lines: seq<string>)
    requires |lines| > 1
    ensures Split(Join(lines)) == Split(lines[0]) + Split(Join(lines[1..]))
  {
    SplitAtNewline(lines[0], Join(lines[1..]));
    assert Join(lines) == lines[0] + ("\n" + Join(lines[1..]));
  }

  /** Splitting what was joined gives back at least as many pieces, and the
      lines themselves exactly when none of them contains a newline. */
  lemma {:induction false} SplitJoin(lines: seq<string>)
    requires lines != []
    ensures |Split(Join(lines))| >= |lines|
    ensures AllNewlineFree(lines) ==> Split(Join(lines)) == lines
    ensures !AllNewlineFree(lines) ==> |Split(Join(lines))| > |lines|
    decreases |lines|
  {
    NewlineFreeApart(lines);
    if !NewlineFree(lines[0]) {
      MoreThanOnePiece(lines[0]);
    }
    if |lines| == 1 {
      assert lines == [lines[0]];
    } else {
      SplitJoinFirst(lines);
      SplitJoin(lines[1..]);
      assert lines == [lines[0]] + lines[1..];
    }
  }

  lemma MoreThanOnePiece(s: string)
    requires !NewlineFree(s)
    ensures |Split(s)| > 1
  {
  }

  // ---- Blank text ----

  /** Unicode white space, as `trim` understands it. */
  predicate IsWhitespace(c: char) {
    var n := c as int;
    9 <= n <= 13 || n == 32 || n == 0x85 || n == 0xA0 || n == 0x1680 || 0x2000 <= n <= 0x200A
    || n == 0x2028 || n == 0x2029 || n == 0x202F || n == 0x205F || n == 0x3000
  }

  predicate IsBlank(s: string) {
    forall i :: 0 <= i < |s| ==> IsWhitespace(s[i])
  }

  lemma {:induction false} JoinNotBlank(lines: seq<string>, k: nat)
    requires k < |lines| && !IsBlank(lines[k])
    ensures !IsBlank(Join(lines))
    decreases |lines|
  {
    if |lines| > 1 {
      var head, tail := lines[0] + "\n", Join(lines[1..]);
      assert Join(lines) == head + tail;
      if k == 0 {
        var i :| 0 <= i < |lines[0]| && !IsWhitespace(lines[0][i]);
        assert Join(lines)[i] == lines[0][i];
      } else {
        JoinNotBlank(lines[1..], k - 1);
        var i :| 0 <= i < |tail| && !IsWhitespace(tail[i]);
        assert Join(lines)[|head| + i] == tail[i];
      }
    }
  }

  // ---- Shortening a line ----

  function Truncate(s: string, n: nat): string {
    if |s| <= n then s
    else if n < 3 then "..."
    else s[..n - 3] + "..."
  }

  lemma TruncateProperties(s: string, n: nat)
    ensures Truncate(Truncate(s, n), n) == Truncate(s, n)
    ensures |Truncate(s, n)| <= if n < 3 then 3 else n
    ensures |s| <= n ==> Truncate(s, n) == s
    ensures |s| > n >= 3 ==>
              |Truncate(s, n)| == n && Truncate(s, n)[..n - 3] == s[..n - 3] && Truncate(s, n)[n - 3..] == "..."
    ensures |s| > n && n < 3 ==> Truncate(s, n) == "..."
    ensures NewlineFree(s) ==> NewlineFree(Truncate(s, n))
    ensures Truncate(s, n) != s ==> !IsBlank(Truncate(s, n))
  {
    var t := Truncate(s, n);
    if t != s {
      assert t[|t| - 1] == '.' && !IsWhitespace('.');
    }
  }

  // ---- Terminal colours ----

  predicate IsAsciiLetter(c: char) {
    'a' <= c <= 'z' || 'A' <= c <= 'Z'
  }

  predicate IsParameter(c: char) {
    '0' <= c <= '9' || c == ';'
  }

  /** An escape sequence: the introducer, parameters, and a letter. */
  predicate IsEscape(e: string) {
    && |e| >= 3 && e[0] == '\U{1b}' && e[1] == '[' && IsAsciiLetter(e[|e| - 1])
    && forall i :: 2 <= i < |e| - 1 ==> IsParameter(e[i])
  }

  function SkipParameters(s: string, i: nat): (r: nat)
    requires i <= |s|
    ensures i <= r <= |s|
    ensures forall k :: i <= k < r ==> IsParameter(s[k])
    ensures r < |s| ==> !IsParameter(s[r])
    decreases |s| - i
  {
    if i < |s| && IsParameter(s[i]) then SkipParameters(s, i + 1) else i
  }

  /** Length of the escape sequence a text starts with, or 0. */
  function EscapeLength(s: string): (n: nat)
    ensures n <= |s|
    ensures n > 0 ==> IsEscape(s[..n])
    ensures forall m :: 0 <= m <= |s| && IsEscape(s[..m]) ==> m == n
  {
    if |s| >= 2 && s[0] == '\U{1b}' && s[1] == '[' then
      var k := SkipParameters(s, 2);
      assert forall m :: 0 <= m <= |s| && IsEscape(s[..m]) ==> m == k + 1 by {
        forall m | 0 <= m <= |s| && IsEscape(s[..m])
          ensures m == k + 1
        {
          LetterEndsParameters(s, k, m);
        }
      }
      if k < |s| && IsAsciiLetter(s[k]) then k + 1 else 0
    else
      assert forall m :: 3 <= m <= |s| ==> s[..m][0] == s[0] && s[..m][1] == s[1];
      0
  }

  lemma LetterEndsParameters(s: string, k: nat, m: nat)
    requires 2 <= k <= |s| && m <= |s| && IsEscape(s[..m])
    requires forall i :: 2 <= i < k ==> IsParameter(s[i])
    requires k < |s| ==> !IsParameter(s[k])
    ensures m == k + 1
  {
    var e := s[..m];
    assert e[m - 1] == s[m - 1] && !IsParameter(s[m - 1]);
  }

  function StripAnsi(s: string): (r: string)
    ensures NewlineFree(s) ==> NewlineFree(r)
    ensures |r| <= |s|
    decreases |s|
  {
    if s == "" then ""
    else if EscapeLength(s) > 0 then StripAnsi(s[EscapeLength(s)..])
    else [s[0]] + StripAnsi(s[1..])
  }

  predicate EscapeAt(s: string, i: nat)
    requires i <= |s|
  {
    exists n :: i <= n <= |s| && IsEscape(s[i..n])
  }

  lemma EscapeAtStart(s: string)
    ensures EscapeAt(s, 0) <==> EscapeLength(s) > 0
  {
    if EscapeLength(s) > 0 {
      assert s[0..EscapeLength(s)] == s[..EscapeLength(s)];
    }
    if EscapeAt(s, 0) {
      var n :| 0 <= n <= |s| && IsEscape(s[0..n]);
      assert s[..n] == s[0..n];
    }
  }

  lemma EscapeInTail(s: string, i: nat)
    requires 0 < i <= |s|
    ensures EscapeAt(s, i) <==> EscapeAt(s[1..], i - 1)
  {
    if EscapeAt(s, i) {
      var n :| i <= n <= |s| && IsEscape(s[i..n]);
      assert s[1..][i - 1..n - 1] == s[i..n];
    }
    if EscapeAt(s[1..], i - 1) {
      var n :| i - 1 <= n <= |s[1..]| && IsEscape(s[1..][i - 1..n]);
      assert s[i..n + 1] == s[1..][i - 1..n];
    }
  }

  predicate NoEscapeBefore(s: string, n: nat)
    requires n <= |s|
  {
    forall i :: 0 <= i < n ==> !EscapeAt(s, i)
  }

  lemma NoEscapeBeforeInTail(s: string, n: nat)
    requires 0 < n <= |s|
    ensures NoEscapeBefore(s, n) <==> !EscapeAt(s, 0) && NoEscapeBefore(s[1..], n - 1)
  {
    forall i | 0 < i < n
      ensures EscapeAt(s, i) <==> EscapeAt(s[1..], i - 1)
    {
      EscapeInTail(s, i);
    }
    if NoEscapeBefore(s, n) {
      forall i | 0 <= i < n - 1
        ensures !EscapeAt(s[1..], i)
      {
        EscapeInTail(s, i + 1);
      }
    }
  }

  lemma StripAnsiLeading(escape: string, after: string)
    requires IsEscape(escape)
    ensures StripAnsi(escape + after) == StripAnsi(after)
  {
    var s := escape + after;
    assert s[..|escape|] == escape && s[|escape|..] == after;
    assert EscapeLength(s) == |escape|;
  }

  lemma StripAnsiPlain(s: string)
    requires s != "" && !EscapeAt(s, 0)
    ensures StripAnsi(s) == [s[0]] + StripAnsi(s[1..])
  {
    EscapeAtStart(s);
  }

  /** The first escape sequence is dropped, what comes before it stays, and what
      comes after it is stripped in turn. */
  lemma {:induction false} StripAnsiFirst(before: string, escape: string, after: string)
    requires IsEscape(escape) && NoEscapeBefore(before + (escape + after), |before|)
    ensures StripAnsi(before + (escape + after)) == before + StripAnsi(after)
    decreases |before|
  {
    var s := before + (escape + after);
    if before == "" {
      assert s == escape + after;
      StripAnsiLeading(escape, after);
    } else {
      assert s[1..] == before[1..] + (escape + after);
      NoEscapeBeforeInTail(s, |before|);
      StripAnsiPlain(s);
      StripAnsiFirst(before[1..], escape, after);
      Regroup(before[0], before[1..], StripAnsi(after));
      assert [before[0]] + before[1..] == before;
    }
  }

  /** A text is left alone exactly when it has no escape sequence. */
  lemma {:induction false} StripAnsiNothingIff(s: string)
    ensures StripAnsi(s) == s <==> NoEscapeBefore(s, |s|)
    decreases |s|
  {
    EscapeAtStart(s);
    if s == "" {
    } else if EscapeLength(s) > 0 {
      assert |StripAnsi(s)| < |s|;
    } else {
      StripAnsiNothingIff(s[1..]);
      NoEscapeBeforeInTail(s, |s|);
      StripAnsiPlain(s);
      assert s == [s[0]] + s[1..];
    }
  }

  // ---- Numbers ----

  function Decimal(n: nat): (s: string)
    ensures s != "" && NewlineFree(s)
  {
    var digit := ('0' as int + n % 10) as char;
    if n < 10 then [digit] else Decimal(n / 10) + [digit]
  }

  predicate AllDigits(s: string) {
    forall i :: 0 <= i < |s| ==> '0' <= s[i] <= '9'
  }

  /** The number that a text of digits stands for. */
  function Value(s: string): nat
    requires AllDigits(s)
  {
    if s == "" then 0 else 10 * Value(s[..|s| - 1]) + (s[|s| - 1] as int - '0' as int)
  }

  /** A number is written in digits, without a leading zero, and reads back. */
  lemma {:induction false} DecimalReadsBack(n: nat)
    ensures AllDigits(Decimal(n)) && Value(Decimal(n)) == n
    ensures Decimal(n)[0] == '0' <==> n == 0
    decreases n
  {
    if n < 10 {
      assert Decimal(n)[..0] == "";
    } else {
      DecimalReadsBack(n / 10);
      var init, s := Decimal(n / 10), Decimal(n);
      assert s[..|s| - 1] == init;
      assert s[0] == init[0];
    }
  }
}
