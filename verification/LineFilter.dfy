/** The line-filter pipeline (src/reduce/rtk/toml_filter.rs): a filter shortens
    a tool's output and reports what it cost.  Compiled regular expressions are
    arbitrary predicates and rewrites on lines.  The main results say that the
    report is honest: no loss means nothing was cut, tail loss means the cut
    lines can be recovered, and exactly when. */
module LineFilter {
  import opened Wrappers
  import opened TextLines

  datatype OutputRule = OutputRule(pattern: string -> bool, message: string, unless: Option<string -> bool>)

  datatype Retain = AllLines | Strip(matching: string -> bool) | Keep(matching: string -> bool)

  datatype CompiledFilter = CompiledFilter(
    matchCommand: string -> bool,
    stripAnsi: bool,
    replace: seq<string -> string>,
    matchOutput: seq<OutputRule>,
    retain: Retain,
    truncateAt: Option<nat>,
    headLines: Option<nat>,
    tailLines: Option<nat>,
    maxLines: Option<nat>,
    onEmpty: Option<string>)

  datatype Lossiness = NoLoss | Tail(payload: string, offset: nat) | Whole

  // ---- The stages, as a specification ----

  function Chained(rules: seq<string -> string>, line: string): string
    decreases |rules|
  {
    if rules == [] then line else Chained(rules[1..], rules[0](line))
  }

  function Cleaned(f: CompiledFilter, line: string): string {
    Chained(f.replace, if f.stripAnsi then StripAnsi(line) else line)
  }

  /** Stages 1 and 2. */
  function CleanLines(f: CompiledFilter, stdout: string): (r: seq<string>)
    ensures |r| == |Lines(stdout)|
    ensures forall i :: 0 <= i < |r| ==> r[i] == Cleaned(f, Lines(stdout)[i])
  {
    var lines := Lines(stdout);
    seq(|lines|, i requires 0 <= i < |lines| => Cleaned(f, lines[i]))
  }

  predicate Fires(rule: OutputRule, blob: string) {
    rule.pattern(blob) && !(rule.unless.Some? && rule.unless.value(blob))
  }

  /** Stage 3: the message of the first rule that fires. */
  function FirstMessage(rules: seq<OutputRule>, blob: string): Option<string> {
    if rules == [] then None
    else if Fires(rules[0], blob) then Some(rules[0].message)
    else FirstMessage(rules[1..], blob)
  }

  predicate Retained(r: Retain, line: string) {
    match r
    case AllLines => true
    case Strip(m) => !m(line)
    case Keep(m) => m(line)
  }

  /** Stage 4. */
  function Retaining(r: Retain, lines: seq<string>): (kept: seq<string>)
    ensures |kept| <= |lines|
    ensures forall i :: 0 <= i < |kept| ==> kept[i] in lines && Retained(r, kept[i])
  {
    if lines == [] then []
    else
      var last := lines[|lines| - 1];
      Retaining(r, lines[..|lines| - 1]) + if Retained(r, last) then [last] else []
  }

  function KeptLines(f: CompiledFilter, stdout: string): seq<string> {
    Retaining(f.retain, CleanLines(f, stdout))
  }

  function Shortened(at: Option<nat>, line: string): string {
    if at.Some? then Truncate(line, at.value) else line
  }

  /** Stage 5. */
  function ShortLines(at: Option<nat>, lines: seq<string>): (r: seq<string>)
    ensures |r| == |lines|
    ensures forall i :: 0 <= i < |r| ==> r[i] == Shortened(at, lines[i])
  {
    seq(|lines|, i requires 0 <= i < |lines| => Shortened(at, lines[i]))
  }

  function OmittedMarker(n: nat): string { "... (" + Decimal(n) + " lines omitted)" }

  function TruncatedMarker(n: nat): string { "... (" + Decimal(n) + " lines truncated)" }

  datatype Cut = Cut(lines: seq<string>, headCut: Option<nat>, dropped: bool)

  /** Stage 6. */
  function HeadTail(f: CompiledFilter, lines: seq<string>): Cut {
    var total := |lines|;
    if f.headLines.Some? && f.tailLines.Some? then
      var (head, tail) := (f.headLines.value, f.tailLines.value);
      if total > head + tail then
        Cut(lines[..head] + [OmittedMarker(total - head - tail)] + lines[total - tail..], None, true)
      else Cut(lines, None, false)
    else if f.headLines.Some? && total > f.headLines.value then
      var head := f.headLines.value;
      Cut(lines[..head] + [OmittedMarker(total - head)], Some(head), false)
    else if f.headLines.None? && f.tailLines.Some? && total > f.tailLines.value then
      var omitted := total - f.tailLines.value;
      Cut([OmittedMarker(omitted)] + lines[omitted..], None, true)
    else Cut(lines, None, false)
  }

  /** Stage 7. */
  function Capped(max: Option<nat>, lines: seq<string>): seq<string> {
    if max.Some? && |lines| > max.value then lines[..max.value] + [TruncatedMarker(|lines| - max.value)] else lines
  }

  /** The cap that stage 7 applied, if it did. */
  function CapCut(max: Option<nat>, lines: seq<string>): Option<nat> {
    if max.Some? && |lines| > max.value then max else None
  }

  function LossOf(f: CompiledFilter, short: seq<string>, intraLine: bool, cut: Cut, capCut: Option<nat>): Lossiness {
    if !intraLine && f.tailLines.None? && (f.headLines.Some? || f.maxLines.Some?) then
      match (cut.headCut, capCut)
      case (Some(_), Some(_)) => Whole
      case (Some(head), None) => Tail(Join(short), head + 1)
      case (None, Some(max)) => Tail(Join(short), max + 1)
      case (None, None) => NoLoss
    else if cut.dropped || intraLine || cut.headCut.Some? || capCut.Some? then Whole
    else NoLoss
  }

  function Outcome(f: CompiledFilter, stdout: string): (string, Lossiness) {
    var message := FirstMessage(f.matchOutput, Join(CleanLines(f, stdout)));
    if message.Some? then (message.value, Whole)
    else
      var kept := KeptLines(f, stdout);
      var short := ShortLines(f.truncateAt, kept);
      var cut := HeadTail(f, short);
      var text := Join(Capped(f.maxLines, cut.lines));
      if IsBlank(text) && f.onEmpty.Some? then (f.onEmpty.value, NoLoss)
      else (text, LossOf(f, short, short != kept, cut, CapCut(f.maxLines, cut.lines)))
  }

  // ---- The program ----

  method ReplaceAll(rules: seq<string -> string>, line: string) returns (r: string)
    ensures r == Chained(rules, line)
  {
    r := line;
    for i := 0 to |rules|
      invariant Chained(rules[i..], r) == Chained(rules, line)
    {
      r := rules[i](r);
      assert rules[i..][1..] == rules[i + 1..];
    }
  }

  method CleanAll(f: CompiledFilter, stdout: string) returns (lines: seq<string>)
    ensures lines == CleanLines(f, stdout)
  {
    lines := Lines(stdout);
    for i := 0 to |lines|
      invariant |lines| == |Lines(stdout)|
      invariant forall j :: 0 <= j < i ==> lines[j] == Cleaned(f, Lines(stdout)[j])
      invariant forall j :: i <= j < |lines| ==> lines[j] == Lines(stdout)[j]
    {
      var line := if f.stripAnsi then StripAnsi(lines[i]) else lines[i];
      line := ReplaceAll(f.replace, line);
      lines := lines[i := line];
    }
  }

  /** The pattern matches, and the exception, if there is one, does not. */
  predicate MatchesUnexcepted(rule: OutputRule, blob: string) {
    rule.pattern(blob) && (rule.unless.None? || !rule.unless.value(blob))
  }

  predicate FirstToFire(rules: seq<OutputRule>, blob: string, i: int) {
    && 0 <= i < |rules| && MatchesUnexcepted(rules[i], blob)
    && forall j :: 0 <= j < i ==> !MatchesUnexcepted(rules[j], blob)
  }

  method MatchOutput(rules: seq<OutputRule>, blob: string) returns (message: Option<string>)
    ensures message == FirstMessage(rules, blob)
    ensures message.Some? <==> exists i :: FirstToFire(rules, blob, i)
    ensures forall i :: FirstToFire(rules, blob, i) ==> message == Some(rules[i].message)
  {
    for i := 0 to |rules|
      invariant FirstMessage(rules, blob) == FirstMessage(rules[i..], blob)
      invariant forall j :: 0 <= j < i ==> !MatchesUnexcepted(rules[j], blob)
    {
      var rule := rules[i];
      if rule.pattern(blob) && !(rule.unless.Some? && rule.unless.value(blob)) {
        assert FirstToFire(rules, blob, i);
        return Some(rule.message);
      }
      assert rules[i..][1..] == rules[i + 1..];
    }
    return None;
  }

  method TruncateAll(at: Option<nat>, kept: seq<string>) returns (lines: seq<string>, intraLine: bool)
    ensures lines == ShortLines(at, kept)
    ensures at.None? ==> lines == kept
    ensures at.Some? ==> |lines| == |kept| && forall i :: 0 <= i < |kept| ==> lines[i] == Truncate(kept[i], at.value)
    ensures intraLine <==> lines != kept
  {
    lines, intraLine := kept, false;
    if at.Some? {
      for i := 0 to |lines|
        invariant |lines| == |kept|
        invariant forall j :: 0 <= j < i ==> lines[j] == Truncate(kept[j], at.value)
        invariant forall j :: i <= j < |lines| ==> lines[j] == kept[j]
        invariant intraLine <==> exists j :: 0 <= j < i && lines[j] != kept[j]
      {
        var truncated := Truncate(lines[i], at.value);
        if truncated != lines[i] {
          intraLine := true;
        }
        lines := lines[i := truncated];
      }
    }
    assert lines == ShortLines(at, kept);
  }

  method CutHeadTail(f: CompiledFilter, short: seq<string>)
    returns (lines: seq<string>, headCut: Option<nat>, dropped: bool)
    ensures Cut(lines, headCut, dropped) == HeadTail(f, short)
  {
    var total := |short|;
    lines, headCut, dropped := short, None, false;
    if f.headLines.Some? && f.tailLines.Some? {
      var head, tail := f.headLines.value, f.tailLines.value;
      if total > head + tail {
        lines := lines[..head] + [OmittedMarker(total - head - tail)] + lines[total - tail..];
        dropped := true;
      }
    } else if f.headLines.Some? {
      var head := f.headLines.value;
      if total > head {
        lines := lines[..head] + [OmittedMarker(total - head)];
        headCut := Some(head);
      }
    } else if f.tailLines.Some? {
      var tail := f.tailLines.value;
      if total > tail {
        var omitted := total - tail;
        lines := [OmittedMarker(omitted)] + lines[omitted..];
        dropped := true;
      }
    }
  }

  method CapLines(max: Option<nat>, lines: seq<string>) returns (shown: seq<string>, maxCut: Option<nat>)
    ensures shown == Capped(max, lines) && maxCut == CapCut(max, lines)
  {
    shown, maxCut := lines, None;
    if max.Some? && |lines| > max.value {
      shown := lines[..max.value] + [TruncatedMarker(|lines| - max.value)];
      maxCut := max;
    }
  }

  method ApplyFilterWithInfo(f: CompiledFilter, stdout: string) returns (text: string, loss: Lossiness)
    ensures (text, loss) == Outcome(f, stdout)
    ensures forall i :: FirstToFire(f.matchOutput, Join(CleanLines(f, stdout)), i) ==>
              text == f.matchOutput[i].message && loss == Whole
    ensures (forall i :: !FirstToFire(f.matchOutput, Join(CleanLines(f, stdout)), i)) ==>
              var shown := Join(ShownLines(f, KeptLines(f, stdout)));
              text == if IsBlank(shown) && f.onEmpty.Some? then f.onEmpty.value else shown
  {
    var lines := CleanAll(f, stdout);
    var message := MatchOutput(f.matchOutput, Join(lines));
    if message.Some? {
      return message.value, Whole;
    }
    lines := Retaining(f.retain, lines);
    var preCut, intraLine := TruncateAll(f.truncateAt, lines);
    var cutLines, headCut, dropped := CutHeadTail(f, preCut);
    var shown, maxCut := CapLines(f.maxLines, cutLines);
    text := Join(shown);
    if IsBlank(text) && f.onEmpty.Some? {
      return f.onEmpty.value, NoLoss;
    }
    loss := LossOf(f, preCut, intraLine, Cut(cutLines, headCut, dropped), maxCut);
  }

  // ---- What the first stages keep ----

  /** Each value is the rule's rewrite of the one before it. */
  predicate Rewrites(rules: seq<string -> string>, values: seq<string>) {
    |values| == |rules| + 1 && forall i :: 0 <= i < |rules| ==> values[i + 1] == rules[i](values[i])
  }

  lemma {:induction false} ChainedByRules(rules: seq<string -> string>, line: string) returns (values: seq<string>)
    ensures Rewrites(rules, values) && values[0] == line && values[|rules|] == Chained(rules, line)
    decreases |rules|
  {
    if rules == [] {
      values := [line];
    } else {
      var rest := ChainedByRules(rules[1..], rules[0](line));
      values := [line] + rest;
      forall i | 0 <= i < |rules|
        ensures values[i + 1] == rules[i](values[i])
      {
        if i > 0 {
          assert rest[i] == rules[1..][i - 1](rest[i - 1]);
        }
      }
    }
  }

  /** Every line of the output goes through the colour filter, if that is on, and
      then through the rules in their order. */
  lemma CleanedByRules(f: CompiledFilter, stdout: string, i: nat)
    requires i < |Lines(stdout)|
    ensures |CleanLines(f, stdout)| == |Lines(stdout)|
    ensures exists values ::
              && Rewrites(f.replace, values)
              && values[0] == (if f.stripAnsi then StripAnsi(Lines(stdout)[i]) else Lines(stdout)[i])
              && values[|f.replace|] == CleanLines(f, stdout)[i]
  {
    var line := if f.stripAnsi then StripAnsi(Lines(stdout)[i]) else Lines(stdout)[i];
    var values := ChainedByRules(f.replace, line);
  }

  /** A line that stage 4 keeps, as the filter's setting says. */
  const KEEPS := (r: Retain) => (line: string) =>
    if r.AllLines? || (r.Strip? && !r.matching(line)) || (r.Keep? && r.matching(line)) then Some(line) else None

  lemma {:induction false} RetainingPicks(r: Retain, lines: seq<string>)
    ensures Picked(lines, KEEPS(r), Retaining(r, lines))
    decreases |lines|
  {
    if lines == [] {
      PickedNone(KEEPS(r));
    } else {
      var n := |lines| - 1;
      RetainingPicks(r, lines[..n]);
      PickedOneMore(lines[..n], KEEPS(r), Retaining(r, lines[..n]), lines[n]);
      assert lines[..n] + [lines[n]] == lines;
    }
  }

  /** The kept lines are the cleaned lines at increasing positions: all of them,
      those that a strip filter does not match, or those that a keep filter does. */
  lemma KeptLinesPicked(f: CompiledFilter, stdout: string)
    ensures var clean, kept := CleanLines(f, stdout), KeptLines(f, stdout);
            && (f.retain.AllLines? ==> kept == clean)
            && Picked(clean, KEEPS(f.retain), kept)
            && (f.retain.Strip? ==> forall line :: line in kept <==> line in clean && !f.retain.matching(line))
            && (f.retain.Keep? ==> forall line :: line in kept <==> line in clean && f.retain.matching(line))
  {
    RetainingPicks(f.retain, CleanLines(f, stdout));
    RetainingMembers(f.retain, CleanLines(f, stdout));
  }

  lemma {:induction false} RetainingMembers(r: Retain, lines: seq<string>)
    ensures r.AllLines? ==> Retaining(r, lines) == lines
    ensures r.Strip? ==> forall line :: line in Retaining(r, lines) <==> line in lines && !r.matching(line)
    ensures r.Keep? ==> forall line :: line in Retaining(r, lines) <==> line in lines && r.matching(line)
    decreases |lines|
  {
    if lines == [] {
    } else {
      var n := |lines| - 1;
      RetainingMembers(r, lines[..n]);
      assert lines == lines[..n] + [lines[n]];
    }
  }

  // ---- Nothing is reported lost exactly when nothing was cut ----

  /** The guards of stages 5 to 7 all let the lines through. */
  predicate LinesFit(f: CompiledFilter, kept: seq<string>) {
    && (forall i :: 0 <= i < |kept| ==> Shortened(f.truncateAt, kept[i]) == kept[i])
    && (f.headLines.Some? && f.tailLines.Some? ==> |kept| <= f.headLines.value + f.tailLines.value)
    && (f.headLines.Some? && f.tailLines.None? ==> |kept| <= f.headLines.value)
    && (f.headLines.None? && f.tailLines.Some? ==> |kept| <= f.tailLines.value)
    && (f.maxLines.Some? ==> |kept| <= f.maxLines.value)
  }

  /** So do they and stage 3. */
  predicate Fits(f: CompiledFilter, stdout: string) {
    && FirstMessage(f.matchOutput, Join(CleanLines(f, stdout))).None?
    && LinesFit(f, KeptLines(f, stdout))
  }

  /** Stages 5 to 7 change nothing. */
  predicate Uncut(f: CompiledFilter, kept: seq<string>) {
    var short := ShortLines(f.truncateAt, kept);
    short == kept && HeadTail(f, short) == Cut(short, None, false) && CapCut(f.maxLines, short).None?
  }

  lemma MarkersNotBlank(n: nat)
    ensures !IsBlank(OmittedMarker(n)) && !IsBlank(TruncatedMarker(n))
  {
    assert OmittedMarker(n)[0] == '.' && TruncatedMarker(n)[0] == '.';
  }

  /** A blank final text means that no stage from 5 on changed anything. */
  lemma BlankMeansUncut(f: CompiledFilter, kept: seq<string>)
    requires var short := ShortLines(f.truncateAt, kept);
             IsBlank(Join(Capped(f.maxLines, HeadTail(f, short).lines)))
    ensures Uncut(f, kept)
  {
    var short := ShortLines(f.truncateAt, kept);
    var cut := HeadTail(f, short);
    if CapCut(f.maxLines, cut.lines).Some? {
      CapNotBlank(f.maxLines, cut.lines);
    } else if cut != Cut(short, None, false) {
      HeadTailNotBlank(f, short);
    } else if short != kept {
      var i :| 0 <= i < |kept| && short[i] != kept[i];
      TruncateProperties(kept[i], f.truncateAt.value);
      JoinNotBlank(short, i);
    }
  }

  lemma CapNotBlank(max: Option<nat>, lines: seq<string>)
    requires CapCut(max, lines).Some?
    ensures !IsBlank(Join(Capped(max, lines)))
  {
    MarkersNotBlank(|lines| - max.value);
    JoinNotBlank(Capped(max, lines), max.value);
  }

  lemma HeadTailNotBlank(f: CompiledFilter, lines: seq<string>)
    requires HeadTail(f, lines) != Cut(lines, None, false)
    ensures !IsBlank(Join(HeadTail(f, lines).lines))
  {
    var cut := HeadTail(f, lines);
    var head := if f.headLines.Some? then f.headLines.value else 0;
    var tail := if f.tailLines.Some? then f.tailLines.value else 0;
    MarkersNotBlank(|lines| - head - tail);
    assert cut.lines[head] == OmittedMarker(|lines| - head - tail);
    JoinNotBlank(cut.lines, head);
  }

  lemma UncutIffFit(f: CompiledFilter, kept: seq<string>)
    ensures Uncut(f, kept) <==> LinesFit(f, kept)
  {
    var short := ShortLines(f.truncateAt, kept);
    assert short == kept <==> forall i :: 0 <= i < |kept| ==> Shortened(f.truncateAt, kept[i]) == kept[i];
  }

  lemma NoLossIffUncut(f: CompiledFilter, kept: seq<string>)
    ensures var short := ShortLines(f.truncateAt, kept);
            var cut := HeadTail(f, short);
            LossOf(f, short, short != kept, cut, CapCut(f.maxLines, cut.lines)) == NoLoss <==> Uncut(f, kept)
  {
  }

  /** No loss is reported exactly when the output fits, and then the output is
      all the kept lines, or the message for blank output. */
  lemma NoLossIffFits(f: CompiledFilter, stdout: string)
    ensures Outcome(f, stdout).1 == NoLoss <==> Fits(f, stdout)
    ensures Fits(f, stdout) ==>
              Outcome(f, stdout).0 ==
              var text := Join(KeptLines(f, stdout));
              if IsBlank(text) && f.onEmpty.Some? then f.onEmpty.value else text
  {
    var kept := KeptLines(f, stdout);
    var cut := HeadTail(f, ShortLines(f.truncateAt, kept));
    UncutIffFit(f, kept);
    NoLossIffUncut(f, kept);
    if IsBlank(Join(Capped(f.maxLines, cut.lines))) {
      BlankMeansUncut(f, kept);
    }
  }

  // ---- Recovering the cut lines ----

  /** `tail -n +offset` over a payload. */
  function TailFrom(payload: string, offset: nat): seq<string>
    requires 1 <= offset
  {
    var pieces := Split(payload);
    if offset - 1 <= |pieces| then pieces[offset - 1..] else []
  }

  /** What a tail loss says: the output is a prefix of the kept lines and one
      marker that counts the rest, and the payload holds them all. */
  lemma TailLossShape(f: CompiledFilter, stdout: string)
    requires Outcome(f, stdout).1.Tail?
    ensures var (text, loss) := Outcome(f, stdout);
            TailShape(KeptLines(f, stdout), text, loss)
  {
    var kept := KeptLines(f, stdout);
    var short := ShortLines(f.truncateAt, kept);
    var cut := HeadTail(f, short);
    assert short == kept;
    TailCut(f, kept);
  }

  predicate TailShape(kept: seq<string>, text: string, loss: Lossiness)
    requires loss.Tail?
  {
    && 1 <= loss.offset <= |kept|
    && loss.payload == Join(kept)
    && var omitted := |kept| - (loss.offset - 1);
       (text == Join(kept[..loss.offset - 1] + [OmittedMarker(omitted)])
        || text == Join(kept[..loss.offset - 1] + [TruncatedMarker(omitted)]))
  }

  lemma TailCut(f: CompiledFilter, kept: seq<string>)
    requires var cut := HeadTail(f, kept);
             LossOf(f, kept, false, cut, CapCut(f.maxLines, cut.lines)).Tail?
    ensures var cut := HeadTail(f, kept);
            TailShape(kept, Join(Capped(f.maxLines, cut.lines)), LossOf(f, kept, false, cut, CapCut(f.maxLines, cut.lines)))
  {
    var cut := HeadTail(f, kept);
    if cut.headCut.Some? {
      assert Capped(f.maxLines, cut.lines) == kept[..cut.headCut.value] + [OmittedMarker(|kept| - cut.headCut.value)];
    } else {
      assert cut.lines == kept;
    }
  }

  lemma PayloadRecovers(kept: seq<string>, n: nat)
    requires kept != [] && n <= |kept|
    ensures kept[..n] + TailFrom(Join(kept), n + 1) == kept <==> AllNewlineFree(kept)
  {
    SplitJoin(kept);
    RestFits(kept, Split(Join(kept)), n);
  }

  lemma RestFits(kept: seq<string>, pieces: seq<string>, n: nat)
    requires n <= |kept| <= |pieces| && (pieces == kept || |pieces| > |kept|)
    ensures kept[..n] + pieces[n..] == kept <==> pieces == kept
  {
    assert |kept[..n] + pieces[n..]| == |pieces|;
    assert kept[..n] + kept[n..] == kept;
  }

  /** Reading the payload from the offset on recovers exactly the lines the
      output leaves out if and only if no kept line contains a newline. */
  lemma TailLossRecovers(f: CompiledFilter, stdout: string)
    requires Outcome(f, stdout).1.Tail?
    ensures var loss := Outcome(f, stdout).1;
            var kept := KeptLines(f, stdout);
            && 1 <= loss.offset <= |kept|
            && (kept[..loss.offset - 1] + TailFrom(loss.payload, loss.offset) == kept <==> AllNewlineFree(kept))
  {
    TailLossShape(f, stdout);
    PayloadRecovers(KeptLines(f, stdout), Outcome(f, stdout).1.offset - 1);
  }

  /** No stage puts a newline into a line unless a replacement rule does. */
  lemma KeptLinesNewlineFree(f: CompiledFilter, stdout: string)
    requires forall r, line :: r in f.replace && NewlineFree(line) ==> NewlineFree(r(line))
    ensures AllNewlineFree(KeptLines(f, stdout))
  {
    var clean := CleanLines(f, stdout);
    forall i | 0 <= i < |clean|
      ensures NewlineFree(clean[i])
    {
      assert NewlineFree(Lines(stdout)[i]);
      ChainedNewlineFree(f.replace, if f.stripAnsi then StripAnsi(Lines(stdout)[i]) else Lines(stdout)[i]);
    }
  }

  lemma {:induction false} ChainedNewlineFree(rules: seq<string -> string>, line: string)
    requires NewlineFree(line)
    requires forall r, l :: r in rules && NewlineFree(l) ==> NewlineFree(r(l))
    ensures NewlineFree(Chained(rules, line))
    decreases |rules|
  {
    if rules == [] {
    } else {
      assert rules[0] in rules;
      ChainedNewlineFree(rules[1..], rules[0](line));
    }
  }

  const TWO_LINES := "x" + ("\n" + "y")

  /** Replaces every line by two, and keeps none. */
  const LINE_BREAKING :=
    CompiledFilter(_ => true, false, [_ => TWO_LINES], [], AllLines, None, Some(0), None, None, None)

  lemma BrokenLineKept()
    ensures CleanLines(LINE_BREAKING, "a") == KeptLines(LINE_BREAKING, "a") == [TWO_LINES]
  {
    var f := LINE_BREAKING;
    assert Lines("a") == ["a"];
    assert f.replace[1..] == [];
    assert Cleaned(f, "a") == Chained([], TWO_LINES) == TWO_LINES;
    assert CleanLines(f, "a") == [TWO_LINES];
    assert Retaining(AllLines, [TWO_LINES][..0]) == [];
  }

  /** A replacement rule that breaks a line defeats the recovery promised with
      tail loss: the offset counts the pieces of the payload as lines. */
  lemma BrokenLineNotRecovered()
    ensures Outcome(LINE_BREAKING, "a").1 == Tail(TWO_LINES, 1)
    ensures TailFrom(TWO_LINES, 1) != KeptLines(LINE_BREAKING, "a")
  {
    BrokenLineOmitted();
    BrokenLineKept();
    TwoLinesNotRecovered();
  }

  lemma TwoLinesNotRecovered()
    ensures TailFrom(TWO_LINES, 1) != [TWO_LINES]
  {
    assert TWO_LINES[1] == '\n';
    OneLineNotRecovered(TWO_LINES);
  }

  lemma BrokenLineOmitted()
    ensures Outcome(LINE_BREAKING, "a").1 == Tail(TWO_LINES, 1)
  {
    BrokenLineKept();
    OneLineOmitted(LINE_BREAKING, "a", TWO_LINES);
  }

  lemma OneLineOmitted(f: CompiledFilter, stdout: string, line: string)
    requires f.matchOutput == [] && f.truncateAt.None? && f.headLines == Some(0) && f.tailLines.None?
    requires f.maxLines.None? && f.onEmpty.None? && KeptLines(f, stdout) == [line]
    ensures Outcome(f, stdout).1 == Tail(line, 1)
  {
    var kept := KeptLines(f, stdout);
    assert ShortLines(f.truncateAt, kept) == kept;
  }

  lemma OneLineNotRecovered(line: string)
    requires !NewlineFree(line)
    ensures TailFrom(line, 1) != [line]
  {
    SplitJoin([line]);
  }

  // ---- Accounting for every line ----

  /** How many of `total` lines stage 6 leaves out. */
  function OmittedByHeadTail(f: CompiledFilter, total: nat): nat {
    var head := if f.headLines.Some? then f.headLines.value else 0;
    var tail := if f.tailLines.Some? then f.tailLines.value else 0;
    if (f.headLines.Some? || f.tailLines.Some?) && total > head + tail then total - head - tail else 0
  }

  function OrZero(n: Option<nat>): nat {
    if n.Some? then n.value else 0
  }

  /** Each cut shows one marker in place of the lines it leaves out, and the marker
      states how many they are.  The first shows as many first lines as the head
      setting says, then the marker, then as many last lines as the tail setting
      says; the second as many first lines as the cap says, then the marker.  No
      stage from 4 on adds lines. */
  lemma CutsAccountForEveryLine(f: CompiledFilter, lines: seq<string>)
    ensures var cut := HeadTail(f, lines).lines;
            var omitted := OmittedByHeadTail(f, |lines|);
            var head, tail := OrZero(f.headLines), OrZero(f.tailLines);
            && |cut| <= |lines|
            && (omitted == 0 ==> cut == lines)
            && (omitted > 0 ==>
                  && head + omitted + tail == |lines| && |cut| == head + 1 + tail
                  && cut == lines[..head] + ["... (" + Decimal(omitted) + " lines omitted)"] + lines[|lines| - tail..])
    ensures var shown := Capped(f.maxLines, lines);
            if f.maxLines.Some? && |lines| > f.maxLines.value then
              shown == lines[..f.maxLines.value] + ["... (" + Decimal(|lines| - f.maxLines.value) + " lines truncated)"]
            else shown == lines
  {
    var omitted := OmittedByHeadTail(f, |lines|);
    var head, tail := OrZero(f.headLines), OrZero(f.tailLines);
    if omitted > 0 {
      assert HeadTail(f, lines).lines == lines[..head] + [OmittedMarker(omitted)] + lines[|lines| - tail..];
    }
  }

  /** Tail loss is reported exactly when no rule fired, no line was shortened,
      there is no tail setting, and one of the two cuts took place but not both. */
  lemma TailLossIff(f: CompiledFilter, stdout: string)
    ensures Outcome(f, stdout).1.Tail? <==>
              var kept := KeptLines(f, stdout);
              var headCut := f.headLines.Some? && |kept| > f.headLines.value;
              var capCut := f.maxLines.Some? && (if headCut then f.headLines.value + 1 else |kept|) > f.maxLines.value;
              && FirstMessage(f.matchOutput, Join(CleanLines(f, stdout))).None?
              && f.tailLines.None?
              && (forall i :: 0 <= i < |kept| ==> Shortened(f.truncateAt, kept[i]) == kept[i])
              && headCut != capCut
  {
    var kept := KeptLines(f, stdout);
    TailByCuts(f, kept);
    if IsBlank(Join(Capped(f.maxLines, HeadTail(f, ShortLines(f.truncateAt, kept)).lines))) {
      BlankMeansUncut(f, kept);
      NoLossIffUncut(f, kept);
    }
  }

  lemma TailByCuts(f: CompiledFilter, kept: seq<string>)
    ensures var short := ShortLines(f.truncateAt, kept);
            var cut := HeadTail(f, short);
            var headCut := f.headLines.Some? && |kept| > f.headLines.value;
            var capCut := f.maxLines.Some? && (if headCut then f.headLines.value + 1 else |kept|) > f.maxLines.value;
            LossOf(f, short, short != kept, cut, CapCut(f.maxLines, cut.lines)).Tail?
            <==> && f.tailLines.None?
                 && (forall i :: 0 <= i < |kept| ==> Shortened(f.truncateAt, kept[i]) == kept[i])
                 && headCut != capCut
  {
    var short := ShortLines(f.truncateAt, kept);
    assert short == kept <==> forall i :: 0 <= i < |kept| ==> Shortened(f.truncateAt, kept[i]) == kept[i];
  }

  /** The lines left after stages 5 to 7. */
  function ShownLines(f: CompiledFilter, kept: seq<string>): seq<string> {
    Capped(f.maxLines, HeadTail(f, ShortLines(f.truncateAt, kept)).lines)
  }

  /** How many of `total` kept lines, markers included, the output shows. */
  function ShownCount(f: CompiledFilter, total: nat): nat {
    var omitted := OmittedByHeadTail(f, total);
    var cut := if omitted == 0 then total else total - omitted + 1;
    if f.maxLines.Some? && cut > f.maxLines.value then f.maxLines.value + 1 else cut
  }

  lemma ShownCounted(f: CompiledFilter, kept: seq<string>)
    ensures |ShownLines(f, kept)| == ShownCount(f, |kept|) <= |kept|
    ensures f.maxLines.Some? ==> |ShownLines(f, kept)| <= f.maxLines.value + 1
    ensures kept != [] ==> ShownLines(f, kept) != []
  {
    var short := ShortLines(f.truncateAt, kept);
    CutsAccountForEveryLine(f, short);
    CutsAccountForEveryLine(f, HeadTail(f, short).lines);
  }

  lemma MarkersNewlineFree(n: nat)
    ensures NewlineFree(OmittedMarker(n)) && NewlineFree(TruncatedMarker(n))
  {
  }

  lemma ShortLinesNewlineFree(at: Option<nat>, lines: seq<string>)
    requires AllNewlineFree(lines)
    ensures AllNewlineFree(ShortLines(at, lines))
  {
    if at.Some? {
      forall i | 0 <= i < |lines| {
        TruncateProperties(lines[i], at.value);
      }
    }
  }

  lemma HeadTailNewlineFree(f: CompiledFilter, lines: seq<string>)
    requires AllNewlineFree(lines)
    ensures AllNewlineFree(HeadTail(f, lines).lines)
  {
    CutsAccountForEveryLine(f, lines);
    MarkersNewlineFree(OmittedByHeadTail(f, |lines|));
  }

  lemma CappedNewlineFree(max: Option<nat>, lines: seq<string>)
    requires AllNewlineFree(lines)
    ensures AllNewlineFree(Capped(max, lines))
  {
    if CapCut(max, lines).Some? {
      MarkersNewlineFree(|lines| - max.value);
    }
  }

  lemma ShownNewlineFree(f: CompiledFilter, kept: seq<string>)
    requires AllNewlineFree(kept)
    ensures AllNewlineFree(ShownLines(f, kept))
  {
    var short := ShortLines(f.truncateAt, kept);
    ShortLinesNewlineFree(f.truncateAt, kept);
    HeadTailNewlineFree(f, short);
    CappedNewlineFree(f.maxLines, HeadTail(f, short).lines);
  }

  /** The output, cut at its newlines, is what stages 5 to 7 left, exactly when
      those lines contain no newline themselves. */
  ghost predicate HasShownLines(f: CompiledFilter, kept: seq<string>, text: string) {
    var shown := ShownLines(f, kept);
    && (kept == [] ==> text == "")
    && (kept != [] ==> (Split(text) == shown <==> AllNewlineFree(shown)))
    && (kept != [] ==> (|Split(text)| == ShownCount(f, |kept|) <==> AllNewlineFree(shown)))
    && (kept != [] && AllNewlineFree(kept) ==>
          && Split(text) == shown
          && |Split(text)| == ShownCount(f, |kept|) <= |kept|
          && (f.maxLines.Some? ==> |Split(text)| <= f.maxLines.value + 1))
  }

  lemma JoinedHasShownLines(f: CompiledFilter, kept: seq<string>)
    ensures HasShownLines(f, kept, Join(ShownLines(f, kept)))
  {
    ShownCounted(f, kept);
    if kept != [] {
      SplitJoin(ShownLines(f, kept));
      if AllNewlineFree(kept) {
        ShownNewlineFree(f, kept);
      }
    }
  }

  /** The output of a filter that does not short-circuit, cut at its newlines, has
      exactly the lines that the cuts leave: no more than were kept and at most one
      more than the cap, if no kept line contains a newline.  Or it is the message
      for blank output. */
  lemma OutputWithinCap(f: CompiledFilter, stdout: string)
    requires FirstMessage(f.matchOutput, Join(CleanLines(f, stdout))).None?
    ensures var (text, loss) := Outcome(f, stdout);
            HasShownLines(f, KeptLines(f, stdout), text)
            || (f.onEmpty == Some(text) && loss == NoLoss && Fits(f, stdout))
  {
    var kept := KeptLines(f, stdout);
    var shown := ShownLines(f, kept);
    JoinedHasShownLines(f, kept);
    NoLossIffFits(f, stdout);
    assert Outcome(f, stdout).0 == Join(shown) || IsBlank(Join(shown));
  }

  const THREE_LINES := "x" + ("\n" + ("y" + ("\n" + "z")))

  /** Replaces every line by three, and keeps one. */
  const CAP_BREAKING :=
    CompiledFilter(_ => true, false, [_ => THREE_LINES], [], AllLines, None, None, None, Some(1), None)

  lemma CapBreakingKept()
    ensures CleanLines(CAP_BREAKING, "a") == KeptLines(CAP_BREAKING, "a") == [THREE_LINES]
  {
    var f := CAP_BREAKING;
    assert Lines("a") == ["a"];
    assert f.replace[1..] == [];
    assert Cleaned(f, "a") == Chained([], THREE_LINES) == THREE_LINES;
    assert CleanLines(f, "a") == [THREE_LINES];
    assert Retaining(AllLines, [THREE_LINES][..0]) == [];
  }

  lemma ThreePieces(x: string, y: string, z: string)
    requires NewlineFree(x) && NewlineFree(y) && NewlineFree(z)
    ensures Split(x + ("\n" + (y + ("\n" + z)))) == [x, y, z]
  {
    SplitAtNewline(x, y + ("\n" + z));
    SplitAtNewline(y, z);
  }

  /** A replacement rule that breaks lines defeats the cap: three lines of output
      under a cap of one, where one more would be the marker. */
  lemma CapNotKept()
    ensures CAP_BREAKING.maxLines == Some(1)
    ensures |Split(Outcome(CAP_BREAKING, "a").0)| == 3
  {
    CapBreakingKept();
    ThreePieces("x", "y", "z");
    OneLineShown(CAP_BREAKING, "a", THREE_LINES);
  }

  lemma OneLineShown(f: CompiledFilter, stdout: string, line: string)
    requires f.matchOutput == [] && f.truncateAt.None? && f.headLines.None? && f.tailLines.None?
    requires f.maxLines == Some(1) && f.onEmpty.None? && KeptLines(f, stdout) == [line]
    ensures Outcome(f, stdout).0 == line
  {
    var kept := KeptLines(f, stdout);
    assert ShortLines(f.truncateAt, kept) == kept;
    assert Capped(f.maxLines, HeadTail(f, kept).lines) == kept;
  }
}
