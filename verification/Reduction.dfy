/** Reduction of tool results in a request (src/reduce/transform.rs): the output
    of a known command is stored, filtered, and replaced by the filtered text
    with a marker that names the stored original.  The main results say that
    nothing but the content of tool results changes, that every result is
    accounted for, and that what was replaced can be read back by its marker. */
module Reduction {
  import opened Wrappers
  import opened JsonTree
  import opened TextLines
  import opened LineFilter
  import opened ContentStore
  import opened Breakpoints

  // ---- Which command produced a result ----

  /** How many white-space characters a text starts with. */
  function LeadingBlanks(s: string): (n: nat)
    ensures n <= |s| && IsBlank(s[..n])
    ensures n < |s| ==> !IsWhitespace(s[n])
  {
    if s == "" || !IsWhitespace(s[0]) then 0
    else
      var n := 1 + LeadingBlanks(s[1..]);
      assert s[..n] == [s[0]] + s[1..][..n - 1];
      n
  }

  function TrimStart(s: string): string {
    s[LeadingBlanks(s)..]
  }

  function Repeat(word: string, n: nat): string {
    if n == 0 then "" else word + Repeat(word, n - 1)
  }

  /** Drops every leading copy of a word. */
  function DropCopies(s: string, word: string): (r: string)
    requires word != ""
    ensures !(word <= r)
    ensures exists n: nat :: s == Repeat(word, n) + r
    decreases |s|
  {
    if word <= s then
      var r := DropCopies(s[|word|..], word);
      assert exists n: nat :: s == Repeat(word, n) + r by {
        var n: nat :| s[|word|..] == Repeat(word, n) + r;
        assert s == Repeat(word, n + 1) + r;
      }
      r
    else
      assert s == Repeat(word, 0) + s;
      s
  }

  /** A command line without leading white space, `sudo`s and `rtk`s. */
  function StripPrefixes(raw: string): string {
    DropCopies(DropCopies(TrimStart(raw), "sudo "), "rtk ")
  }

  /** The command line behind a shell tool's call. */
  function ResolveCommand(tool: string, block: Json): Option<string> {
    if tool != "Bash" then None
    else
      match block.Get("input")
      case None => None
      case Some(input) =>
        match input.TextOf("command")
        case None => None
        case Some(raw) => if StripPrefixes(raw) == "" then None else Some(StripPrefixes(raw))
  }

  /** Dropping two words in turn leaves what follows all their copies. */
  lemma WordsDropped(s: string, p: string, q: string)
    requires p != "" && q != ""
    ensures var r := DropCopies(DropCopies(s, p), q);
            && !(q <= r)
            && exists i: nat, j: nat :: s == Repeat(p, i) + (Repeat(q, j) + r) && !(p <= Repeat(q, j) + r)
  {
    var bare := DropCopies(s, p);
    var r := DropCopies(bare, q);
    var i: nat :| s == Repeat(p, i) + bare;
    var j: nat :| bare == Repeat(q, j) + r;
    assert s == Repeat(p, i) + (Repeat(q, j) + r);
  }

  /** `r` is what is left of a text without leading white space, then copies of
      one word, then copies of another. */
  ghost predicate LeftOf(s: string, p: string, q: string, r: string) {
    exists blanks, i: nat, j: nat :: LeftAfter(s, p, q, r, blanks, i, j)
  }

  predicate LeftAfter(s: string, p: string, q: string, r: string, blanks: string, i: nat, j: nat) {
    var rest := Repeat(q, j) + r;
    && s == blanks + (Repeat(p, i) + rest)
    && IsBlank(blanks) && NoLeadingBlank(Repeat(p, i) + rest)
    && !(p <= rest) && !(q <= r)
  }

  predicate NoLeadingBlank(s: string) {
    s == "" || !IsWhitespace(s[0])
  }

  lemma TrimSplits(s: string)
    ensures var n := LeadingBlanks(s);
            s == s[..n] + TrimStart(s) && IsBlank(s[..n]) && NoLeadingBlank(TrimStart(s))
  {
  }

  /** The words are dropped from the bare text `bare`, leaving `r`. */
  lemma BlanksAndWords(s: string, blanks: string, bare: string, p: string, q: string, r: string)
    requires s == blanks + bare && IsBlank(blanks) && NoLeadingBlank(bare) && !(q <= r)
    requires exists i: nat, j: nat :: bare == Repeat(p, i) + (Repeat(q, j) + r) && !(p <= Repeat(q, j) + r)
    ensures LeftOf(s, p, q, r)
  {
    var i: nat, j: nat :| bare == Repeat(p, i) + (Repeat(q, j) + r) && !(p <= Repeat(q, j) + r);
    assert LeftAfter(s, p, q, r, blanks, i, j);
  }

  lemma PrefixesLeaveOff(s: string, p: string, q: string)
    requires p != "" && q != ""
    ensures LeftOf(s, p, q, DropCopies(DropCopies(TrimStart(s), p), q))
  {
    var bare := TrimStart(s);
    TrimSplits(s);
    WordsDropped(bare, p, q);
    BlanksAndWords(s, s[..LeadingBlanks(s)], bare, p, q, DropCopies(DropCopies(bare, p), q));
  }

  /** A command is found in the `command` text of a Bash call's input: it is what
      the prefixes leave of that text, unless they leave nothing. */
  lemma CommandOfBash(tool: string, block: Json)
    ensures var r := ResolveCommand(tool, block);
            if tool == "Bash" && block.Get("input").Some? && block.Get("input").value.TextOf("command").Some? then
              var raw := block.Get("input").value.TextOf("command").value;
              LeftOf(raw, "sudo ", "rtk ", OrEmpty(r)) && r != Some("")
            else r == None
  {
    if tool == "Bash" && block.Get("input").Some? && block.Get("input").value.TextOf("command").Some? {
      PrefixesLeaveOff(block.Get("input").value.TextOf("command").value, "sudo ", "rtk ");
    }
  }

  datatype ToolUse = ToolUse(id: string, name: string, command: Option<string>)

  function UseOf(block: Json): Option<ToolUse> {
    if block.TextOf("type") != Some("tool_use") then None
    else
      match (block.TextOf("id"), block.TextOf("name"))
      case (Some(id), Some(name)) => Some(ToolUse(id, name, ResolveCommand(name, block)))
      case _ => None
  }

  function UsesIn(blocks: seq<Json>): seq<ToolUse> {
    if blocks == [] then []
    else
      var last := UseOf(blocks[|blocks| - 1]);
      UsesIn(blocks[..|blocks| - 1]) + if last.Some? then [last.value] else []
  }

  function UsesOf(msgs: seq<Json>): seq<ToolUse> {
    if msgs == [] then []
    else
      var last := msgs[|msgs| - 1];
      UsesOf(msgs[..|msgs| - 1])
      + if last.TextOf("role") == Some("assistant") && last.HasArray("content") then UsesIn(last.ItemsOf("content"))
        else []
  }

  datatype Tools = Tools(names: map<string, string>, commands: map<string, string>) {
    function With(u: ToolUse): Tools {
      Tools(names[u.id := u.name], if u.command.Some? then commands[u.id := u.command.value] else commands)
    }
  }

  function ToolsOf(uses: seq<ToolUse>): Tools {
    if uses == [] then Tools(map[], map[])
    else ToolsOf(uses[..|uses| - 1]).With(uses[|uses| - 1])
  }

  /** The content blocks of the assistant's messages, in order. */
  function AssistantBlocks(msgs: seq<Json>): seq<Json> {
    if msgs == [] then []
    else
      var last := msgs[|msgs| - 1];
      AssistantBlocks(msgs[..|msgs| - 1])
      + if last.HasArray("content") && last.TextOf("role") == Some("assistant") then last.ItemsOf("content") else []
  }

  /** The block uses a tool under this identifier. */
  predicate Uses(block: Json, id: string) {
    block.TextOf("type") == Some("tool_use") && block.TextOf("id") == Some(id) && block.TextOf("name").Some?
  }

  /** The tool a block uses under an identifier. */
  function NameUnder(id: string): Json -> Option<string> {
    (block: Json) => if Uses(block, id) then block.TextOf("name") else None
  }

  /** The command that it runs, if it runs one. */
  function CommandUnder(id: string): Json -> Option<string> {
    (block: Json) => if Uses(block, id) then ResolveCommand(block.TextOf("name").value, block) else None
  }

  lemma {:induction false} UsesConcat(a: seq<Json>, b: seq<Json>)
    ensures UsesIn(a + b) == UsesIn(a) + UsesIn(b)
    decreases |b|
  {
    if b == [] {
      assert a + b == a && UsesIn(a) + [] == UsesIn(a);
    } else {
      var n := |b| - 1;
      assert (a + b)[..|a + b| - 1] == a + b[..n];
      UsesConcat(a, b[..n]);
      var last := UseOf(b[n]);
      Associate(UsesIn(a), UsesIn(b[..n]), if last.Some? then [last.value] else []);
    }
  }

  lemma {:induction false} UsesOfAssistant(msgs: seq<Json>)
    ensures UsesOf(msgs) == UsesIn(AssistantBlocks(msgs))
    decreases |msgs|
  {
    if msgs == [] {
    } else {
      var n := |msgs| - 1;
      UsesOfAssistant(msgs[..n]);
      var before := AssistantBlocks(msgs[..n]);
      assert before + [] == before && UsesIn(before) + [] == UsesIn(before);
      if msgs[n].HasArray("content") {
        UsesConcat(before, msgs[n].ItemsOf("content"));
      }
    }
  }

  lemma {:induction false} LookedUpInBlocks(blocks: seq<Json>, id: string)
    ensures Lookup(ToolsOf(UsesIn(blocks)).names, id) == LastOf(blocks, NameUnder(id))
    ensures Lookup(ToolsOf(UsesIn(blocks)).commands, id) == LastOf(blocks, CommandUnder(id))
    decreases |blocks|
  {
    if blocks == [] {
    } else {
      LookedUpInBlocks(blocks[..|blocks| - 1], id);
      ToolsOneMore(blocks);
    }
  }

  lemma ToolsOneMore(blocks: seq<Json>)
    requires blocks != []
    ensures var n := |blocks| - 1;
            var before := ToolsOf(UsesIn(blocks[..n]));
            ToolsOf(UsesIn(blocks)) == if UseOf(blocks[n]).Some? then before.With(UseOf(blocks[n]).value) else before
  {
    var n := |blocks| - 1;
    var uses := UsesIn(blocks[..n]);
    if UseOf(blocks[n]).Some? {
      var all := uses + [UseOf(blocks[n]).value];
      assert all[..|all| - 1] == uses;
    } else {
      assert uses + [] == uses;
    }
  }

  /** Over a whole request: the last assistant block that uses an identifier names
      its tool, and the last that does so with a command gives its command. */
  lemma LastUseWins(msgs: seq<Json>, id: string)
    ensures var tools := ToolsOf(UsesOf(msgs));
            && IsLast(AssistantBlocks(msgs), NameUnder(id), Lookup(tools.names, id))
            && IsLast(AssistantBlocks(msgs), CommandUnder(id), Lookup(tools.commands, id))
  {
    var blocks := AssistantBlocks(msgs);
    UsesOfAssistant(msgs);
    LookedUpInBlocks(blocks, id);
    LastOfIsLast(blocks, NameUnder(id));
    LastOfIsLast(blocks, CommandUnder(id));
  }

  method AddUses(blocks: seq<Json>, tools: Tools, ghost before: seq<ToolUse>) returns (r: Tools)
    requires tools == ToolsOf(before)
    ensures r == ToolsOf(before + UsesIn(blocks))
  {
    r := tools;
    assert before + [] == before;
    for b := 0 to |blocks|
      invariant r == ToolsOf(before + UsesIn(blocks[..b]))
    {
      ghost var done := UsesIn(blocks[..b]);
      assert blocks[..b + 1][..b] == blocks[..b] && done + [] == done;
      var use := UseOf(blocks[b]);
      if use.Some? {
        ghost var all := before + (done + [use.value]);
        assert all[..|all| - 1] == before + done && all[|all| - 1] == use.value;
        r := r.With(use.value);
      }
    }
    assert blocks[..|blocks|] == blocks;
  }

  method BuildToolMap(root: Json) returns (tools: Tools)
    ensures tools == ToolsOf(if root.HasArray("messages") then UsesOf(root.ItemsOf("messages")) else [])
  {
    tools := Tools(map[], map[]);
    if !root.HasArray("messages") {
      return;
    }
    var msgs := root.ItemsOf("messages");
    for m := 0 to |msgs|
      invariant tools == ToolsOf(UsesOf(msgs[..m]))
    {
      ghost var before := UsesOf(msgs[..m]);
      assert msgs[..m + 1][..m] == msgs[..m] && before + [] == before;
      if msgs[m].TextOf("role") == Some("assistant") && msgs[m].HasArray("content") {
        tools := AddUses(msgs[m].ItemsOf("content"), tools, before);
      }
    }
    assert msgs[..|msgs|] == msgs;
  }

  // ---- The text of a result ----

  predicate IsTextPart(part: Json) {
    part.TextOf("type") == Some("text")
  }

  /** The texts of the text parts that have one. */
  function PartTexts(parts: seq<Json>): seq<string> {
    if parts == [] then []
    else
      var last := parts[|parts| - 1];
      PartTexts(parts[..|parts| - 1])
      + if IsTextPart(last) && last.TextOf("text").Some? then [last.TextOf("text").value] else []
  }

  function DropLeadingEmpty(texts: seq<string>): seq<string> {
    if texts != [] && texts[0] == "" then DropLeadingEmpty(texts[1..]) else texts
  }

  /** Texts joined by newlines, leaving out leading empty ones. */
  function JoinedTexts(texts: seq<string>): string {
    Join(DropLeadingEmpty(texts))
  }

  function ExtractedText(block: Json): string {
    match block.Get("content")
    case Some(String(s)) => s
    case Some(Array(parts)) => JoinedTexts(PartTexts(parts))
    case _ => ""
  }

  lemma {:induction false} JoinOneMore(lines: seq<string>, line: string)
    requires lines != []
    ensures Join(lines + [line]) == Join(lines) + "\n" + line
    decreases |lines|
  {
    if |lines| == 1 {
      assert (lines + [line])[1..] == [line];
    } else {
      assert (lines + [line])[1..] == lines[1..] + [line];
      JoinOneMore(lines[1..], line);
    }
  }

  lemma {:induction false} JoinedOneMore(texts: seq<string>, text: string)
    ensures JoinedTexts(texts + [text])
         == (if JoinedTexts(texts) == "" then "" else JoinedTexts(texts) + "\n") + text
    decreases |texts|
  {
    if texts == [] {
      assert texts + [text] == [text];
      if text == "" {
        assert [text][1..] == [];
      }
    } else if texts[0] == "" {
      assert (texts + [text])[1..] == texts[1..] + [text];
      JoinedOneMore(texts[1..], text);
    } else {
      JoinOneMore(texts, text);
    }
  }

  const TEXT_PART := (part: Json) => if part.TextOf("type") == Some("text") then part.TextOf("text") else None

  lemma {:induction false} PartTextsPicked(parts: seq<Json>)
    ensures PartTexts(parts) == PickedBy(parts, TEXT_PART)
    decreases |parts|
  {
    if parts == [] {
    } else {
      PartTextsPicked(parts[..|parts| - 1]);
    }
  }

  /** From `n` on the texts are not to be left out. */
  predicate FirstNonempty(texts: seq<string>, n: int) {
    0 <= n <= |texts| && (forall i :: 0 <= i < n ==> texts[i] == "") && (n < |texts| ==> texts[n] != "")
  }

  /** The texts joined, but for the empty ones they start with. */
  ghost predicate JoinsTexts(texts: seq<string>, text: string) {
    exists n :: FirstNonempty(texts, n) && text == Join(texts[n..])
  }

  lemma {:induction false} LeadingEmptyDropped(texts: seq<string>) returns (n: nat)
    ensures FirstNonempty(texts, n) && DropLeadingEmpty(texts) == texts[n..]
    decreases |texts|
  {
    if texts != [] && texts[0] == "" {
      var m := LeadingEmptyDropped(texts[1..]);
      n := m + 1;
      assert texts[1..][m..] == texts[n..];
      assert forall i :: 0 < i < |texts| ==> texts[i] == texts[1..][i - 1];
    } else {
      n := 0;
      assert texts[0..] == texts;
    }
  }

  lemma JoinedWithoutEmpties(texts: seq<string>)
    ensures JoinsTexts(texts, JoinedTexts(texts))
  {
    var n := LeadingEmptyDropped(texts);
  }

  /** The text of a result is its string, or the texts of the text parts in its
      list, joined; anything else has none. */
  lemma ExtractedTextReads(block: Json)
    ensures block.TextOf("content").Some? ==> ExtractedText(block) == block.TextOf("content").value
    ensures block.HasArray("content") ==>
              exists texts ::
                Picked(block.ItemsOf("content"), TEXT_PART, texts) && JoinsTexts(texts, ExtractedText(block))
    ensures block.TextOf("content").None? && !block.HasArray("content") ==> ExtractedText(block) == ""
  {
    if block.HasArray("content") {
      PartTextsPicked(block.ItemsOf("content"));
      PickedInOrder(block.ItemsOf("content"), TEXT_PART);
      JoinedWithoutEmpties(PartTexts(block.ItemsOf("content")));
    }
  }

  method ExtractTextContent(block: Json) returns (text: string)
    ensures text == ExtractedText(block)
  {
    match block.Get("content")
    case Some(String(s)) => text := s;
    case Some(Array(parts)) =>
      text := "";
      for i := 0 to |parts|
        invariant text == JoinedTexts(PartTexts(parts[..i]))
      {
        assert parts[..i + 1][..i] == parts[..i];
        assert PartTexts(parts[..i]) + [] == PartTexts(parts[..i]);
        if IsTextPart(parts[i]) && parts[i].TextOf("text").Some? {
          JoinedOneMore(PartTexts(parts[..i]), parts[i].TextOf("text").value);
          if text != "" {
            text := text + "\n";
          }
          text := text + parts[i].TextOf("text").value;
        }
      }
      assert parts[..|parts|] == parts;
    case _ => text := "";
  }

  // ---- Replacing it ----

  function FirstText(parts: seq<Json>): (n: nat)
    ensures n <= |parts|
    ensures n < |parts| ==> IsTextPart(parts[n])
    ensures forall i :: 0 <= i < n ==> !IsTextPart(parts[i])
  {
    if parts == [] || IsTextPart(parts[0]) then 0
    else
      assert forall i :: 0 < i < |parts| ==> parts[i] == parts[1..][i - 1];
      1 + FirstText(parts[1..])
  }

  /** The first text part takes the text and the others become empty. */
  function Retexted(parts: seq<Json>, text: string): (r: seq<Json>)
    ensures |r| == |parts|
    ensures forall i :: 0 <= i < |r| ==>
              r[i] == if !IsTextPart(parts[i]) then parts[i]
                      else parts[i].SetField("text", Some(Json.String(if i == FirstText(parts) then text else "")))
  {
    seq(|parts|, i requires 0 <= i < |parts| =>
      if !IsTextPart(parts[i]) then parts[i]
      else parts[i].SetField("text", Some(Json.String(if i == FirstText(parts) then text else ""))))
  }

  function Replaced(block: Json, text: string): Json {
    match block.Get("content")
    case Some(Array(parts)) =>
      block.SetField("content", Some(Json.Array(
        Retexted(parts, text) + if FirstText(parts) < |parts| then [] else [TextBlock(text)])))
    case _ => block.SetField("content", Some(Json.String(text)))
  }

  method ReplaceContent(block: Json, text: string) returns (r: Json)
    requires block.Object?
    ensures r == Replaced(block, text)
  {
    match block.Get("content")
    case Some(String(_)) => r := Json.Object(block.fields["content" := Json.String(text)]);
    case Some(Array(parts)) =>
      var items := parts;
      var replaced := false;
      for i := 0 to |parts|
        invariant |items| == |parts|
        invariant replaced <==> FirstText(parts) < i
        invariant forall j :: 0 <= j < i ==> items[j] == Retexted(parts, text)[j]
        invariant forall j :: i <= j < |parts| ==> items[j] == parts[j]
      {
        if IsTextPart(parts[i]) {
          if !replaced {
            items := items[i := parts[i].SetField("text", Some(Json.String(text)))];
            replaced := true;
          } else {
            items := items[i := parts[i].SetField("text", Some(Json.String("")))];
          }
        }
      }
      assert items == Retexted(parts, text) && items + [] == items;
      if !replaced {
        items := items + [TextBlock(text)];
      }
      r := Json.Object(block.fields["content" := Json.Array(items)]);
    case _ => r := Json.Object(block.fields["content" := Json.String(text)]);
  }

  /** The parts other than text parts are kept.  The first text part takes the
      text and the others become empty, with nothing else about them changed. */
  predicate TextGoesFirst(parts: seq<Json>, items: seq<Json>, text: string) {
    && |items| >= |parts|
    && forall i :: 0 <= i < |parts| ==>
         if parts[i].TextOf("type") != Some("text") then items[i] == parts[i]
         else
           && items[i].Object? && items[i].fields - {"text"} == parts[i].fields - {"text"}
           && items[i].TextOf("text") ==
              Some(if forall j :: 0 <= j < i ==> parts[j].TextOf("type") != Some("text") then text else "")
  }

  /** Replacing puts the text in place of a string, or into the list: into its
      first text part, or into a part of its own at the end if there is none.
      Nothing but the content changes. */
  lemma TextReplaced(block: Json, text: string)
    requires block.Object?
    ensures var r := Replaced(block, text);
            && r.Object? && r.fields - {"content"} == block.fields - {"content"}
            && (!block.HasArray("content") ==> r.TextOf("content") == Some(text))
            && (block.HasArray("content") ==>
                  && r.HasArray("content")
                  && var parts, items := block.ItemsOf("content"), r.ItemsOf("content");
                     && TextGoesFirst(parts, items, text)
                     && if exists i :: 0 <= i < |parts| && parts[i].TextOf("type") == Some("text") then
                          |items| == |parts|
                        else |items| == |parts| + 1 && ReadsAs(items[|parts|], text))
  {
    if block.HasArray("content") {
      var parts, items := block.ItemsOf("content"), Replaced(block, text).ItemsOf("content");
      FieldSet(block, "content", Json.Array(items));
      forall i | 0 <= i < |parts| && IsTextPart(parts[i])
        ensures items[i] == parts[i].SetField("text", Some(Json.String(if i == FirstText(parts) then text else "")))
        ensures items[i].fields - {"text"} == parts[i].fields - {"text"}
      {
        FieldSet(parts[i], "text", Json.String(if i == FirstText(parts) then text else ""));
      }
    } else {
      FieldSet(block, "content", Json.String(text));
    }
  }

  function TextParts(parts: seq<Json>): nat {
    if parts == [] then 0
    else TextParts(parts[..|parts| - 1]) + if IsTextPart(parts[|parts| - 1]) then 1 else 0
  }

  function Empties(n: nat): seq<string> {
    seq(n, _ => "")
  }

  lemma RetextedPart(parts: seq<Json>, text: string, i: nat)
    requires i < |parts|
    ensures var p := Retexted(parts, text)[i];
            && (IsTextPart(p) <==> IsTextPart(parts[i]))
            && (IsTextPart(p) ==> p.TextOf("text") == Some(if i == FirstText(parts) then text else ""))
  {
  }

  lemma PartTextsOneMore(parts: seq<Json>, n: nat)
    requires 0 < n <= |parts|
    ensures PartTexts(parts[..n]) == PartTexts(parts[..n - 1])
              + if IsTextPart(parts[n - 1]) && parts[n - 1].TextOf("text").Some?
                then [parts[n - 1].TextOf("text").value] else []
    ensures TextParts(parts[..n]) == TextParts(parts[..n - 1]) + if IsTextPart(parts[n - 1]) then 1 else 0
  {
    assert parts[..n][..n - 1] == parts[..n - 1];
  }

  /** One text, then empties: what the texts become, seen at one more part. */
  lemma EmptiesOneMore(text: string, k: nat)
    ensures ([text] + Empties(k)) + [""] == [text] + Empties(k + 1)
  {
    assert Empties(k) + [""] == Empties(k + 1);
  }

  lemma {:induction false} RetextedTexts(parts: seq<Json>, text: string, n: nat)
    requires n <= |parts|
    ensures TextParts(parts[..n]) > 0 <==> FirstText(parts) < n
    ensures PartTexts(Retexted(parts, text)[..n])
         == if FirstText(parts) < n then [text] + Empties(TextParts(parts[..n]) - 1) else []
    decreases n
  {
    if n > 0 {
      var k := TextParts(parts[..n - 1]);
      RetextedTexts(parts, text, n - 1);
      PartTextsOneMore(parts, n);
      PartTextsOneMore(Retexted(parts, text), n);
      RetextedPart(parts, text, n - 1);
      if IsTextPart(parts[n - 1]) && k > 0 {
        EmptiesOneMore(text, k - 1);
      } else if IsTextPart(parts[n - 1]) {
        assert [] + [text] == [text] + Empties(0);
      }
    }
  }

  lemma {:induction false} JoinEmpties(text: string, n: nat)
    ensures Join([text] + Empties(n)) == text + Repeat("\n", n)
    decreases n
  {
    if n == 0 {
      assert [text] + Empties(0) == [text];
    } else {
      JoinEmpties("", n - 1);
      assert ([text] + Empties(n))[1..] == [""] + Empties(n - 1);
    }
  }

  lemma JoinedEmpties(text: string, n: nat)
    requires text != ""
    ensures JoinedTexts([text] + Empties(n)) == text + Repeat("\n", n)
  {
    JoinEmpties(text, n);
    var texts := [text] + Empties(n);
    assert texts[0] == text;
    assert DropLeadingEmpty(texts) == texts;
  }

  lemma WholePrefix<T>(s: seq<T>)
    ensures s[..|s|] == s
  {
  }

  lemma WholeTexts(parts: seq<Json>, text: string)
    requires FirstText(parts) < |parts|
    ensures TextParts(parts) > 0 && PartTexts(Retexted(parts, text)) == [text] + Empties(TextParts(parts) - 1)
  {
    RetextedTexts(parts, text, |parts|);
    WholePrefix(parts);
    WholePrefix(Retexted(parts, text));
  }

  lemma PartsRead(parts: seq<Json>, text: string)
    requires PartTexts(parts) != [] && text != ""
    ensures FirstText(parts) < |parts| && TextParts(parts) > 0
    ensures JoinedTexts(PartTexts(Retexted(parts, text))) == text + Repeat("\n", TextParts(parts) - 1)
  {
    SomeTextPart(parts);
    WholeTexts(parts, text);
    JoinedEmpties(text, TextParts(parts) - 1);
  }

  /** A result whose text was not empty reads as the new text after it has been
      replaced, with one more newline for every further text part. */
  lemma ReplacedReads(block: Json, text: string)
    requires ExtractedText(block) != "" && text != ""
    ensures ExtractedText(Replaced(block, text))
         == text + match block.Get("content")
                   case Some(Array(parts)) => Repeat("\n", if TextParts(parts) > 0 then TextParts(parts) - 1 else 0)
                   case _ => ""
    ensures block.HasArray("content") ==> FirstText(block.ItemsOf("content")) < |block.ItemsOf("content")|
  {
    if block.HasArray("content") {
      var r := Retexted(block.ItemsOf("content"), text);
      PartsRead(block.ItemsOf("content"), text);
      assert r + [] == r;
      assert Replaced(block, text).Get("content") == Some(Json.Array(r));
    } else {
      assert Replaced(block, text).Get("content") == Some(Json.String(text));
      assert text + "" == text;
    }
  }

  lemma {:induction false} SomeTextPart(parts: seq<Json>)
    requires PartTexts(parts) != []
    ensures FirstText(parts) < |parts|
    decreases |parts|
  {
    var n := |parts| - 1;
    if !IsTextPart(parts[n]) {
      SomeTextPart(parts[..n]);
      var k := FirstText(parts[..n]);
      assert IsTextPart(parts[..n][k]);
    }
  }

  // ---- One result ----

  /** Settings, the pattern set and the compiled filters, and how numbers and
      hashes are written.  The pattern set is built separately from the filters
      and may match where none of them does. */
  datatype Reducer = Reducer(
    enabled: bool, bypass: seq<string>, matchSet: string -> bool, filters: seq<CompiledFilter>,
    estimate: string -> nat, percent: (string, string) -> string, hex: Digest -> string)
  {
    function Marker(raw: string, reduced: string): string {
      "\n\n[toche:reduced " + (percent(raw, reduced) + ("% restored with: toche expand " + (hex(Sha256(raw)) + "]\n")))
    }
  }

  /** Reduced results carry the original and the filtered text. */
  datatype Verdict = NotResult | Passed | Reduced(raw: string, text: string)

  function Lookup(m: map<string, string>, key: string): Option<string> {
    if key in m then Some(m[key]) else None
  }

  function OrEmpty(s: Option<string>): string {
    if s.Some? then s.value else ""
  }

  predicate FirstMatch(filters: seq<CompiledFilter>, cmd: string, i: nat) {
    && i < |filters| && filters[i].matchCommand(cmd)
    && forall j :: 0 <= j < i ==> !filters[j].matchCommand(cmd)
  }

  function FirstFilter(filters: seq<CompiledFilter>, cmd: string): (f: Option<CompiledFilter>)
    ensures f.None? ==> forall i :: 0 <= i < |filters| ==> !filters[i].matchCommand(cmd)
    ensures f.Some? ==> exists i: nat :: FirstMatch(filters, cmd, i) && filters[i] == f.value
  {
    if filters == [] then None
    else if filters[0].matchCommand(cmd) then
      assert FirstMatch(filters, cmd, 0);
      Some(filters[0])
    else
      var f := FirstFilter(filters[1..], cmd);
      assert f.Some? ==> exists i: nat :: FirstMatch(filters, cmd, i) && filters[i] == f.value by {
        if f.Some? {
          var i: nat :| FirstMatch(filters[1..], cmd, i) && filters[1..][i] == f.value;
          assert forall j :: 0 < j <= i ==> filters[j] == filters[1..][j - 1];
          assert FirstMatch(filters, cmd, i + 1);
        }
      }
      f
  }

  function Judge(c: Reducer, tools: Tools, block: Json): Verdict {
    if block.TextOf("type") != Some("tool_result") then NotResult
    else
      var id := OrEmpty(block.TextOf("tool_use_id"));
      var literal := OrEmpty(Lookup(tools.names, id));
      var command := Lookup(tools.commands, id);
      var raw := ExtractedText(block);
      var cmd := if command.Some? then command.value else literal;
      if literal != "" && literal in c.bypass then Passed
      else if raw == "" then Passed
      else if cmd != "" && c.matchSet(cmd) && FirstFilter(c.filters, cmd).Some? then
        Reduced(raw, Outcome(FirstFilter(c.filters, cmd).value, raw).0)
      else Passed
  }

  /** A result with text, of a tool that is not to be bypassed, whose command (or
      else name) the pattern set and one of the filters match, is reduced to the
      output of the first filter that does. */
  ghost predicate JudgedBy(c: Reducer, block: Json, name: Option<string>, command: Option<string>, v: Verdict) {
    var cmd := if command.Some? then command.value else if name.Some? then name.value else "";
    && (v.NotResult? <==> block.TextOf("type") != Some("tool_result"))
    && (v.Reduced? <==>
          && block.TextOf("type") == Some("tool_result")
          && (name.None? || name.value == "" || name.value !in c.bypass) && ExtractedText(block) != ""
          && cmd != "" && c.matchSet(cmd) && exists i: nat :: FirstMatch(c.filters, cmd, i))
    && (v.Reduced? ==>
          && v.raw == ExtractedText(block)
          && forall i: nat :: FirstMatch(c.filters, cmd, i) ==> v.text == Outcome(c.filters[i], v.raw).0)
  }

  lemma JudgedByTools(c: Reducer, tools: Tools, block: Json, id: string)
    requires block.TextOf("tool_use_id") == Some(id) || (block.TextOf("tool_use_id").None? && id == "")
    ensures JudgedBy(c, block, Lookup(tools.names, id), Lookup(tools.commands, id), Judge(c, tools, block))
  {
    var literal, command := OrEmpty(Lookup(tools.names, id)), Lookup(tools.commands, id);
    FirstFilterFound(c.filters, if command.Some? then command.value else literal);
  }

  /** Which results of a request are reduced: the tool is named by the last
      assistant block that uses the identifier, the command comes from the last
      that does so with one. */
  lemma ReducedIff(c: Reducer, msgs: seq<Json>, block: Json, id: string, name: Option<string>, command: Option<string>)
    requires block.TextOf("tool_use_id") == Some(id) || (block.TextOf("tool_use_id").None? && id == "")
    requires IsLast(AssistantBlocks(msgs), NameUnder(id), name)
    requires IsLast(AssistantBlocks(msgs), CommandUnder(id), command)
    ensures JudgedBy(c, block, name, command, Judge(c, ToolsOf(UsesOf(msgs)), block))
  {
    var tools := ToolsOf(UsesOf(msgs));
    LastUseWins(msgs, id);
    LastIsOne(AssistantBlocks(msgs), NameUnder(id), name, Lookup(tools.names, id));
    LastIsOne(AssistantBlocks(msgs), CommandUnder(id), command, Lookup(tools.commands, id));
    JudgedByTools(c, tools, block, id);
  }

  lemma FirstFilterFound(filters: seq<CompiledFilter>, cmd: string)
    ensures FirstFilter(filters, cmd).Some? <==> exists i: nat :: FirstMatch(filters, cmd, i)
    ensures forall i: nat :: FirstMatch(filters, cmd, i) ==> FirstFilter(filters, cmd) == Some(filters[i])
  {
  }

  function NewText(c: Reducer, v: Verdict): (text: string)
    requires v.Reduced?
    ensures text != ""
  {
    v.text + c.Marker(v.raw, v.text)
  }

  function ReducedBlock(c: Reducer, tools: Tools, block: Json): Json {
    var v := Judge(c, tools, block);
    if v.Reduced? then Replaced(block, NewText(c, v)) else block
  }

  // ---- Tallies ----

  datatype Tally = Tally(
    reductions: nat, passthroughs: nat, hashes: seq<Digest>, tokensRaw: nat, tokensReduced: nat)
  {
    function With(c: Reducer, v: Verdict): Tally {
      match v
      case NotResult => this
      case Passed => this.(passthroughs := passthroughs + 1)
      case Reduced(raw, text) =>
        Tally(reductions + 1, passthroughs, hashes + [Sha256(raw)],
              tokensRaw + c.estimate(raw), tokensReduced + c.estimate(text))
    }
  }

  const NOTHING := Tally(0, 0, [], 0, 0)

  function Tallied(c: Reducer, t: Tally, vs: seq<Verdict>): Tally {
    if vs == [] then t else Tallied(c, t, vs[..|vs| - 1]).With(c, vs[|vs| - 1])
  }

  function StoredFor(blobs: Blobs, v: Verdict): Blobs {
    if v.Reduced? then Stored(blobs, v.raw) else blobs
  }

  function StoredAll(blobs: Blobs, vs: seq<Verdict>): Blobs {
    if vs == [] then blobs else StoredFor(StoredAll(blobs, vs[..|vs| - 1]), vs[|vs| - 1])
  }

  // ---- The walk ----

  function Judged(c: Reducer, tools: Tools, blocks: seq<Json>): (vs: seq<Verdict>)
    ensures |vs| == |blocks|
    ensures forall i :: 0 <= i < |vs| ==> vs[i] == Judge(c, tools, blocks[i])
  {
    seq(|blocks|, i requires 0 <= i < |blocks| => Judge(c, tools, blocks[i]))
  }

  function JudgedAll(c: Reducer, tools: Tools, msgs: seq<Json>): seq<Verdict> {
    if msgs == [] then []
    else
      var last := msgs[|msgs| - 1];
      JudgedAll(c, tools, msgs[..|msgs| - 1])
      + if last.HasArray("content") then Judged(c, tools, last.ItemsOf("content")) else []
  }

  function ReducedBlocks(c: Reducer, tools: Tools, blocks: seq<Json>): (r: seq<Json>)
    ensures |r| == |blocks|
    ensures forall i :: 0 <= i < |r| ==> r[i] == ReducedBlock(c, tools, blocks[i])
  {
    seq(|blocks|, i requires 0 <= i < |blocks| => ReducedBlock(c, tools, blocks[i]))
  }

  function ReducedMessage(c: Reducer, tools: Tools, msg: Json): Json {
    if msg.HasArray("content") then msg.WithItems("content", ReducedBlocks(c, tools, msg.ItemsOf("content"))) else msg
  }

  function ReducedMessages(c: Reducer, tools: Tools, msgs: seq<Json>): (r: seq<Json>)
    ensures |r| == |msgs|
    ensures forall i :: 0 <= i < |r| ==> r[i] == ReducedMessage(c, tools, msgs[i])
  {
    seq(|msgs|, i requires 0 <= i < |msgs| => ReducedMessage(c, tools, msgs[i]))
  }

  lemma {:induction false} TalliedConcat(c: Reducer, t: Tally, a: seq<Verdict>, b: seq<Verdict>)
    ensures Tallied(c, t, a + b) == Tallied(c, Tallied(c, t, a), b)
    decreases |b|
  {
    if b == [] {
      assert a + b == a;
    } else {
      assert (a + b)[..|a + b| - 1] == a + b[..|b| - 1];
      TalliedConcat(c, t, a, b[..|b| - 1]);
    }
  }

  lemma {:induction false} StoredConcat(blobs: Blobs, a: seq<Verdict>, b: seq<Verdict>)
    ensures StoredAll(blobs, a + b) == StoredAll(StoredAll(blobs, a), b)
    decreases |b|
  {
    if b == [] {
      assert a + b == a;
    } else {
      assert (a + b)[..|a + b| - 1] == a + b[..|b| - 1];
      StoredConcat(blobs, a, b[..|b| - 1]);
    }
  }

  method ReduceBlock(c: Reducer, tools: Tools, block: Json, cas: CasStore, t: Tally)
    returns (r: Json, tally: Tally)
    modifies cas
    ensures r == ReducedBlock(c, tools, block)
    ensures tally == t.With(c, Judge(c, tools, block))
    ensures cas.blobs == StoredFor(old(cas.blobs), Judge(c, tools, block))
  {
    r, tally := block, t;
    if block.TextOf("type") != Some("tool_result") {
      return;
    }
    var id := OrEmpty(block.TextOf("tool_use_id"));
    var literal := OrEmpty(Lookup(tools.names, id));
    var command := Lookup(tools.commands, id);
    if literal != "" && literal in c.bypass {
      tally := t.(passthroughs := t.passthroughs + 1);
      return;
    }
    var raw := ExtractTextContent(block);
    if raw == "" {
      tally := t.(passthroughs := t.passthroughs + 1);
      return;
    }
    var cmd := if command.Some? then command.value else literal;
    if cmd != "" && c.matchSet(cmd) {
      var filter := FirstFilter(c.filters, cmd);
      if filter.Some? {
        var text, _ := ApplyFilterWithInfo(filter.value, raw);
        var hash := cas.Store(raw);
        r := ReplaceContent(block, text + c.Marker(raw, text));
        tally := Tally(t.reductions + 1, t.passthroughs, t.hashes + [hash],
                       t.tokensRaw + c.estimate(raw), t.tokensReduced + c.estimate(text));
      } else {
        tally := t.(passthroughs := t.passthroughs + 1);
      }
    } else {
      tally := t.(passthroughs := t.passthroughs + 1);
    }
  }

  method ReduceBlocks(c: Reducer, tools: Tools, blocks: seq<Json>, cas: CasStore, t: Tally)
    returns (r: seq<Json>, tally: Tally)
    modifies cas
    ensures r == ReducedBlocks(c, tools, blocks)
    ensures tally == Tallied(c, t, Judged(c, tools, blocks))
    ensures cas.blobs == StoredAll(old(cas.blobs), Judged(c, tools, blocks))
  {
    r, tally := blocks, t;
    ghost var vs := Judged(c, tools, blocks);
    for b := 0 to |blocks|
      invariant |r| == |blocks|
      invariant forall i :: 0 <= i < b ==> r[i] == ReducedBlock(c, tools, blocks[i])
      invariant forall i :: b <= i < |blocks| ==> r[i] == blocks[i]
      invariant tally == Tallied(c, t, vs[..b])
      invariant cas.blobs == StoredAll(old(cas.blobs), vs[..b])
    {
      var reduced;
      reduced, tally := ReduceBlock(c, tools, blocks[b], cas, tally);
      r := r[b := reduced];
      assert vs[..b + 1][..b] == vs[..b];
    }
    assert vs[..|vs|] == vs;
  }

  method ReduceMessages(c: Reducer, tools: Tools, before: seq<Json>, cas: CasStore)
    returns (msgs: seq<Json>, tally: Tally)
    modifies cas
    ensures msgs == ReducedMessages(c, tools, before)
    ensures tally == Tallied(c, NOTHING, JudgedAll(c, tools, before))
    ensures cas.blobs == StoredAll(old(cas.blobs), JudgedAll(c, tools, before))
  {
    msgs, tally := before, NOTHING;
    for m := 0 to |before|
      invariant |msgs| == |before|
      invariant forall i :: 0 <= i < m ==> msgs[i] == ReducedMessage(c, tools, before[i])
      invariant forall i :: m <= i < |before| ==> msgs[i] == before[i]
      invariant tally == Tallied(c, NOTHING, JudgedAll(c, tools, before[..m]))
      invariant cas.blobs == StoredAll(old(cas.blobs), JudgedAll(c, tools, before[..m]))
    {
      assert before[..m + 1][..m] == before[..m];
      ghost var done := JudgedAll(c, tools, before[..m]);
      assert done + [] == done;
      if before[m].HasArray("content") {
        var content := before[m].ItemsOf("content");
        TalliedConcat(c, NOTHING, done, Judged(c, tools, content));
        StoredConcat(old(cas.blobs), done, Judged(c, tools, content));
        var blocks;
        blocks, tally := ReduceBlocks(c, tools, content, cas, tally);
        msgs := msgs[m := before[m].WithItems("content", blocks)];
      }
    }
    assert before[..|before|] == before && msgs == ReducedMessages(c, tools, before);
  }

  datatype ReductionResult = ReductionResult(body: Body, tally: Tally)

  method ReduceBody(body: Body, c: Reducer, bypassHeader: bool, cas: CasStore) returns (result: ReductionResult)
    modifies cas
    ensures !c.enabled || bypassHeader || body.Malformed? || !body.root.HasArray("messages") ==>
              result == ReductionResult(body, NOTHING) && cas.blobs == old(cas.blobs)
    ensures c.enabled && !bypassHeader && body.Document? && body.root.HasArray("messages") ==>
              var msgs := body.root.ItemsOf("messages");
              var tools := ToolsOf(UsesOf(msgs));
              && result.body == Document(body.root.WithItems("messages", ReducedMessages(c, tools, msgs)))
              && result.tally == Tallied(c, NOTHING, JudgedAll(c, tools, msgs))
              && cas.blobs == StoredAll(old(cas.blobs), JudgedAll(c, tools, msgs))
  {
    result := ReductionResult(body, NOTHING);
    if !c.enabled || bypassHeader || body.Malformed? {
      return;
    }
    var root := body.root;
    var tools := BuildToolMap(root);
    if !root.HasArray("messages") {
      return;
    }
    var msgs, tally := ReduceMessages(c, tools, root.ItemsOf("messages"), cas);
    result := ReductionResult(Document(root.WithItems("messages", msgs)), tally);
  }

  // ---- Only the content of tool results changes ----

  /** The parts are the same but for the text of text parts. */
  ghost predicate SameButTexts(a: seq<Json>, b: seq<Json>) {
    |a| == |b| && forall i :: 0 <= i < |a| ==>
                    b[i] == a[i] || (IsTextPart(a[i]) && OnlyFieldDiffers(a[i], b[i], "text") && IsTextPart(b[i]))
  }

  ghost predicate OnlyFieldDiffers(a: Json, b: Json, key: string) {
    a.Object? && b.Object? && b.fields - {key} == a.fields - {key}
  }

  /** A block stays as it is, or is a tool result whose content alone differs:
      a string in place of a string, or as many parts as before that are the
      same but for the text of text parts. */
  ghost predicate BlockReduced(a: Json, b: Json) {
    b == a
    || (&& a.TextOf("type") == Some("tool_result") && b.TextOf("type") == Some("tool_result")
        && OnlyFieldDiffers(a, b, "content")
        && (if a.HasArray("content")
            then b.HasArray("content") && SameButTexts(a.ItemsOf("content"), b.ItemsOf("content"))
            else a.TextOf("content").Some? && b.TextOf("content").Some?))
  }

  ghost predicate MessageReduced(a: Json, b: Json) {
    b == a
    || (&& a.HasArray("content") && b.HasArray("content") && OnlyFieldDiffers(a, b, "content")
        && |a.ItemsOf("content")| == |b.ItemsOf("content")|
        && forall i :: 0 <= i < |a.ItemsOf("content")| ==>
             BlockReduced(a.ItemsOf("content")[i], b.ItemsOf("content")[i]))
  }

  lemma FieldSet(v: Json, key: string, x: Json)
    requires v.Object?
    ensures OnlyFieldDiffers(v, v.SetField(key, Some(x)), key)
    ensures forall k :: k != key ==> v.SetField(key, Some(x)).Get(k) == v.Get(k)
  {
    assert v.fields[key := x] - {key} == v.fields - {key};
  }

  lemma PartsChange(parts: seq<Json>, text: string)
    ensures SameButTexts(parts, Retexted(parts, text))
  {
    forall i | 0 <= i < |parts| && IsTextPart(parts[i])
      ensures OnlyFieldDiffers(parts[i], Retexted(parts, text)[i], "text") && IsTextPart(Retexted(parts, text)[i])
    {
      FieldSet(parts[i], "text", Json.String(if i == FirstText(parts) then text else ""));
    }
  }

  lemma ListChange(block: Json, text: string)
    requires block.TextOf("type") == Some("tool_result") && block.HasArray("content")
    requires ExtractedText(block) != "" && text != ""
    ensures BlockReduced(block, Replaced(block, text))
  {
    var parts := block.ItemsOf("content");
    ReplacedReads(block, text);
    PartsChange(parts, text);
    assert Retexted(parts, text) + [] == Retexted(parts, text);
    FieldSet(block, "content", Json.Array(Retexted(parts, text)));
  }

  lemma TextChange(block: Json, text: string)
    requires block.TextOf("type") == Some("tool_result") && !block.HasArray("content")
    requires ExtractedText(block) != ""
    ensures BlockReduced(block, Replaced(block, text))
  {
    FieldSet(block, "content", Json.String(text));
  }

  lemma BlockChange(c: Reducer, tools: Tools, block: Json)
    ensures BlockReduced(block, ReducedBlock(c, tools, block))
  {
    var v := Judge(c, tools, block);
    if v.Reduced? {
      if block.HasArray("content") {
        ListChange(block, NewText(c, v));
      } else {
        TextChange(block, NewText(c, v));
      }
    }
  }

  lemma OnlyResultsChange(c: Reducer, tools: Tools, msgs: seq<Json>, m: nat)
    requires m < |msgs|
    ensures MessageReduced(msgs[m], ReducedMessages(c, tools, msgs)[m])
  {
    var msg := msgs[m];
    if msg.HasArray("content") {
      var r := ReducedMessage(c, tools, msg);
      assert r.fields - {"content"} == msg.fields - {"content"};
      forall i | 0 <= i < |msg.ItemsOf("content")| {
        BlockChange(c, tools, msg.ItemsOf("content")[i]);
      }
    }
  }

  /** So reduction does not move the prompt-cache breakpoints. */
  lemma ReductionKeepsPlan(c: Reducer, tools: Tools, root: Json, policy: CacheBreakpoint, plan: BreakpointPlan)
    requires root.HasArray("messages")
    ensures IsPlan(root.WithItems("messages", ReducedMessages(c, tools, root.ItemsOf("messages"))), policy, plan)
            <==> IsPlan(root, policy, plan)
  {
    var msgs := root.ItemsOf("messages");
    var r := root.WithItems("messages", ReducedMessages(c, tools, msgs));
    assert r.HasArray("system") <==> root.HasArray("system");
    assert r.ItemsOf("messages") == ReducedMessages(c, tools, msgs);
    forall m | 0 <= m < |msgs|
      ensures SameMessageShape(msgs[m], r.ItemsOf("messages")[m])
    {
      OnlyResultsChange(c, tools, msgs, m);
      SameMessage(msgs[m], r.ItemsOf("messages")[m]);
    }
    SameShapeSamePlan(root, r, policy, plan);
  }

  lemma SameMessage(a: Json, b: Json)
    requires MessageReduced(a, b)
    ensures SameMessageShape(a, b)
  {
    if a != b {
      assert (a.fields - {"content"}).Keys == (b.fields - {"content"}).Keys;
      assert a.Get("role") == b.Get("role") by {
        assert "role" in a.fields <==> "role" in a.fields - {"content"};
        assert "role" in b.fields <==> "role" in b.fields - {"content"};
        if "role" in a.fields {
          assert (a.fields - {"content"})["role"] == (b.fields - {"content"})["role"];
        }
      }
    }
  }

  // ---- Every result is accounted for ----

  function ResultBlocks(blocks: seq<Json>): nat {
    if blocks == [] then 0
    else ResultBlocks(blocks[..|blocks| - 1])
         + if blocks[|blocks| - 1].TextOf("type") == Some("tool_result") then 1 else 0
  }

  function ResultsIn(msgs: seq<Json>): nat {
    if msgs == [] then 0
    else
      var last := msgs[|msgs| - 1];
      ResultsIn(msgs[..|msgs| - 1]) + if last.HasArray("content") then ResultBlocks(last.ItemsOf("content")) else 0
  }

  lemma {:induction false} BlocksCounted(c: Reducer, tools: Tools, blocks: seq<Json>, t: Tally)
    ensures var r := Tallied(c, t, Judged(c, tools, blocks));
            r.reductions + r.passthroughs == t.reductions + t.passthroughs + ResultBlocks(blocks)
    decreases |blocks|
  {
    if blocks == [] {
    } else {
      BlocksCounted(c, tools, blocks[..|blocks| - 1], t);
      var vs := Judged(c, tools, blocks);
      assert vs[..|vs| - 1] == Judged(c, tools, blocks[..|blocks| - 1]);
    }
  }

  /** Reductions and pass-throughs add up to the tool results in messages whose
      content is a list, and there is one hash a reduction. */
  lemma {:induction false} EveryResultCounted(c: Reducer, tools: Tools, msgs: seq<Json>)
    ensures var t := Tallied(c, NOTHING, JudgedAll(c, tools, msgs));
            t.reductions + t.passthroughs == ResultsIn(msgs) && |t.hashes| == t.reductions
    decreases |msgs|
  {
    var vs := JudgedAll(c, tools, msgs);
    OneHashEach(c, NOTHING, vs);
    if msgs == [] {
    } else {
      var last := msgs[|msgs| - 1];
      var before := JudgedAll(c, tools, msgs[..|msgs| - 1]);
      EveryResultCounted(c, tools, msgs[..|msgs| - 1]);
      assert before + [] == before;
      if last.HasArray("content") {
        TalliedConcat(c, NOTHING, before, Judged(c, tools, last.ItemsOf("content")));
        BlocksCounted(c, tools, last.ItemsOf("content"), Tallied(c, NOTHING, before));
      }
    }
  }

  lemma {:induction false} OneHashEach(c: Reducer, t: Tally, vs: seq<Verdict>)
    ensures var r := Tallied(c, t, vs);
            r.reductions >= t.reductions && |r.hashes| - |t.hashes| == r.reductions - t.reductions
    decreases |vs|
  {
    if vs == [] {
    } else {
      OneHashEach(c, t, vs[..|vs| - 1]);
    }
  }

  const RAW_OF := (v: Verdict) => if v.Reduced? then Some(v.raw) else None

  const TEXT_OF := (v: Verdict) => if v.Reduced? then Some(v.text) else None

  function Total(estimate: string -> nat, texts: seq<string>): nat {
    if texts == [] then 0 else Total(estimate, texts[..|texts| - 1]) + estimate(texts[|texts| - 1])
  }

  predicate AreHashesOf(hashes: seq<Digest>, raws: seq<string>) {
    |hashes| == |raws| && forall i :: 0 <= i < |raws| ==> hashes[i] == Sha256(raws[i])
  }

  /** What a tally says about the originals and what they became. */
  predicate Accounts(c: Reducer, raws: seq<string>, texts: seq<string>, t: Tally) {
    && AreHashesOf(t.hashes, raws)
    && t.tokensRaw == Total(c.estimate, raws) && t.tokensReduced == Total(c.estimate, texts)
  }

  lemma TotalOneMore(estimate: string -> nat, texts: seq<string>, text: string)
    ensures Total(estimate, texts + [text]) == Total(estimate, texts) + estimate(text)
  {
    assert (texts + [text])[..|texts|] == texts;
  }

  lemma AccountsOneMore(c: Reducer, v: Verdict, raws: seq<string>, texts: seq<string>, t: Tally)
    requires Accounts(c, raws, texts, t)
    ensures v.Reduced? ==> Accounts(c, raws + [v.raw], texts + [v.text], t.With(c, v))
    ensures !v.Reduced? ==> Accounts(c, raws, texts, t.With(c, v))
  {
    if v.Reduced? {
      TotalOneMore(c.estimate, raws, v.raw);
      TotalOneMore(c.estimate, texts, v.text);
    }
  }

  /** Along a whole walk the hashes are those of the originals, in order, and the
      token counts are the sums over the originals and over the reduced texts. */
  lemma {:induction false} TokensCounted(c: Reducer, vs: seq<Verdict>)
    ensures Accounts(c, PickedBy(vs, RAW_OF), PickedBy(vs, TEXT_OF), Tallied(c, NOTHING, vs))
    decreases |vs|
  {
    if vs == [] {
    } else {
      var init, v := vs[..|vs| - 1], vs[|vs| - 1];
      TokensCounted(c, init);
      AccountsOneMore(c, v, PickedBy(init, RAW_OF), PickedBy(init, TEXT_OF), Tallied(c, NOTHING, init));
      NothingMore(PickedBy(init, RAW_OF));
      NothingMore(PickedBy(init, TEXT_OF));
    }
  }

  lemma NothingMore<T>(s: seq<T>)
    ensures s + [] == s
  {
  }

  // ---- What was replaced can be read back ----

  /** The hashes reported are those of the originals, each original is stored
      under its hash, and nothing else in the store changes. */
  lemma {:induction false} OriginalsStored(c: Reducer, blobs: Blobs, vs: seq<Verdict>)
    ensures forall h :: h in Tallied(c, NOTHING, vs).hashes <==> exists v :: v in vs && v.Reduced? && h == Sha256(v.raw)
    ensures forall h :: h in Tallied(c, NOTHING, vs).hashes ==>
              h in StoredAll(blobs, vs) && StoredAll(blobs, vs)[h] == h.preimage
    ensures forall h :: h !in Tallied(c, NOTHING, vs).hashes ==>
              (h in StoredAll(blobs, vs) <==> h in blobs)
              && (h in blobs ==> StoredAll(blobs, vs)[h] == blobs[h])
    decreases |vs|
  {
    if vs == [] {
    } else {
      var init, last := vs[..|vs| - 1], vs[|vs| - 1];
      OriginalsStored(c, blobs, init);
      assert vs == init + [last];
      assert forall v :: v in vs <==> v in init || v == last;
    }
  }

  lemma {:induction false} JudgedIn(c: Reducer, tools: Tools, msgs: seq<Json>, m: nat, b: nat)
    requires m < |msgs| && msgs[m].HasArray("content") && b < |msgs[m].ItemsOf("content")|
    ensures Judge(c, tools, msgs[m].ItemsOf("content")[b]) in JudgedAll(c, tools, msgs)
    decreases |msgs|
  {
    var blocks := msgs[m].ItemsOf("content");
    if m < |msgs| - 1 {
      JudgedIn(c, tools, msgs[..|msgs| - 1], m, b);
    } else {
      assert Judged(c, tools, blocks)[b] in Judged(c, tools, blocks);
    }
  }

  /** The text of `after` is the reduced text, a note of how much was saved and of
      the hash of the text of `before`, and newlines; and the store has that text
      under that hash. */
  ghost predicate Restorable(c: Reducer, before: Json, after: Json, reduced: string,
                             hashes: seq<Digest>, blobs: Blobs) {
    var raw := ExtractedText(before);
    && Sha256(raw) in hashes && Sha256(raw) in blobs && blobs[Sha256(raw)] == raw
    && exists n: nat ::
         ExtractedText(after) ==
         reduced + ("\n\n[toche:reduced "
                    + (c.percent(raw, reduced) + ("% restored with: toche expand " + (c.hex(Sha256(raw)) + "]\n"))))
         + Repeat("\n", n)
  }

  lemma BlockReads(c: Reducer, tools: Tools, block: Json)
    requires Judge(c, tools, block).Reduced?
    ensures var v := Judge(c, tools, block);
            && v.raw == ExtractedText(block)
            && exists n: nat :: ExtractedText(ReducedBlock(c, tools, block)) == NewText(c, v) + Repeat("\n", n)
  {
    var v := Judge(c, tools, block);
    var text := NewText(c, v);
    ReplacedReads(block, text);
    assert text + "" == text + Repeat("\n", 0);
  }

  /** Every block that reduction changes can be restored from its marker: it names
      the hash under which its original is stored. */
  lemma ChangedBlocksRestorable(c: Reducer, tools: Tools, msgs: seq<Json>, blobs: Blobs, m: nat, b: nat)
    requires m < |msgs| && msgs[m].HasArray("content") && b < |msgs[m].ItemsOf("content")|
    ensures var before := msgs[m].ItemsOf("content")[b];
            var after := ReducedMessages(c, tools, msgs)[m].ItemsOf("content")[b];
            var vs := JudgedAll(c, tools, msgs);
            var v := Judge(c, tools, before);
            if v.Reduced? then
              Restorable(c, before, after, v.text, Tallied(c, NOTHING, vs).hashes, StoredAll(blobs, vs))
            else after == before
  {
    var before := msgs[m].ItemsOf("content")[b];
    var v := Judge(c, tools, before);
    if v.Reduced? {
      var vs := JudgedAll(c, tools, msgs);
      JudgedIn(c, tools, msgs, m, b);
      OriginalsStored(c, blobs, vs);
      BlockReads(c, tools, before);
      assert Sha256(v.raw) in Tallied(c, NOTHING, vs).hashes;
    }
  }
}
