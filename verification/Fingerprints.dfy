/** Identity of a request body (src/shield/fingerprint.rs): the `stream` flag
    and the `cache_control` marks on content blocks are removed before hashing.
    The main results say which bodies share an identity: exactly those that
    can be turned into one another by editing these fields. */
module Fingerprints {
  import opened Wrappers
  import opened JsonTree

  const CACHE_CONTROL := "cache_control"

  // ---- The normal form, as a specification ----

  function StripCacheControl(block: Json): Json {
    block.SetField(CACHE_CONTROL, None)
  }

  function StripAll(blocks: seq<Json>): (r: seq<Json>)
    ensures |r| == |blocks|
    ensures forall i :: 0 <= i < |r| ==> r[i] == StripCacheControl(blocks[i])
  {
    seq(|blocks|, i requires 0 <= i < |blocks| => StripCacheControl(blocks[i]))
  }

  function StripBlocksUnder(v: Json, key: string): Json {
    if v.HasArray(key) then v.WithItems(key, StripAll(v.ItemsOf(key))) else v
  }

  function StripMessages(messages: seq<Json>): (r: seq<Json>)
    ensures |r| == |messages|
    ensures forall i :: 0 <= i < |r| ==> r[i] == StripBlocksUnder(messages[i], "content")
  {
    seq(|messages|, i requires 0 <= i < |messages| => StripBlocksUnder(messages[i], "content"))
  }

  function StripMessagesUnder(v: Json): Json {
    if v.HasArray("messages") then v.WithItems("messages", StripMessages(v.ItemsOf("messages"))) else v
  }

  function Normalized(root: Json): Json {
    StripMessagesUnder(StripBlocksUnder(root.SetField("stream", None), "system"))
  }

  /** SHA-256 as an ideal hash.  The fallback hashes the raw text, which is no
      document's canonical text because it does not parse. */
  datatype Fingerprint = OfDocument(normal: Json) | OfRawText(raw: string)

  function FingerprintOf(body: Body): Fingerprint {
    match body
    case Document(root) => OfDocument(Normalized(root))
    case Malformed(raw) => OfRawText(raw)
  }

  // ---- The program's loops ----

  method StripBlocks(blocks: seq<Json>) returns (r: seq<Json>)
    ensures r == StripAll(blocks)
  {
    r := blocks;
    for i := 0 to |blocks|
      invariant |r| == |blocks|
      invariant forall j :: 0 <= j < i ==> r[j] == StripCacheControl(blocks[j])
      invariant forall j :: i <= j < |r| ==> r[j] == blocks[j]
    {
      r := r[i := r[i].SetField(CACHE_CONTROL, None)];
    }
  }

  method Normalize(root: Json) returns (r: Json)
    ensures r == Normalized(root)
  {
    r := root;
    if r.Object? {
      r := Json.Object(r.fields - {"stream"});
    }
    if r.HasArray("system") {
      var blocks := StripBlocks(r.ItemsOf("system"));
      r := r.WithItems("system", blocks);
    }
    if r.HasArray("messages") {
      var messages := r.ItemsOf("messages");
      ghost var before := messages;
      for i := 0 to |messages|
        invariant |messages| == |before|
        invariant forall j :: 0 <= j < i ==> messages[j] == StripBlocksUnder(before[j], "content")
        invariant forall j :: i <= j < |messages| ==> messages[j] == before[j]
      {
        if messages[i].HasArray("content") {
          var blocks := StripBlocks(messages[i].ItemsOf("content"));
          messages := messages[i := messages[i].WithItems("content", blocks)];
        }
      }
      assert messages == StripMessages(before);
      r := r.WithItems("messages", messages);
    }
  }

  method Compute(body: Body) returns (f: Fingerprint)
    ensures f == FingerprintOf(body)
  {
    match body
    case Malformed(raw) => f := OfRawText(raw);
    case Document(root) =>
      var normal := Normalize(root);
      f := OfDocument(normal);
  }

  // ---- Edits that must not matter ----

  /** Setting or removing the `stream` flag, or the cache mark of one content
      block of the system prompt or of a message. */
  datatype Edit =
    | SetStream(v: Option<Json>)
    | MarkSystem(block: nat, v: Option<Json>)
    | MarkMessage(message: nat, block: nat, v: Option<Json>)

  function MarkItem(v: Json, key: string, i: nat, mark: Option<Json>): Json {
    if v.HasArray(key) && i < |v.ItemsOf(key)| then
      v.WithItems(key, v.ItemsOf(key)[i := v.ItemsOf(key)[i].SetField(CACHE_CONTROL, mark)])
    else v
  }

  function MarkInMessage(root: Json, m: nat, b: nat, mark: Option<Json>): Json {
    if root.HasArray("messages") && m < |root.ItemsOf("messages")| then
      var msgs := root.ItemsOf("messages");
      root.WithItems("messages", msgs[m := MarkItem(msgs[m], "content", b, mark)])
    else root
  }

  function Apply(root: Json, e: Edit): Json {
    match e
    case SetStream(v) => root.SetField("stream", v)
    case MarkSystem(b, v) => MarkItem(root, "system", b, v)
    case MarkMessage(m, b, v) => MarkInMessage(root, m, b, v)
  }

  function ApplyAll(root: Json, es: seq<Edit>): Json
    decreases |es|
  {
    if es == [] then root else ApplyAll(Apply(root, es[0]), es[1..])
  }

  lemma {:induction false} ApplyAllConcat(root: Json, a: seq<Edit>, b: seq<Edit>)
    ensures ApplyAll(root, a + b) == ApplyAll(ApplyAll(root, a), b)
    decreases |a|
  {
    if a == [] {
      assert a + b == b;
    } else {
      assert (a + b)[1..] == a[1..] + b;
      ApplyAllConcat(Apply(root, a[0]), a[1..], b);
    }
  }

  // ---- Soundness: an edit never changes the normal form ----

  lemma StripForgetsMark(block: Json, mark: Option<Json>)
    ensures StripCacheControl(block.SetField(CACHE_CONTROL, mark)) == StripCacheControl(block)
  {
    if block.Object? {
      assert block.SetField(CACHE_CONTROL, mark).fields - {CACHE_CONTROL} == block.fields - {CACHE_CONTROL};
    }
  }

  lemma StripUnderForgetsMark(v: Json, key: string, i: nat, mark: Option<Json>)
    ensures StripBlocksUnder(MarkItem(v, key, i, mark), key) == StripBlocksUnder(v, key)
  {
    if v.HasArray(key) && i < |v.ItemsOf(key)| {
      var a := v.ItemsOf(key);
      StripForgetsMark(a[i], mark);
      assert StripAll(a[i := a[i].SetField(CACHE_CONTROL, mark)]) == StripAll(a);
      WithItemsTwice(v, key, a[i := a[i].SetField(CACHE_CONTROL, mark)], StripAll(a));
    }
  }

  /** What the normal form keeps of the field `key`. */
  function NormalField(key: string, v: Json): Json {
    if key == "system" && v.Array? then Json.Array(StripAll(v.items))
    else if key == "messages" && v.Array? then Json.Array(StripMessages(v.items))
    else v
  }

  function NormalFields(fields: map<string, Json>): map<string, Json> {
    map k | k in fields && k != "stream" :: NormalField(k, fields[k])
  }

  /** The normal form works field by field. */
  lemma NormalizedFieldwise(root: Json)
    ensures root.Object? ==> Normalized(root) == Json.Object(NormalFields(root.fields))
    ensures !root.Object? ==> Normalized(root) == root
  {
    if root.Object? {
      var a := root.SetField("stream", None);
      var b := StripBlocksUnder(a, "system");
      var c := StripMessagesUnder(b);
      assert b.HasArray("messages") <==> root.HasArray("messages");
      assert c.fields == NormalFields(root.fields);
    }
  }

  // ---- What the normal form leaves out ----

  /** The block has no cache mark and is the same otherwise. */
  ghost predicate WithoutMark(a: Json, b: Json) {
    if a.Object? then
      b.Object? && b.Get("cache_control") == None && forall k :: k != "cache_control" ==> b.Get(k) == a.Get(k)
    else b == a
  }

  ghost predicate WithoutMarks(a: seq<Json>, b: seq<Json>) {
    |a| == |b| && forall i :: 0 <= i < |a| ==> WithoutMark(a[i], b[i])
  }

  ghost predicate MessageWithoutMarks(a: Json, b: Json) {
    if a.HasArray("content") then
      && b.HasArray("content") && WithoutMarks(a.ItemsOf("content"), b.ItemsOf("content"))
      && forall k :: k != "content" ==> b.Get(k) == a.Get(k)
    else b == a
  }

  lemma StrippedWithoutMarks(blocks: seq<Json>)
    ensures WithoutMarks(blocks, StripAll(blocks))
  {
    forall i | 0 <= i < |blocks|
      ensures WithoutMark(blocks[i], StripCacheControl(blocks[i]))
    {
    }
  }

  lemma StrippedMessage(msg: Json)
    ensures MessageWithoutMarks(msg, StripBlocksUnder(msg, "content"))
  {
    if msg.HasArray("content") {
      StrippedWithoutMarks(msg.ItemsOf("content"));
    }
  }

  /** The normal form has no stream flag and no marks on the blocks of the system
      prompt and of the messages; everything else in it is as in the request. */
  lemma NormalFormReads(root: Json)
    requires root.Object?
    ensures var r := Normalized(root);
            && r.Object? && r.Get("stream") == None
            && (forall k :: k !in {"stream", "system", "messages"} ==> r.Get(k) == root.Get(k))
            && (if root.HasArray("system") then
                  r.HasArray("system") && WithoutMarks(root.ItemsOf("system"), r.ItemsOf("system"))
                else r.Get("system") == root.Get("system"))
            && (if root.HasArray("messages") then
                  && r.HasArray("messages") && |r.ItemsOf("messages")| == |root.ItemsOf("messages")|
                  && forall m :: 0 <= m < |root.ItemsOf("messages")| ==>
                       MessageWithoutMarks(root.ItemsOf("messages")[m], r.ItemsOf("messages")[m])
                else r.Get("messages") == root.Get("messages"))
  {
    NormalizedFieldwise(root);
    if root.HasArray("system") {
      StrippedWithoutMarks(root.ItemsOf("system"));
    }
    if root.HasArray("messages") {
      forall m | 0 <= m < |root.ItemsOf("messages")| {
        StrippedMessage(root.ItemsOf("messages")[m]);
      }
    }
  }

  lemma ChangedFieldKeepsNormalForm(root: Json, key: string, v: Json)
    requires root.Object? && key in root.fields
    requires NormalField(key, v) == NormalField(key, root.fields[key])
    ensures Normalized(Json.Object(root.fields[key := v])) == Normalized(root)
  {
    NormalizedFieldwise(root);
    NormalizedFieldwise(Json.Object(root.fields[key := v]));
    assert NormalFields(root.fields[key := v]) == NormalFields(root.fields);
  }

  lemma ApplyKeepsNormalForm(root: Json, e: Edit)
    ensures Normalized(Apply(root, e)) == Normalized(root)
  {
    match e
    case SetStream(v) =>
      NormalizedFieldwise(root);
      NormalizedFieldwise(Apply(root, e));
      if root.Object? {
        assert NormalFields(Apply(root, e).fields) == NormalFields(root.fields);
      }
    case MarkSystem(b, v) =>
      if root.HasArray("system") && b < |root.ItemsOf("system")| {
        var blocks := root.ItemsOf("system");
        StripForgetsMark(blocks[b], v);
        var edited := blocks[b := blocks[b].SetField(CACHE_CONTROL, v)];
        assert StripAll(edited) == StripAll(blocks);
        ChangedFieldKeepsNormalForm(root, "system", Json.Array(edited));
      }
    case MarkMessage(m, b, v) =>
      if root.HasArray("messages") && m < |root.ItemsOf("messages")| {
        var msgs := root.ItemsOf("messages");
        StripUnderForgetsMark(msgs[m], "content", b, v);
        var edited := msgs[m := MarkItem(msgs[m], "content", b, v)];
        assert StripMessages(edited) == StripMessages(msgs);
        ChangedFieldKeepsNormalForm(root, "messages", Json.Array(edited));
      }
  }

  lemma {:induction false} EditsKeepNormalForm(root: Json, es: seq<Edit>)
    ensures Normalized(ApplyAll(root, es)) == Normalized(root)
    decreases |es|
  {
    if es == [] {
    } else {
      ApplyKeepsNormalForm(root, es[0]);
      EditsKeepNormalForm(Apply(root, es[0]), es[1..]);
    }
  }

  // ---- Completeness: equal normal forms are connected by edits ----

  lemma Appended(root: Json, es: seq<Edit>, e: Edit)
    ensures ApplyAll(root, es + [e]) == Apply(ApplyAll(root, es), e)
  {
    ApplyAllConcat(root, es, [e]);
    assert ApplyAll(ApplyAll(root, es), [e]) == Apply(ApplyAll(root, es), e);
  }

  lemma MarkUndone(v: Json, key: string, i: nat, mark: Option<Json>)
    requires v.HasArray(key) && i < |v.ItemsOf(key)|
    ensures MarkItem(MarkItem(v, key, i, mark), key, i, v.ItemsOf(key)[i].Get(CACHE_CONTROL)) == v
  {
    var blocks := v.ItemsOf(key);
    var marked := blocks[i].SetField(CACHE_CONTROL, mark);
    assert marked.SetField(CACHE_CONTROL, blocks[i].Get(CACHE_CONTROL)) == blocks[i] by {
      if blocks[i].Object? {
        assert marked.SetField(CACHE_CONTROL, blocks[i].Get(CACHE_CONTROL)).fields == blocks[i].fields;
      }
    }
    assert blocks[i := marked][i := blocks[i]] == blocks;
    WithItemsTwice(v, key, blocks[i := marked], blocks);
    WithSameItems(v, key);
  }

  /** Every edit has an edit that takes it back. */
  lemma Undo(root: Json, e: Edit) returns (back: Edit)
    ensures Apply(Apply(root, e), back) == root
  {
    match e
    case SetStream(v) =>
      back := SetStream(root.Get("stream"));
      if root.Object? {
        assert Apply(Apply(root, e), back).fields == root.fields;
      }
    case MarkSystem(b, v) =>
      if root.HasArray("system") && b < |root.ItemsOf("system")| {
        back := MarkSystem(b, root.ItemsOf("system")[b].Get(CACHE_CONTROL));
        MarkUndone(root, "system", b, v);
      } else {
        back := e;
      }
    case MarkMessage(m, b, v) =>
      back := e;
      if root.HasArray("messages") && m < |root.ItemsOf("messages")| {
        var msgs := root.ItemsOf("messages");
        if msgs[m].HasArray("content") && b < |msgs[m].ItemsOf("content")| {
          back := MarkMessage(m, b, msgs[m].ItemsOf("content")[b].Get(CACHE_CONTROL));
          MarkUndone(msgs[m], "content", b, v);
          var edited := MarkItem(msgs[m], "content", b, v);
          assert msgs[m := edited][m := msgs[m]] == msgs;
          WithItemsTwice(root, "messages", msgs[m := edited], msgs);
        } else {
          assert msgs[m := msgs[m]] == msgs;
        }
        WithSameItems(root, "messages");
      }
  }

  lemma {:induction false} UndoAll(root: Json, es: seq<Edit>) returns (back: seq<Edit>)
    ensures ApplyAll(ApplyAll(root, es), back) == root
    decreases |es|
  {
    if es == [] {
      back := [];
    } else {
      var rest := UndoAll(Apply(root, es[0]), es[1..]);
      var first := Undo(root, es[0]);
      back := rest + [first];
      Appended(ApplyAll(root, es), rest, first);
    }
  }

  lemma OneMoreStripped(blocks: seq<Json>, k: nat)
    requires k < |blocks|
    ensures (StripAll(blocks[..k]) + blocks[k..])[k := StripCacheControl(blocks[k])]
         == StripAll(blocks[..k + 1]) + blocks[k + 1..]
  {
  }

  lemma StripSystemByEdits(root: Json) returns (es: seq<Edit>)
    requires root.HasArray("system")
    ensures ApplyAll(root, es) == StripBlocksUnder(root, "system")
  {
    var blocks := root.ItemsOf("system");
    es := [];
    assert StripAll(blocks[..0]) + blocks[0..] == blocks;
    WithSameItems(root, "system");
    for k := 0 to |blocks|
      invariant ApplyAll(root, es) == root.WithItems("system", StripAll(blocks[..k]) + blocks[k..])
    {
      Appended(root, es, MarkSystem(k, None));
      OneMoreStripped(blocks, k);
      WithItemsTwice(root, "system", StripAll(blocks[..k]) + blocks[k..], StripAll(blocks[..k + 1]) + blocks[k + 1..]);
      es := es + [MarkSystem(k, None)];
    }
    assert blocks[..|blocks|] == blocks && StripAll(blocks) + blocks[|blocks|..] == StripAll(blocks);
  }

  lemma StripMessageByEdits(root: Json, m: nat) returns (es: seq<Edit>)
    requires root.HasArray("messages") && m < |root.ItemsOf("messages")|
    requires root.ItemsOf("messages")[m].HasArray("content")
    ensures var msgs := root.ItemsOf("messages");
            ApplyAll(root, es) == root.WithItems("messages", msgs[m := StripBlocksUnder(msgs[m], "content")])
  {
    var msgs := root.ItemsOf("messages");
    var blocks := msgs[m].ItemsOf("content");
    es := [];
    assert StripAll(blocks[..0]) + blocks[0..] == blocks;
    WithSameItems(msgs[m], "content");
    assert msgs[m := msgs[m]] == msgs;
    WithSameItems(root, "messages");
    for k := 0 to |blocks|
      invariant ApplyAll(root, es) ==
        root.WithItems("messages", msgs[m := msgs[m].WithItems("content", StripAll(blocks[..k]) + blocks[k..])])
    {
      Appended(root, es, MarkMessage(m, k, None));
      var now := msgs[m].WithItems("content", StripAll(blocks[..k]) + blocks[k..]);
      var next := msgs[m].WithItems("content", StripAll(blocks[..k + 1]) + blocks[k + 1..]);
      OneMoreStripped(blocks, k);
      WithItemsTwice(msgs[m], "content", StripAll(blocks[..k]) + blocks[k..], StripAll(blocks[..k + 1]) + blocks[k + 1..]);
      assert MarkItem(now, "content", k, None) == next;
      assert msgs[m := now][m := next] == msgs[m := next];
      WithItemsTwice(root, "messages", msgs[m := now], msgs[m := next]);
      es := es + [MarkMessage(m, k, None)];
    }
    assert blocks[..|blocks|] == blocks && StripAll(blocks) + blocks[|blocks|..] == StripAll(blocks);
  }

  lemma StripNextMessage(root: Json, msgs: seq<Json>, m: nat) returns (es: seq<Edit>)
    requires root.HasArray("messages") && m < |msgs|
    ensures ApplyAll(root.WithItems("messages", msgs), es)
         == root.WithItems("messages", msgs[m := StripBlocksUnder(msgs[m], "content")])
  {
    WithItemsTwice(root, "messages", msgs, msgs[m := StripBlocksUnder(msgs[m], "content")]);
    if msgs[m].HasArray("content") {
      es := StripMessageByEdits(root.WithItems("messages", msgs), m);
    } else {
      es := [];
      assert msgs[m := msgs[m]] == msgs;
    }
  }

  lemma OneMoreMessage(msgs: seq<Json>, m: nat)
    requires m < |msgs|
    ensures var sofar := StripMessages(msgs[..m]) + msgs[m..];
            |sofar| == |msgs|
            && sofar[m := StripBlocksUnder(sofar[m], "content")] == StripMessages(msgs[..m + 1]) + msgs[m + 1..]
  {
  }

  lemma StripMessagesByEdits(root: Json) returns (es: seq<Edit>)
    requires root.HasArray("messages")
    ensures ApplyAll(root, es) == StripMessagesUnder(root)
  {
    var msgs := root.ItemsOf("messages");
    es := [];
    var sofar := msgs;
    WithSameItems(root, "messages");
    for m := 0 to |msgs|
      invariant sofar == StripMessages(msgs[..m]) + msgs[m..]
      invariant ApplyAll(root, es) == root.WithItems("messages", sofar)
    {
      OneMoreMessage(msgs, m);
      var more := StripNextMessage(root, sofar, m);
      ApplyAllConcat(root, es, more);
      es := es + more;
      sofar := sofar[m := StripBlocksUnder(sofar[m], "content")];
    }
    assert msgs[..|msgs|] == msgs;
    assert sofar == StripMessages(msgs);
  }

  /** Every body reaches its normal form by edits alone. */
  lemma NormalizedByEdits(root: Json) returns (es: seq<Edit>)
    ensures ApplyAll(root, es) == Normalized(root)
  {
    es := [SetStream(None)];
    var a := root.SetField("stream", None);
    assert ApplyAll(root, es) == ApplyAll(Apply(root, es[0]), []) == a;
    var b := StripBlocksUnder(a, "system");
    if a.HasArray("system") {
      var more := StripSystemByEdits(a);
      ApplyAllConcat(root, es, more);
      es := es + more;
    }
    if b.HasArray("messages") {
      var more := StripMessagesByEdits(b);
      ApplyAllConcat(root, es, more);
      es := es + more;
    }
  }

  // ---- Main results ----

  ghost predicate ConnectedByEdits(a: Json, b: Json) {
    exists es :: ApplyAll(a, es) == b
  }

  /** Two documents have the same fingerprint exactly when one becomes the
      other by changing `stream` and cache marks: nothing else is forgotten,
      and nothing of these is remembered. */
  lemma SameFingerprintIffEdited(a: Json, b: Json)
    ensures FingerprintOf(Document(a)) == FingerprintOf(Document(b)) <==> ConnectedByEdits(a, b)
  {
    if Normalized(a) == Normalized(b) {
      var there := NormalizedByEdits(a);
      var toNormal := NormalizedByEdits(b);
      var back := UndoAll(b, toNormal);
      ApplyAllConcat(a, there, back);
      assert ApplyAll(a, there + back) == b;
    }
    if ConnectedByEdits(a, b) {
      var es :| ApplyAll(a, es) == b;
      EditsKeepNormalForm(a, es);
    }
  }

  lemma NormalizeIdempotent(root: Json)
    ensures Normalized(Normalized(root)) == Normalized(root)
  {
    var es := NormalizedByEdits(root);
    EditsKeepNormalForm(root, es);
  }
}
