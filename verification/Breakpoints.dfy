/** Prompt-cache breakpoints (src/cache/breakpoint.rs, src/cache/inject.rs):
    where to mark a request for the provider's prefix cache, and marking it.
    The plan is specified by what it selects; it turns out to depend on the
    normal form of the request only, so marking a request never moves its plan. */
module Breakpoints {
  import opened Wrappers
  import opened JsonTree
  import opened Fingerprints

  datatype CacheBreakpoint = Standard | SystemOnly

  datatype BreakpointPlan = BreakpointPlan(systemBlock: Option<nat>, messageBlocks: seq<(nat, nat)>) {
    predicate HasBreakpoints() {
      systemBlock.Some? || messageBlocks != []
    }
  }

  // ---- What a plan must select ----

  predicate HasBlocks(msg: Json) {
    msg.HasArray("content") && msg.ItemsOf("content") != []
  }

  predicate HasBlockOfType(msg: Json, kind: string)
    requires msg.HasArray("content")
  {
    exists b :: 0 <= b < |msg.ItemsOf("content")| && msg.ItemsOf("content")[b].TextOf("type") == Some(kind)
  }

  /** An assistant turn that uses a tool, or a user turn that returns a result. */
  predicate IsToolInteraction(msg: Json) {
    HasBlocks(msg)
    && ((msg.TextOf("role") == Some("assistant") && HasBlockOfType(msg, "tool_use"))
        || (msg.TextOf("role") == Some("user") && HasBlockOfType(msg, "tool_result")))
  }

  /** Message `m` has blocks and comes before the first tool interaction. */
  ghost predicate Cacheable(msgs: seq<Json>, m: int) {
    0 <= m < |msgs| && HasBlocks(msgs[m]) && forall k :: 0 <= k <= m ==> !IsToolInteraction(msgs[k])
  }

  /** The last block of the last cacheable message, or nothing if there is none. */
  ghost predicate IsMessageChoice(msgs: seq<Json>, chosen: seq<(nat, nat)>) {
    if chosen == [] then forall m :: 0 <= m < |msgs| ==> !Cacheable(msgs, m)
    else
      && |chosen| == 1
      && Cacheable(msgs, chosen[0].0)
      && chosen[0].1 == |msgs[chosen[0].0].ItemsOf("content")| - 1
      && forall m :: chosen[0].0 < m < |msgs| ==> !Cacheable(msgs, m)
  }

  ghost predicate IsPlan(root: Json, policy: CacheBreakpoint, plan: BreakpointPlan) {
    && plan.systemBlock == (if root.HasArray("system") && root.ItemsOf("system") != []
                            then Some(|root.ItemsOf("system")| - 1) else None)
    && (if policy.Standard? && root.HasArray("messages")
        then IsMessageChoice(root.ItemsOf("messages"), plan.messageBlocks)
        else plan.messageBlocks == [])
  }

  /** The conditions leave no choice. */
  lemma PlanUnique(root: Json, policy: CacheBreakpoint, p: BreakpointPlan, q: BreakpointPlan)
    requires IsPlan(root, policy, p) && IsPlan(root, policy, q)
    ensures p == q
  {
    if policy.Standard? && root.HasArray("messages") {
      var msgs := root.ItemsOf("messages");
      var a, b := p.messageBlocks, q.messageBlocks;
      if a != [] {
        assert Cacheable(msgs, a[0].0);
        assert b != [];
      }
      if b != [] {
        assert Cacheable(msgs, b[0].0);
        assert a[0] == b[0];
        assert a == [a[0]] && b == [b[0]];
      }
    }
  }

  /** An assistant block that uses a tool, or a user block that returns a result. */
  predicate ToolBlock(msg: Json, b: int) {
    && msg.HasArray("content") && 0 <= b < |msg.ItemsOf("content")|
    && var block := msg.ItemsOf("content")[b];
       || (msg.TextOf("role") == Some("assistant") && block.TextOf("type") == Some("tool_use"))
       || (msg.TextOf("role") == Some("user") && block.TextOf("type") == Some("tool_result"))
  }

  /** A plan marks the last block of the system prompt, and under the standard
      policy the last block of one message: the last that has blocks before the
      first tool block of the conversation. */
  lemma PlanStopsAtTools(root: Json, policy: CacheBreakpoint, plan: BreakpointPlan, m: nat)
    requires IsPlan(root, policy, plan)
    requires root.HasArray("messages") && m < |root.ItemsOf("messages")|
    ensures forall b :: ToolBlock(root.ItemsOf("messages")[m], b) ==> forall p :: p in plan.messageBlocks ==> p.0 < m
    ensures policy.SystemOnly? ==> plan.messageBlocks == []
    ensures var msgs := root.ItemsOf("messages");
            policy.Standard? && msgs[m].HasArray("content") && msgs[m].ItemsOf("content") != []
            && (forall k, b :: 0 <= k <= m ==> !ToolBlock(msgs[k], b)) ==>
              && |plan.messageBlocks| == 1
              && m <= plan.messageBlocks[0].0 < |msgs|
              && msgs[plan.messageBlocks[0].0].HasArray("content")
              && plan.messageBlocks[0].1 == |msgs[plan.messageBlocks[0].0].ItemsOf("content")| - 1
  {
    var msgs := root.ItemsOf("messages");
    forall k | 0 <= k < |msgs|
      ensures IsToolInteraction(msgs[k]) <==> exists b :: ToolBlock(msgs[k], b)
    {
      ToolBlockMakesInteraction(msgs[k]);
    }
    if policy.Standard? && HasBlocks(msgs[m]) && forall k, b :: 0 <= k <= m ==> !ToolBlock(msgs[k], b) {
      assert Cacheable(msgs, m);
    }
  }

  lemma ToolBlockMakesInteraction(msg: Json)
    ensures IsToolInteraction(msg) <==> exists b :: ToolBlock(msg, b)
  {
    if b :| ToolBlock(msg, b) {
      var kind := msg.ItemsOf("content")[b].TextOf("type").value;
      assert HasBlockOfType(msg, kind);
    }
    if IsToolInteraction(msg) {
      var kind := if msg.TextOf("role") == Some("assistant") then "tool_use" else "tool_result";
      var b :| 0 <= b < |msg.ItemsOf("content")| && msg.ItemsOf("content")[b].TextOf("type") == Some(kind);
      assert ToolBlock(msg, b);
    }
  }

  method AnyOfType(blocks: seq<Json>, kind: string) returns (found: bool)
    ensures found <==> exists b :: 0 <= b < |blocks| && blocks[b].TextOf("type") == Some(kind)
  {
    found := false;
    for i := 0 to |blocks|
      invariant !found
      invariant forall b :: 0 <= b < i ==> blocks[b].TextOf("type") != Some(kind)
    {
      if blocks[i].TextOf("type") == Some(kind) {
        return true;
      }
    }
  }

  method FindBreakpoints(body: Body, policy: CacheBreakpoint) returns (r: Result<BreakpointPlan, string>)
    ensures r.Err? <==> body.Malformed?
    ensures body.Document? ==> IsPlan(body.root, policy, r.value)
  {
    if body.Malformed? {
      return Err("Failed to parse request body");
    }
    var root := body.root;
    var plan := BreakpointPlan(None, []);
    if root.HasArray("system") && root.ItemsOf("system") != [] {
      plan := plan.(systemBlock := Some(|root.ItemsOf("system")| - 1));
    }
    if policy.SystemOnly? || !root.HasArray("messages") {
      return Ok(plan);
    }
    var msgs := root.ItemsOf("messages");
    var last: Option<(nat, nat)> := None;
    for m := 0 to |msgs|
      invariant forall k :: 0 <= k < m ==> !IsToolInteraction(msgs[k])
      invariant last.None? ==> forall k :: 0 <= k < m ==> !HasBlocks(msgs[k])
      invariant last.Some? ==>
                  && 0 <= last.value.0 < m && HasBlocks(msgs[last.value.0])
                  && last.value.1 == |msgs[last.value.0].ItemsOf("content")| - 1
                  && forall k :: last.value.0 < k < m ==> !HasBlocks(msgs[k])
      invariant plan.messageBlocks == []
    {
      if HasBlocks(msgs[m]) {
        var content := msgs[m].ItemsOf("content");
        var uses := AnyOfType(content, "tool_use");
        var returned := AnyOfType(content, "tool_result");
        var role := msgs[m].TextOf("role");
        if (role == Some("assistant") && uses) || (role == Some("user") && returned) {
          assert IsToolInteraction(msgs[m]);
          break;
        }
        last := Some((m, |content| - 1));
      }
    }
    if last.Some? {
      plan := plan.(messageBlocks := [last.value]);
    }
    return Ok(plan);
  }

  // ---- The plan only looks at the shape of the request ----

  ghost predicate SameMessageShape(a: Json, b: Json) {
    && a.TextOf("role") == b.TextOf("role")
    && (a.HasArray("content") <==> b.HasArray("content"))
    && (a.HasArray("content") ==>
          && |a.ItemsOf("content")| == |b.ItemsOf("content")|
          && forall i :: 0 <= i < |a.ItemsOf("content")| ==>
               a.ItemsOf("content")[i].TextOf("type") == b.ItemsOf("content")[i].TextOf("type"))
  }

  ghost predicate SameShape(a: Json, b: Json) {
    && (a.HasArray("system") <==> b.HasArray("system"))
    && (a.HasArray("system") ==> |a.ItemsOf("system")| == |b.ItemsOf("system")|)
    && (a.HasArray("messages") <==> b.HasArray("messages"))
    && (a.HasArray("messages") ==>
          && |a.ItemsOf("messages")| == |b.ItemsOf("messages")|
          && forall m :: 0 <= m < |a.ItemsOf("messages")| ==>
               SameMessageShape(a.ItemsOf("messages")[m], b.ItemsOf("messages")[m]))
  }

  lemma SameShapeSameTools(a: Json, b: Json)
    requires SameMessageShape(a, b)
    ensures HasBlocks(a) <==> HasBlocks(b)
    ensures IsToolInteraction(a) <==> IsToolInteraction(b)
  {
    if a.HasArray("content") {
      assert HasBlockOfType(a, "tool_use") <==> HasBlockOfType(b, "tool_use");
      assert HasBlockOfType(a, "tool_result") <==> HasBlockOfType(b, "tool_result");
    }
  }

  lemma SameShapeSamePlan(a: Json, b: Json, policy: CacheBreakpoint, plan: BreakpointPlan)
    requires SameShape(a, b)
    ensures IsPlan(a, policy, plan) <==> IsPlan(b, policy, plan)
  {
    if a.HasArray("messages") {
      var x, y := a.ItemsOf("messages"), b.ItemsOf("messages");
      forall m | 0 <= m < |x|
        ensures HasBlocks(x[m]) <==> HasBlocks(y[m])
        ensures IsToolInteraction(x[m]) <==> IsToolInteraction(y[m])
      {
        SameShapeSameTools(x[m], y[m]);
      }
      assert forall m :: Cacheable(x, m) <==> Cacheable(y, m);
    }
  }

  lemma NormalMessageShape(msg: Json)
    ensures SameMessageShape(msg, StripBlocksUnder(msg, "content"))
  {
  }

  lemma NormalShape(root: Json)
    ensures SameShape(root, Normalized(root))
  {
    NormalizedFieldwise(root);
    if root.HasArray("messages") {
      forall m | 0 <= m < |root.ItemsOf("messages")| {
        NormalMessageShape(root.ItemsOf("messages")[m]);
      }
    }
  }

  /** Requests with one fingerprint are given one plan. */
  lemma PlanFollowsFingerprint(a: Json, b: Json, policy: CacheBreakpoint, plan: BreakpointPlan)
    requires FingerprintOf(Document(a)) == FingerprintOf(Document(b))
    ensures IsPlan(a, policy, plan) <==> IsPlan(b, policy, plan)
  {
    NormalShape(a);
    NormalShape(b);
    SameShapeSamePlan(a, Normalized(a), policy, plan);
    SameShapeSamePlan(b, Normalized(b), policy, plan);
  }

  // ---- Injection ----

  const EPHEMERAL := Json.Object(map["type" := Json.String("ephemeral")])

  /** The edits a plan stands for: one mark a planned block. */
  function PlanEdits(plan: BreakpointPlan): (es: seq<Edit>)
    ensures forall e :: e in es ==> IsInjectedMark(e)
  {
    (if plan.systemBlock.Some? then [MarkSystem(plan.systemBlock.value, Some(EPHEMERAL))] else [])
    + MessageEdits(plan.messageBlocks)
  }

  function MessageEdits(blocks: seq<(nat, nat)>): (es: seq<Edit>)
    ensures |es| == |blocks|
    ensures forall i :: 0 <= i < |es| ==> es[i] == MarkMessage(blocks[i].0, blocks[i].1, Some(EPHEMERAL))
  {
    seq(|blocks|, i requires 0 <= i < |blocks| => MarkMessage(blocks[i].0, blocks[i].1, Some(EPHEMERAL)))
  }

  predicate IsInjectedMark(e: Edit) {
    !e.SetStream? && e.v == Some(EPHEMERAL)
  }

  function Injected(root: Json, plan: BreakpointPlan): Json {
    ApplyAll(root, PlanEdits(plan))
  }

  method InjectCacheControl(body: Body, plan: BreakpointPlan) returns (r: Result<Body, string>)
    ensures !plan.HasBreakpoints() ==> r == Ok(body)
    ensures plan.HasBreakpoints() && body.Malformed? ==> r.Err?
    ensures body.Document? ==> r == Ok(Document(Injected(body.root, plan)))
  {
    if !plan.HasBreakpoints() {
      return Ok(body);
    }
    if body.Malformed? {
      return Err("Failed to parse body");
    }
    var root := body.root;
    ghost var done: seq<Edit> := [];
    if plan.systemBlock.Some? {
      var idx := plan.systemBlock.value;
      ghost var e := MarkSystem(idx, Some(EPHEMERAL));
      Appended(body.root, done, e);
      if root.HasArray("system") {
        var blocks := root.ItemsOf("system");
        if idx < |blocks| {
          root := root.WithItems("system", blocks[idx := blocks[idx].SetField(CACHE_CONTROL, Some(EPHEMERAL))]);
        }
      }
      done := done + [e];
    }
    ghost var edits := MessageEdits(plan.messageBlocks);
    ghost var systemDone := done;
    for i := 0 to |plan.messageBlocks|
      invariant done == systemDone + edits[..i]
      invariant root == ApplyAll(body.root, done)
    {
      var (m, b) := plan.messageBlocks[i];
      ghost var e := MarkMessage(m, b, Some(EPHEMERAL));
      Appended(body.root, done, e);
      root := MarkInMessage(root, m, b, Some(EPHEMERAL));
      done := done + [e];
    }
    assert edits[..|edits|] == edits;
    assert done == PlanEdits(plan);
    return Ok(Document(root));
  }

  /** Marking a request, by any plan, changes neither its fingerprint nor the
      plan that would be found for it. */
  lemma InjectionInvisible(root: Json, plan: BreakpointPlan, policy: CacheBreakpoint, found: BreakpointPlan)
    ensures FingerprintOf(Document(Injected(root, plan))) == FingerprintOf(Document(root))
    ensures IsPlan(Injected(root, plan), policy, found) <==> IsPlan(root, policy, found)
  {
    EditsKeepNormalForm(root, PlanEdits(plan));
    PlanFollowsFingerprint(Injected(root, plan), root, policy, found);
  }

  lemma MarkSticks(root: Json, e: Edit)
    requires IsInjectedMark(e)
    ensures Apply(Apply(root, e), e) == Apply(root, e)
  {
    match e
    case MarkSystem(b, v) => ItemMarkSticks(root, "system", b);
    case MarkMessage(m, b, v) =>
      if root.HasArray("messages") && m < |root.ItemsOf("messages")| {
        var msgs := root.ItemsOf("messages");
        ItemMarkSticks(msgs[m], "content", b);
        var edited := MarkItem(msgs[m], "content", b, v);
        assert msgs[m := edited][m := edited] == msgs[m := edited];
        WithItemsTwice(root, "messages", msgs[m := edited], msgs[m := edited]);
      }
  }

  lemma ItemMarkSticks(v: Json, key: string, b: nat)
    ensures MarkItem(MarkItem(v, key, b, Some(EPHEMERAL)), key, b, Some(EPHEMERAL))
         == MarkItem(v, key, b, Some(EPHEMERAL))
  {
    if v.HasArray(key) && b < |v.ItemsOf(key)| {
      var a := v.ItemsOf(key);
      var x := a[b].SetField(CACHE_CONTROL, Some(EPHEMERAL));
      assert x.SetField(CACHE_CONTROL, Some(EPHEMERAL)) == x;
      assert a[b := x][b := x] == a[b := x];
      WithItemsTwice(v, key, a[b := x], a[b := x]);
    }
  }

  lemma ItemMarksCommute(v: Json, key: string, b: nat, c: nat)
    ensures MarkItem(MarkItem(v, key, b, Some(EPHEMERAL)), key, c, Some(EPHEMERAL))
         == MarkItem(MarkItem(v, key, c, Some(EPHEMERAL)), key, b, Some(EPHEMERAL))
  {
    if b != c && v.HasArray(key) && b < |v.ItemsOf(key)| && c < |v.ItemsOf(key)| {
      var a := v.ItemsOf(key);
      var x, y := a[b].SetField(CACHE_CONTROL, Some(EPHEMERAL)), a[c].SetField(CACHE_CONTROL, Some(EPHEMERAL));
      assert a[b := x][c := y] == a[c := y][b := x];
      WithItemsTwice(v, key, a[b := x], a[b := x][c := y]);
      WithItemsTwice(v, key, a[c := y], a[c := y][b := x]);
    }
  }

  lemma MarksCommute(root: Json, e: Edit, f: Edit)
    requires IsInjectedMark(e) && IsInjectedMark(f)
    ensures Apply(Apply(root, e), f) == Apply(Apply(root, f), e)
  {
    if e.MarkSystem? && f.MarkSystem? {
      ItemMarksCommute(root, "system", e.block, f.block);
    } else if e.MarkMessage? && f.MarkMessage? {
      MessageMarksCommute(root, e.message, e.block, f.message, f.block);
    } else if root.Object? {
      assert Apply(Apply(root, e), f).fields == Apply(Apply(root, f), e).fields;
    }
  }

  lemma MessageMarksCommute(root: Json, m: nat, b: nat, n: nat, c: nat)
    ensures MarkInMessage(MarkInMessage(root, m, b, Some(EPHEMERAL)), n, c, Some(EPHEMERAL))
         == MarkInMessage(MarkInMessage(root, n, c, Some(EPHEMERAL)), m, b, Some(EPHEMERAL))
  {
    if root.HasArray("messages") && m < |root.ItemsOf("messages")| && n < |root.ItemsOf("messages")| {
      var a := root.ItemsOf("messages");
      var x := a[m := MarkItem(a[m], "content", b, Some(EPHEMERAL))];
      var y := a[n := MarkItem(a[n], "content", c, Some(EPHEMERAL))];
      ItemMarksCommute(a[m], "content", b, c);
      var xy := x[n := MarkItem(x[n], "content", c, Some(EPHEMERAL))];
      var yx := y[m := MarkItem(y[m], "content", b, Some(EPHEMERAL))];
      assert xy == yx;
      WithItemsTwice(root, "messages", x, xy);
      WithItemsTwice(root, "messages", y, yx);
    }
  }

  ghost predicate AllMarked(root: Json, es: seq<Edit>) {
    forall e :: e in es ==> Apply(root, e) == root
  }

  lemma {:induction false} MarkingAll(root: Json, es: seq<Edit>, kept: seq<Edit>)
    requires forall e :: e in es + kept ==> IsInjectedMark(e)
    requires AllMarked(root, kept)
    ensures AllMarked(ApplyAll(root, es), es + kept)
    decreases |es|
  {
    if es == [] {
      assert es + kept == kept;
    } else {
      var next := Apply(root, es[0]);
      MarkSticks(root, es[0]);
      forall e | e in kept
        ensures Apply(next, e) == next
      {
        assert e in es + kept;
        MarksCommute(root, es[0], e);
      }
      var more := kept + [es[0]];
      assert forall e :: e in es[1..] + more <==> e in es + kept;
      MarkingAll(next, es[1..], more);
    }
  }

  lemma {:induction false} MarkedIsFixed(root: Json, es: seq<Edit>)
    requires AllMarked(root, es)
    ensures ApplyAll(root, es) == root
    decreases |es|
  {
    if es == [] {
    } else {
      MarkedIsFixed(root, es[1..]);
    }
  }

  lemma InjectionIdempotent(root: Json, plan: BreakpointPlan)
    ensures Injected(Injected(root, plan), plan) == Injected(root, plan)
  {
    var es := PlanEdits(plan);
    assert es + [] == es;
    MarkingAll(root, es, []);
    MarkedIsFixed(ApplyAll(root, es), es);
  }

  // ---- What injection does to every block ----

  function SystemBlock(root: Json, b: nat): Option<Json> {
    if root.HasArray("system") && b < |root.ItemsOf("system")| then Some(root.ItemsOf("system")[b]) else None
  }

  function MessageBlock(root: Json, m: nat, b: nat): Option<Json> {
    if root.HasArray("messages") && m < |root.ItemsOf("messages")|
       && root.ItemsOf("messages")[m].HasArray("content")
       && b < |root.ItemsOf("messages")[m].ItemsOf("content")|
    then Some(root.ItemsOf("messages")[m].ItemsOf("content")[b]) else None
  }

  /** The block has the provider's cache mark and is the same otherwise. */
  ghost predicate HasMark(before: Json, after: Json) {
    if before.Object? then
      && after.Object? && after.Get("cache_control").Some?
      && after.Get("cache_control").value == Json.Object(map["type" := Json.String("ephemeral")])
      && forall k :: k != "cache_control" ==> after.Get(k) == before.Get(k)
    else after == before
  }

  function MarkedIf(block: Option<Json>, marked: bool): (r: Option<Json>)
    ensures block.None? || !marked ==> r == block
    ensures block.Some? && marked ==> r.Some? && HasMark(block.value, r.value)
  {
    if block.Some? && marked then Some(block.value.SetField(CACHE_CONTROL, Some(EPHEMERAL))) else block
  }

  lemma OneMark(root: Json, e: Edit)
    requires IsInjectedMark(e)
    ensures forall b: nat :: SystemBlock(Apply(root, e), b)
                == MarkedIf(SystemBlock(root, b), e == MarkSystem(b, Some(EPHEMERAL)))
    ensures forall m: nat, b: nat :: MessageBlock(Apply(root, e), m, b)
                == MarkedIf(MessageBlock(root, m, b), e == MarkMessage(m, b, Some(EPHEMERAL)))
  {
  }

  lemma {:induction false} MarksExactly(root: Json, es: seq<Edit>)
    requires forall e :: e in es ==> IsInjectedMark(e)
    ensures forall b: nat :: SystemBlock(ApplyAll(root, es), b)
                == MarkedIf(SystemBlock(root, b), MarkSystem(b, Some(EPHEMERAL)) in es)
    ensures forall m: nat, b: nat :: MessageBlock(ApplyAll(root, es), m, b)
                == MarkedIf(MessageBlock(root, m, b), MarkMessage(m, b, Some(EPHEMERAL)) in es)
    decreases |es|
  {
    if es == [] {
    } else {
      OneMark(root, es[0]);
      MarksExactly(Apply(root, es[0]), es[1..]);
      forall x: Option<Json>
        ensures MarkedIf(MarkedIf(x, true), true) == MarkedIf(x, true)
      {
        if x.Some? && x.value.Object? {
          var once := x.value.fields[CACHE_CONTROL := EPHEMERAL];
          assert once[CACHE_CONTROL := EPHEMERAL] == once;
        }
      }
      assert forall e :: e in es <==> e == es[0] || e in es[1..];
    }
  }

  /** Injection marks the planned blocks and leaves every other block alone. */
  lemma InjectionMarksPlan(root: Json, plan: BreakpointPlan)
    ensures forall b: nat :: SystemBlock(Injected(root, plan), b)
                == MarkedIf(SystemBlock(root, b), plan.systemBlock == Some(b))
    ensures forall m: nat, b: nat :: MessageBlock(Injected(root, plan), m, b)
                == MarkedIf(MessageBlock(root, m, b), (m, b) in plan.messageBlocks)
  {
    var es := PlanEdits(plan);
    MarksExactly(root, es);
    var marks := MessageEdits(plan.messageBlocks);
    forall m: nat, b: nat
      ensures MarkMessage(m, b, Some(EPHEMERAL)) in es <==> (m, b) in plan.messageBlocks
    {
      if (m, b) in plan.messageBlocks {
        var i :| 0 <= i < |marks| && plan.messageBlocks[i] == (m, b);
        assert marks[i] in es;
      }
    }
  }
}
