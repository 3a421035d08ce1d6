/** Workspace and age of cached responses among interleaved requests
    (src/gateway/routes.rs, src/safe_cache/cache_db.rs).  A request evicts, looks
    up a row for its workspace and reads the blob, while other requests insert,
    replace and evict rows.  What it replays was stored for its key and its
    workspace, and, as long as no row is stamped before a cutoff already used, not
    before the cutoff of its own eviction. */
module Replays {
  import opened ContentStore
  import opened Timestamps
  import opened SafeCache
  import opened Gateway
  import opened Provenance

  // ---- Where rows come from ----

  /** The response was stored for the key and the workspace, at that time: by an
      insert among the steps, or by a row that was there at the start. */
  ghost predicate StoredFor(s0: State, es: seq<Step>, key: CacheKey, workspace: string, r: Response, at: string) {
    || (exists j, w :: InsertRow(j, w) in es && w.Succeeds() && w.key == key
          && w.workspace == workspace && w.response == r && w.now == at)
    || (key in s0.storage.tables.rows
        && var row := s0.storage.tables.rows[key];
           row.workspace == workspace && RowResponse(row) == r && row.createdAt == at)
  }

  lemma StoredForMore(s0: State, es: seq<Step>, e: Step, key: CacheKey, workspace: string, r: Response, at: string)
    requires StoredFor(s0, es, key, workspace, r, at)
    ensures StoredFor(s0, es + [e], key, workspace, r, at)
  {
    if j, w :| InsertRow(j, w) in es && w.Succeeds() && w.key == key
                 && w.workspace == workspace && w.response == r && w.now == at {
      assert InsertRow(j, w) in es + [e];
    }
  }

  predicate SameRow(a: Row, b: Row) {
    a.workspace == b.workspace && RowResponse(a) == RowResponse(b) && a.createdAt == b.createdAt
  }

  /** A row is the one that was there, hits aside, or the one being inserted. */
  lemma RowStaysOrIsInserted(c: Config, s: State, e: Step, k: CacheKey)
    requires Enabled(c, s, e) && k in Next(c, s, e).storage.tables.rows
    ensures var row := Next(c, s, e).storage.tables.rows[k];
            || (k in s.storage.tables.rows && SameRow(s.storage.tables.rows[k], row))
            || (e.InsertRow? && e.w.Succeeds() && k == e.w.key && row.workspace == e.w.workspace
                && RowResponse(row) == e.w.response && row.createdAt == e.w.now)
  {
    if !e.Background? && !e.EvictFirst? && !e.CountHit? && !e.InsertRow? {
      StorageMoves(c, s, e);
    }
  }

  // ---- Cutoffs ----

  /** No row is stamped before a cutoff that an eviction has used already. */
  predicate StampedAfter(done: seq<Step>, e: Step) {
    e.InsertRow? ==> forall i :: 0 <= i < |done| && done[i].EvictFirst? ==> !TextBefore(e.w.now, done[i].cutoff)
  }

  predicate ClockMovesOn(done: seq<Step>, es: seq<Step>)
    decreases |es|
  {
    es == [] || (StampedAfter(done, es[0]) && ClockMovesOn(done + [es[0]], es[1..]))
  }

  ghost predicate RowsOutliveCutoffs(s: State, done: seq<Step>) {
    forall k, n :: k in s.storage.tables.rows && 0 <= n < |done| && done[n].EvictFirst? ==>
      !TextBefore(s.storage.tables.rows[k].createdAt, done[n].cutoff)
  }

  lemma EvictedOutlive(c: Config, s: State, e: Step, k: CacheKey)
    requires Enabled(c, s, e) && e.EvictFirst? && k in Next(c, s, e).storage.tables.rows
    ensures !TextBefore(Next(c, s, e).storage.tables.rows[k].createdAt, e.cutoff)
  {
  }

  lemma StepKeepsOutliving(c: Config, s: State, done: seq<Step>, e: Step)
    requires RowsOutliveCutoffs(s, done) && Enabled(c, s, e) && StampedAfter(done, e)
    ensures RowsOutliveCutoffs(Next(c, s, e), done + [e])
  {
    var t := Next(c, s, e);
    forall k, n | k in t.storage.tables.rows && 0 <= n < |done + [e]| && (done + [e])[n].EvictFirst?
      ensures !TextBefore(t.storage.tables.rows[k].createdAt, (done + [e])[n].cutoff)
    {
      if n < |done| {
        assert done[n].EvictFirst?;
        RowStaysOrIsInserted(c, s, e, k);
      } else {
        EvictedOutlive(c, s, e, k);
      }
    }
  }

  // ---- What a request replays ----

  /** The time is not before the cutoff of any eviction by the task. */
  predicate Fresh(done: seq<Step>, i: nat, at: string) {
    forall n :: 0 <= n < |done| && done[n].EvictFirst? && done[n].i == i ==> !TextBefore(at, done[n].cutoff)
  }

  /** The task evicted, then found in a row for its key and a workspace a response
      that was stored for them; if clocks move on, it was fresh. */
  ghost predicate Found(s0: State, done: seq<Step>, i: nat, key: CacheKey, r: Response, timed: bool) {
    && (exists cutoff :: EvictFirst(i, cutoff) in done)
    && exists workspace, at :: ReadRow(i, workspace) in done && StoredFor(s0, done, key, workspace, r, at)
                               && (timed ==> Fresh(done, i, at))
  }

  lemma FoundMore(s0: State, done: seq<Step>, e: Step, i: nat, key: CacheKey, r: Response, timed: bool)
    requires Found(s0, done, i, key, r, timed) && !(e.EvictFirst? && e.i == i)
    ensures Found(s0, done + [e], i, key, r, timed)
  {
    var cutoff :| EvictFirst(i, cutoff) in done;
    assert EvictFirst(i, cutoff) in done + [e];
    var workspace, at :| ReadRow(i, workspace) in done && StoredFor(s0, done, key, workspace, r, at)
                         && (timed ==> Fresh(done, i, at));
    assert ReadRow(i, workspace) in done + [e];
    StoredForMore(s0, done, e, key, workspace, r, at);
    assert timed ==> Fresh(done + [e], i, at);
  }

  /** Answered from the cache, or about to be. */
  predicate Replayed(t: Task) {
    t.phase.Touching? || t.phase.Replaying? || (t.phase.Finished? && !t.called)
  }

  /** With or after its permit, a task has called upstream. */
  predicate CallNoted(t: Task) {
    HoldsPermit(t.phase) || t.phase.Settling? ==> t.called
  }

  ghost predicate TaskFound(s0: State, done: seq<Step>, i: nat, t: Task, timed: bool) {
    var key := t.request.cacheKey;
    && CallNoted(t)
    && (t.phase.Looking? ==> exists cutoff :: EvictFirst(i, cutoff) in done)
    && (t.phase.Reading? ==> Found(s0, done, i, key, Response(t.phase.status, t.phase.h.preimage), timed))
    && (Replayed(t) ==> Found(s0, done, i, key, t.phase.r, timed))
  }

  ghost predicate RowStored(s0: State, done: seq<Step>, s: State, k: CacheKey) {
    k in s.storage.tables.rows ==>
      var row := s.storage.tables.rows[k];
      StoredFor(s0, done, k, row.workspace, RowResponse(row), row.createdAt)
  }

  ghost predicate Tracked(s0: State, done: seq<Step>, s: State, timed: bool) {
    && Addressed(s.storage.blobs) && |s.tasks| == |s0.tasks|
    && (forall k :: RowStored(s0, done, s, k))
    && (timed ==> RowsOutliveCutoffs(s, done))
    && (forall i :: 0 <= i < |s.tasks| ==>
          s.tasks[i].request == s0.tasks[i].request && TaskFound(s0, done, i, s.tasks[i], timed))
  }

  // ---- One step ----

  lemma StaysNoted(c: Config, s: State, e: Step)
    requires Enabled(c, s, e) && !e.Background? && CallNoted(s.tasks[e.i])
    ensures CallNoted(Next(c, s, e).tasks[e.i])
  {
    if CacheStep(e) {
      CacheStepStaysNoted(c, s, e);
    }
  }

  lemma CacheStepStaysNoted(c: Config, s: State, e: Step)
    requires Enabled(c, s, e) && CacheStep(e) && CallNoted(s.tasks[e.i])
    ensures CallNoted(Next(c, s, e).tasks[e.i])
  {
  }

  /** A task comes to replay from the blob of its row. */
  lemma NewReplay(c: Config, s: State, e: Step)
    requires Enabled(c, s, e) && !e.Background? && CallNoted(s.tasks[e.i]) && Replayed(Next(c, s, e).tasks[e.i])
    ensures var p := s.tasks[e.i].phase;
            var r := Next(c, s, e).tasks[e.i].phase.r;
            || (Replayed(s.tasks[e.i]) && p.r == r)
            || (p.Reading? && p.h in s.storage.blobs && r == Response(p.status, s.storage.blobs[p.h]))
    ensures !e.EvictFirst?
  {
    if CacheStep(e) {
      CacheStepReplay(c, s, e);
    }
  }

  lemma CacheStepReplay(c: Config, s: State, e: Step)
    requires Enabled(c, s, e) && CacheStep(e) && CallNoted(s.tasks[e.i]) && Replayed(Next(c, s, e).tasks[e.i])
    ensures e.FetchBlob? || e.CountHit?
  {
  }

  lemma OnlyEvictFirstLooks(c: Config, s: State, e: Step)
    requires Enabled(c, s, e) && !e.Background? && Next(c, s, e).tasks[e.i].phase.Looking?
    ensures e.EvictFirst?
  {
  }

  lemma FoundByReading(c: Config, s0: State, done: seq<Step>, s: State, e: Step, timed: bool)
    requires Tracked(s0, done, s, timed) && Enabled(c, s, e) && e.ReadRow?
    ensures var p := Next(c, s, e).tasks[e.i].phase;
            Found(s0, done + [e], e.i, s.tasks[e.i].request.cacheKey, Response(p.status, p.h.preimage), timed)
  {
    var key := s.tasks[e.i].request.cacheKey;
    var row := s.storage.tables.rows[key];
    assert TaskFound(s0, done, e.i, s.tasks[e.i], timed);
    var cutoff :| EvictFirst(e.i, cutoff) in done;
    assert EvictFirst(e.i, cutoff) in done + [e];
    assert RowStored(s0, done, s, key);
    StoredForMore(s0, done, e, key, row.workspace, RowResponse(row), row.createdAt);
    assert ReadRow(e.i, row.workspace) in done + [e];
    assert timed ==> Fresh(done + [e], e.i, row.createdAt);
  }

  lemma MovedTaskFound(c: Config, s0: State, done: seq<Step>, s: State, e: Step, timed: bool)
    requires Tracked(s0, done, s, timed) && Enabled(c, s, e) && !e.Background?
    ensures TaskFound(s0, done + [e], e.i, Next(c, s, e).tasks[e.i], timed)
  {
    OneTaskMoves(c, s, e);
    var t := Next(c, s, e).tasks[e.i];
    var p := s.tasks[e.i].phase;
    assert TaskFound(s0, done, e.i, s.tasks[e.i], timed);
    StaysNoted(c, s, e);
    if t.phase.Looking? {
      OnlyEvictFirstLooks(c, s, e);
      assert e == EvictFirst(e.i, e.cutoff) && e in done + [e];
    } else if t.phase.Reading? {
      if !e.ReadRow? {
        OnlyReadRowReads(c, s, e);
      }
      FoundByReading(c, s0, done, s, e, timed);
    } else if Replayed(t) {
      NewReplay(c, s, e);
      FoundMore(s0, done, e, e.i, t.request.cacheKey, t.phase.r, timed);
    }
  }

  lemma OtherTaskFound(s0: State, done: seq<Step>, e: Step, i: nat, t: Task, timed: bool)
    requires TaskFound(s0, done, i, t, timed) && (e.Background? || e.i != i)
    ensures TaskFound(s0, done + [e], i, t, timed)
  {
    if t.phase.Looking? {
      var cutoff :| EvictFirst(i, cutoff) in done;
      assert EvictFirst(i, cutoff) in done + [e];
    } else if t.phase.Reading? {
      FoundMore(s0, done, e, i, t.request.cacheKey, Response(t.phase.status, t.phase.h.preimage), timed);
    } else if Replayed(t) {
      FoundMore(s0, done, e, i, t.request.cacheKey, t.phase.r, timed);
    }
  }

  lemma RowStaysStored(c: Config, s0: State, done: seq<Step>, s: State, e: Step, k: CacheKey)
    requires Enabled(c, s, e) && RowStored(s0, done, s, k)
    ensures RowStored(s0, done + [e], Next(c, s, e), k)
  {
    if k in Next(c, s, e).storage.tables.rows {
      RowStaysOrIsInserted(c, s, e, k);
      var row := Next(c, s, e).storage.tables.rows[k];
      if k in s.storage.tables.rows && SameRow(s.storage.tables.rows[k], row) {
        StoredForMore(s0, done, e, k, row.workspace, RowResponse(row), row.createdAt);
      } else {
        assert e == InsertRow(e.i, e.w) && e in done + [e];
      }
    }
  }

  lemma StepKeepsTracked(c: Config, s0: State, done: seq<Step>, s: State, e: Step, timed: bool)
    requires Tracked(s0, done, s, timed) && Enabled(c, s, e) && (timed ==> StampedAfter(done, e))
    ensures Tracked(s0, done + [e], Next(c, s, e), timed)
  {
    var t := Next(c, s, e);
    OneTaskMoves(c, s, e);
    StepKeepsAddressed(c, s, e);
    if timed {
      StepKeepsOutliving(c, s, done, e);
    }
    forall k
      ensures RowStored(s0, done + [e], t, k)
    {
      RowStaysStored(c, s0, done, s, e, k);
    }
    forall i | 0 <= i < |t.tasks|
      ensures t.tasks[i].request == s0.tasks[i].request && TaskFound(s0, done + [e], i, t.tasks[i], timed)
    {
      assert s.tasks[i].request == s0.tasks[i].request && TaskFound(s0, done, i, s.tasks[i], timed);
      if !e.Background? && i == e.i {
        MovedTaskFound(c, s0, done, s, e, timed);
      } else {
        assert t.tasks[i] == s.tasks[i];
        OtherTaskFound(s0, done, e, i, s.tasks[i], timed);
      }
    }
  }

  lemma {:induction false} RunKeepsTracked(c: Config, s0: State, done: seq<Step>, s: State, es: seq<Step>, t: State, timed: bool)
    requires Tracked(s0, done, s, timed) && Runs(c, s, es, t) && (timed ==> ClockMovesOn(done, es))
    ensures Tracked(s0, done + es, t, timed)
    decreases |es|
  {
    if es == [] {
      assert done + es == done;
    } else {
      StepKeepsTracked(c, s0, done, s, es[0], timed);
      RunKeepsTracked(c, s0, done + [es[0]], Next(c, s, es[0]), es[1..], t, timed);
      assert done + [es[0]] + es[1..] == done + es;
    }
  }

  // ---- Main result ----

  /** The instant is not before that of any eviction by the task. */
  ghost predicate NotExpired(es: seq<Step>, i: nat, at: string) {
    forall x: Instant, y: Instant :: x.Valid() && y.Valid() && at == Render(x) && EvictFirst(i, Render(y)) in es ==>
      !x.Before(y)
  }

  lemma FreshIsNotExpired(es: seq<Step>, i: nat, at: string)
    requires Fresh(es, i, at)
    ensures NotExpired(es, i, at)
  {
    forall x: Instant, y: Instant | x.Valid() && y.Valid() && at == Render(x) && EvictFirst(i, Render(y)) in es
      ensures !x.Before(y)
    {
      var n :| 0 <= n < |es| && es[n] == EvictFirst(i, Render(y));
      assert es[n].EvictFirst? && es[n].i == i;
      TextOrderIsTimeOrder(x, y);
    }
  }

  lemma InitiallyTracked(c: Config, s: State, timed: bool)
    requires Initial(c, s)
    ensures Tracked(s, [], s, timed)
  {
  }

  lemma ReplayFound(c: Config, s: State, es: seq<Step>, t: State, i: nat, timed: bool)
    requires Initial(c, s) && Runs(c, s, es, t) && i < |t.tasks| && Replayed(t.tasks[i])
    requires timed ==> ClockMovesOn([], es)
    ensures i < |s.tasks| && Found(s, es, i, s.tasks[i].request.cacheKey, t.tasks[i].phase.r, timed)
  {
    InitiallyTracked(c, s, timed);
    RunKeepsTracked(c, s, [], s, es, t, timed);
    assert [] + es == es;
    assert TaskFound(s, es, i, t.tasks[i], timed);
  }

  /** A request that is answered from the cache evicted first, then read a row of a
      workspace; the response was stored for its key and that workspace, by an
      insert of the run or before it.  If no row is stamped before a cutoff already
      used, it was stored at an instant not before the cutoff of that eviction. */
  lemma ReplayWithinTtl(c: Config, s: State, es: seq<Step>, t: State, i: nat)
    requires Initial(c, s) && Runs(c, s, es, t) && i < |t.tasks| && Replayed(t.tasks[i])
    ensures i < |s.tasks| && exists cutoff :: EvictFirst(i, cutoff) in es
    ensures exists workspace, at ::
              && ReadRow(i, workspace) in es
              && StoredFor(s, es, s.tasks[i].request.cacheKey, workspace, t.tasks[i].phase.r, at)
              && (ClockMovesOn([], es) ==> NotExpired(es, i, at))
  {
    var timed := ClockMovesOn([], es);
    ReplayFound(c, s, es, t, i, timed);
    var workspace, at :| ReadRow(i, workspace) in es
                         && StoredFor(s, es, s.tasks[i].request.cacheKey, workspace, t.tasks[i].phase.r, at)
                         && (timed ==> Fresh(es, i, at));
    if timed {
      FreshIsNotExpired(es, i, at);
    }
  }
}
