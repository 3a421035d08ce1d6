/** Originals that reductions stored, among interleaved requests
    (src/gateway/routes.rs, src/safe_cache/cache_db.rs).  Registration protects
    an original from the collector unless the cache registered the same bytes
    first.  It does not protect it from a request that wrote the same bytes as its
    own response first and may still take them back. */
module Originals {
  import opened Wrappers
  import opened ContentStore
  import opened SafeCache
  import opened Gateway
  import opened CacheWrites

  /** Running cleanups only target what the cache owns. */
  ghost predicate TargetsOwned(s: State) {
    forall k, h :: 0 <= k < |s.collectors| && h in Targets(s.collectors[k]) ==> h in s.storage.tables.cacheRefs
  }

  lemma OwnedStaysOwned(c: Config, s: State, e: Step, h: Digest)
    requires Enabled(c, s, e)
    ensures h in s.storage.tables.cacheRefs ==> h in Next(c, s, e).storage.tables.cacheRefs
    ensures Protected(s.storage.tables, h) ==> Protected(Next(c, s, e).storage.tables, h)
  {
    if !e.Background? && !e.EvictFirst? && !e.CountHit? && !e.InsertRow? {
      StorageMoves(c, s, e);
    }
  }

  lemma StepKeepsTargetsOwned(c: Config, s: State, e: Step)
    requires TargetsOwned(s) && Enabled(c, s, e)
    ensures TargetsOwned(Next(c, s, e))
  {
    var t := Next(c, s, e);
    forall k, h | 0 <= k < |t.collectors| && h in Targets(t.collectors[k])
      ensures h in t.storage.tables.cacheRefs
    {
      TargetsComeFrom(c, s, e, k, h);
      OwnedStaysOwned(c, s, e, h);
    }
  }

  lemma {:induction false} RunKeepsTargetsOwned(c: Config, s: State, es: seq<Step>, t: State)
    requires TargetsOwned(s) && Runs(c, s, es, t)
    ensures TargetsOwned(t)
    decreases |es|
  {
    if es == [] {
    } else {
      StepKeepsTargetsOwned(c, s, es[0]);
      RunKeepsTargetsOwned(c, Next(c, s, es[0]), es[1..], t);
    }
  }

  /** No request may still delete the blob as its own. */
  ghost predicate NoneTakesBack(s: State, h: Digest) {
    forall i :: 0 <= i < |s.tasks| ==> !MayTakeBack(s.tasks[i].phase, h)
  }

  ghost predicate Safe(s: State, h: Digest) {
    Protected(s.storage.tables, h) && h in s.storage.blobs && TargetsOwned(s) && NoneTakesBack(s, h)
  }

  lemma StepKeepsSafe(c: Config, s: State, e: Step, h: Digest)
    requires Safe(s, h) && Enabled(c, s, e)
    ensures Safe(Next(c, s, e), h)
  {
    var t := Next(c, s, e);
    OneTaskMoves(c, s, e);
    OwnedStaysOwned(c, s, e, h);
    StepKeepsTargetsOwned(c, s, e);
    OnlyDeletedGo(c, s, e);
    assert h !in Deleted(s, e) by {
      if e.DropBlob? {
        assert !MayTakeBack(s.tasks[e.i].phase, h);
      } else if e.Background? && e.o.DeleteOrphan? {
        assert e.o.orphan in Targets(s.collectors[e.o.k]);
      }
    }
    forall i | 0 <= i < |t.tasks|
      ensures !MayTakeBack(t.tasks[i].phase, h)
    {
      assert !MayTakeBack(s.tasks[i].phase, h);
      if MayTakeBack(t.tasks[i].phase, h) {
        TakeBackComesFrom(c, s, e, i, h);
      }
    }
  }

  lemma {:induction false} SafeForever(c: Config, s: State, es: seq<Step>, t: State, h: Digest)
    requires Safe(s, h) && Runs(c, s, es, t)
    ensures h in t.storage.blobs
    decreases |es|
  {
    if es == [] {
    } else {
      StepKeepsSafe(c, s, es[0], h);
      SafeForever(c, Next(c, s, es[0]), es[1..], t, h);
    }
  }

  lemma TakesBack(c: Config, s: State, i: nat, h: Digest) returns (es: seq<Step>, t: State)
    requires i < |s.tasks| && s.tasks[i].phase.Undoing? && s.tasks[i].phase.h == h
    ensures Runs(c, s, es, t) && h !in t.storage.blobs
  {
    t := Next(c, s, DropBlob(i));
    es := [] + [DropBlob(i)];
    RunOn(c, s, [], s, DropBlob(i));
  }

  /** Refused its row, a request that created the blob deletes it. */
  lemma CanTakeBack(c: Config, s: State, i: nat, h: Digest) returns (es: seq<Step>, t: State)
    requires i < |s.tasks| && MayTakeBack(s.tasks[i].phase, h)
    ensures Runs(c, s, es, t) && h !in t.storage.blobs
  {
    if s.tasks[i].phase.Undoing? {
      es, t := TakesBack(c, s, i, h);
    } else {
      var w := Write(s.tasks[i].request.cacheKey, "", "", s.tasks[i].phase.r, 0, 0, "", true, AtQuery);
      var m := Next(c, s, InsertRow(i, w));
      RunOn(c, s, [], s, InsertRow(i, w));
      var rest;
      rest, t := TakesBack(c, m, i, h);
      RunsConcat(c, s, [] + [InsertRow(i, w)], m, rest, t);
      es := [] + [InsertRow(i, w)] + rest;
    }
  }

  ghost predicate KeptInAllRuns(c: Config, s: State, h: Digest) {
    forall es, t :: Runs(c, s, es, t) ==> h in t.storage.blobs
  }

  // ---- What the cache owns ----

  lemma ClearsRows(c: Config, s: State) returns (es: seq<Step>, t: State)
    ensures Runs(c, s, es, t)
    ensures t == s.(storage := s.storage.(tables := s.storage.tables.Opened().Cleared(None)))
  {
    var clear := Background(Operation(Op.Clear(None)));
    t := Next(c, s, clear);
    es := [] + [clear];
    RunOn(c, s, [], s, clear);
  }

  lemma ScansAndLists(c: Config, s: State, h: Digest) returns (es: seq<Step>, t: State)
    requires h in s.storage.tables.known && h in s.storage.tables.cacheRefs && s.storage.tables.rows == map[]
    requires h in s.storage.blobs
    ensures Runs(c, s, es, t) && |t.collectors| == |s.collectors| + 1
    ensures t.collectors[|s.collectors|].Listed? && h in t.collectors[|s.collectors|].orphans
  {
    var scan, list := Background(ScanTables), Background(ListFiles(|s.collectors|));
    var m := Next(c, s, scan);
    RunOn(c, s, [], s, scan);
    t := Next(c, m, list);
    es := [] + [scan] + [list];
    RunOn(c, s, [] + [scan], m, list);
  }

  /** Cleared of its rows, the cache gives up what it owns to a cleanup. */
  lemma CanCollect(c: Config, s: State, h: Digest) returns (es: seq<Step>, t: State)
    requires h in s.storage.tables.known && h in s.storage.tables.cacheRefs && h in s.storage.blobs
    ensures Runs(c, s, es, t) && h !in t.storage.blobs
  {
    var first, l := ClearsRows(c, s);
    assert l.storage.tables.rows == map[];
    var second, m := ScansAndLists(c, l, h);
    RunsConcat(c, s, first, l, second, m);
    var delete := Background(DeleteOrphan(|l.collectors|, h));
    t := Next(c, m, delete);
    es := first + second + [delete];
    RunOn(c, s, first + second, m, delete);
  }

  /** In a reachable state, an original that is present and registered stays in
      every continuation if and only if the cache does not own its hash and no
      request that created the same bytes may still take them back. */
  lemma OriginalKeptIff(c: Config, s0: State, before: seq<Step>, s: State, h: Digest)
    requires Initial(c, s0) && Runs(c, s0, before, s)
    requires h in s.storage.tables.known && h in s.storage.blobs
    ensures KeptInAllRuns(c, s, h) <==> h !in s.storage.tables.cacheRefs && NoneTakesBack(s, h)
  {
    RunKeepsTargetsOwned(c, s0, before, s);
    if h in s.storage.tables.cacheRefs {
      var es, t := CanCollect(c, s, h);
    } else if NoneTakesBack(s, h) {
      forall es, t | Runs(c, s, es, t)
        ensures h in t.storage.blobs
      {
        SafeForever(c, s, es, t, h);
      }
    } else {
      var i :| 0 <= i < |s.tasks| && MayTakeBack(s.tasks[i].phase, h);
      var es, t := CanTakeBack(c, s, i, h);
    }
  }
}
