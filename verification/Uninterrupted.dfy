/** What the steps of the handler and of a cleanup (src/gateway/routes.rs,
    src/cli/storage.rs) add up to when nothing comes in between: a cached read, a
    cache write and an orphan cleanup do to the storage what the operations of the
    sequential cache do as a whole.  And a request that bypasses the cache takes
    none of these steps, whatever comes in between. */
module Uninterrupted {
  import opened ContentStore
  import opened SafeCache
  import opened Gateway

  // ---- A read ----

  lemma Begun(c: Config, s: State)
    ensures Runs(c, s, [], s)
  {
  }

  /** Nothing but this task and the storage changed. */
  ghost predicate OnlyStorage(s: State, t: State, i: nat) {
    MovesOnly(s, t, i) && t == s.(tasks := t.tasks, storage := t.storage)
  }

  lemma MissedRead(c: Config, s: State, i: nat, workspace: string, cutoff: string, now: string)
    returns (es: seq<Step>, t: State)
    requires i < |s.tasks| && s.tasks[i].phase.Leading? && s.tasks[i].request.useCache
    requires var evicted := Storage(s.storage.tables.Opened().Evicted(cutoff), s.storage.blobs);
             var answer := AnswerTo(evicted, s.tasks[i].request.cacheKey, workspace);
             answer.NoRow? || answer.WrongWorkspace?
    ensures Runs(c, s, es, t) && OnlyStorage(s, t, i)
    ensures t.storage == AfterRead(s.storage, s.tasks[i].request.cacheKey, workspace, cutoff, now)
    ensures t.tasks[i].phase == Queued
  {
    var looking := Next(c, s, EvictFirst(i, cutoff));
    Begun(c, s);
    RunOn(c, s, [], s, EvictFirst(i, cutoff));
    RunOn(c, s, [] + [EvictFirst(i, cutoff)], looking, Miss(i));
    es := [] + [EvictFirst(i, cutoff)] + [Miss(i)];
    t := Next(c, looking, Miss(i));
  }

  /** Up to the blob: the row is in hand. */
  lemma FoundRow(c: Config, s: State, i: nat, workspace: string, cutoff: string) returns (es: seq<Step>, t: State)
    requires i < |s.tasks| && s.tasks[i].phase.Leading? && s.tasks[i].request.useCache
    requires var rows := s.storage.tables.Opened().Evicted(cutoff).rows;
             var key := s.tasks[i].request.cacheKey;
             key in rows && rows[key].workspace == workspace
    ensures Runs(c, s, es, t) && OnlyStorage(s, t, i)
    ensures t.storage == Storage(s.storage.tables.Opened().Evicted(cutoff), s.storage.blobs)
    ensures var row := t.storage.tables.rows[s.tasks[i].request.cacheKey];
            t.tasks[i].phase == Reading(row.status, row.responseHash)
  {
    var looking := Next(c, s, EvictFirst(i, cutoff));
    Begun(c, s);
    RunOn(c, s, [], s, EvictFirst(i, cutoff));
    RunOn(c, s, [] + [EvictFirst(i, cutoff)], looking, ReadRow(i, workspace));
    es := [] + [EvictFirst(i, cutoff)] + [ReadRow(i, workspace)];
    t := Next(c, looking, ReadRow(i, workspace));
  }

  /** From the row on: the blob is read and the hit counted, or it is missing. */
  lemma FetchedAndCounted(c: Config, s: State, i: nat, now: string) returns (es: seq<Step>, t: State)
    requires i < |s.tasks| && s.tasks[i].phase.Reading?
    ensures Runs(c, s, es, t) && OnlyStorage(s, t, i)
    ensures var p := s.tasks[i].phase;
            if p.h in s.storage.blobs then
              && t.storage == s.storage.(tables := s.storage.tables.Touched(s.tasks[i].request.cacheKey, now))
              && t.tasks[i].phase == Replaying(Response(p.status, s.storage.blobs[p.h]))
            else t.storage == s.storage && t.tasks[i].phase == Queued
  {
    Begun(c, s);
    RunOn(c, s, [], s, FetchBlob(i));
    es, t := [] + [FetchBlob(i)], Next(c, s, FetchBlob(i));
    if t.tasks[i].phase.Touching? {
      RunOn(c, s, es, t, CountHit(i, now));
      es, t := es + [CountHit(i, now)], Next(c, t, CountHit(i, now));
    }
  }

  /** An uninterrupted read leaves the storage as the sequential read does, and the
      request goes on to replay the response it answers with, or to its own call. */
  lemma ReadUninterrupted(c: Config, s: State, i: nat, workspace: string, cutoff: string, now: string)
    returns (es: seq<Step>, t: State)
    requires i < |s.tasks| && s.tasks[i].phase.Leading? && s.tasks[i].request.useCache
    ensures Runs(c, s, es, t) && OnlyStorage(s, t, i)
    ensures t.storage == SafeCache.Step(s.storage, ReadResponse(s.tasks[i].request.cacheKey, workspace, cutoff, now))
    ensures var evicted := Storage(s.storage.tables.Opened().Evicted(cutoff), s.storage.blobs);
            t.tasks[i].phase == match AnswerTo(evicted, s.tasks[i].request.cacheKey, workspace)
                                case Hit(r) => Replaying(r)
                                case _ => Queued
  {
    var key := s.tasks[i].request.cacheKey;
    var rows := s.storage.tables.Opened().Evicted(cutoff).rows;
    if key in rows && rows[key].workspace == workspace {
      var before, reading := FoundRow(c, s, i, workspace, cutoff);
      var after;
      after, t := FetchedAndCounted(c, reading, i, now);
      RunsConcat(c, s, before, reading, after, t);
      es := before + after;
    } else {
      es, t := MissedRead(c, s, i, workspace, cutoff, now);
    }
  }

  // ---- A write ----

  /** The blob is stored and the row inserted, or refused. */
  lemma StoredAndInserted(c: Config, s: State, i: nat, w: Write) returns (es: seq<Step>, t: State)
    requires i < |s.tasks| && s.tasks[i].phase == Admitted(w.response) && w.key == s.tasks[i].request.cacheKey
    ensures Runs(c, s, es, t) && OnlyStorage(s, t, i)
    ensures var h, body := Sha256(w.response.body), w.response.body;
            && t.storage.blobs == (if h in s.storage.blobs then s.storage.blobs else Stored(s.storage.blobs, body))
            && t.storage.tables == SafeCache.Step(s.storage, WriteResponse(w)).tables
            && t.tasks[i].phase ==
               if w.Succeeds() || h in s.storage.blobs then Kept(w.response) else Undoing(w.response, h)
  {
    var written := Next(c, s, WriteBlob(i));
    Begun(c, s);
    RunOn(c, s, [], s, WriteBlob(i));
    RunOn(c, s, [] + [WriteBlob(i)], written, InsertRow(i, w));
    es, t := [] + [WriteBlob(i)] + [InsertRow(i, w)], Next(c, written, InsertRow(i, w));
  }

  /** An uninterrupted write leaves the storage as the sequential write does,
      whatever statement of it fails, and the request goes on with its response. */
  lemma WriteUninterrupted(c: Config, s: State, i: nat, w: Write) returns (es: seq<Step>, t: State)
    requires i < |s.tasks| && s.tasks[i].phase == Admitted(w.response) && w.key == s.tasks[i].request.cacheKey
    ensures Runs(c, s, es, t) && OnlyStorage(s, t, i)
    ensures t.storage == SafeCache.Step(s.storage, WriteResponse(w))
    ensures t.tasks[i].phase == Kept(w.response)
  {
    es, t := StoredAndInserted(c, s, i, w);
    if t.tasks[i].phase.Undoing? {
      RunOn(c, s, es, t, DropBlob(i));
      es, t := es + [DropBlob(i)], Next(c, t, DropBlob(i));
    }
  }

  // ---- A cleanup ----

  lemma {:induction false} DeletionsUninterrupted(c: Config, s: State, k: nat) returns (es: seq<Step>, t: State)
    requires k < |s.collectors| && s.collectors[k].Listed?
    ensures Runs(c, s, es, t)
    ensures t == s.(storage := t.storage, collectors := s.collectors[k := Listed({})])
    ensures t.storage == s.storage.(blobs := s.storage.blobs - s.collectors[k].orphans)
    decreases s.collectors[k].orphans
  {
    var orphans := s.collectors[k].orphans;
    if orphans == {} {
      es, t := [], s;
      assert s.storage.blobs - {} == s.storage.blobs;
      assert s.collectors[k := Listed({})] == s.collectors;
    } else {
      var h :| h in orphans;
      var e := Background(DeleteOrphan(k, h));
      var next := Next(c, s, e);
      var rest;
      rest, t := DeletionsUninterrupted(c, next, k);
      Prepended(c, s, e, rest, t);
      es := [e] + rest;
      assert s.storage.blobs - {h} - (orphans - {h}) == s.storage.blobs - orphans;
      assert next.collectors[k := Listed({})] == s.collectors[k := Listed({})];
    }
  }

  lemma ScannedAndListed(c: Config, s: State) returns (es: seq<Step>, t: State)
    ensures Runs(c, s, es, t)
    ensures var tables := s.storage.tables.Opened();
            t == s.(storage := Storage(tables, s.storage.blobs),
                    collectors := s.collectors + [Listed(Collectable(tables, s.storage.blobs))])
  {
    var k := |s.collectors|;
    var tables := s.storage.tables.Opened();
    var scanned := Next(c, s, Background(ScanTables));
    Begun(c, s);
    RunOn(c, s, [], s, Background(ScanTables));
    RunOn(c, s, [] + [Background(ScanTables)], scanned, Background(ListFiles(k)));
    es := [] + [Background(ScanTables)] + [Background(ListFiles(k))];
    t := Next(c, scanned, Background(ListFiles(k)));
    assert t.collectors[k].orphans == Collectable(tables, s.storage.blobs);
    assert t.collectors == s.collectors + [Listed(Collectable(tables, s.storage.blobs))];
  }

  /** An uninterrupted cleanup leaves the storage as the sequential cleanup does and
      has nothing left to delete. */
  lemma CleanupUninterrupted(c: Config, s: State) returns (es: seq<Step>, t: State)
    ensures Runs(c, s, es, t)
    ensures t == s.(storage := t.storage, collectors := s.collectors + [Listed({})])
    ensures t.storage == SafeCache.Step(s.storage, Cleanup)
  {
    var before, listed := ScannedAndListed(c, s);
    var after;
    after, t := DeletionsUninterrupted(c, listed, |s.collectors|);
    RunsConcat(c, s, before, listed, after, t);
    es := before + after;
    assert listed.collectors[|s.collectors| := Listed({})] == s.collectors + [Listed({})];
  }

  // ---- Bypassing the cache ----

  /** Between opening the cache and replaying what it has. */
  predicate ReadsCache(p: Phase) {
    p.Looking? || p.Reading? || p.Touching? || p.Replaying?
  }

  /** Between the checks of a cache write and its end. */
  predicate WritesCache(p: Phase) {
    p.AtLimit? || p.Counted? || p.Admitted? || p.Written? || p.Undoing?
  }

  predicate CachesIfAsked(t: Task) {
    ReadsCache(t.phase) || WritesCache(t.phase) ==> t.request.useCache
  }

  ghost predicate AllCacheIfAsked(s: State) {
    forall i :: 0 <= i < |s.tasks| ==> CachesIfAsked(s.tasks[i])
  }

  lemma CacheStepIfAsked(c: Config, s: State, e: Step)
    requires Enabled(c, s, e) && CacheStep(e) && CachesIfAsked(s.tasks[e.i])
    ensures CachesIfAsked(Next(c, s, e).tasks[e.i])
  {
  }

  lemma OtherStepIfAsked(c: Config, s: State, e: Step)
    requires Enabled(c, s, e) && !CacheStep(e) && !e.Background?
    ensures CachesIfAsked(Next(c, s, e).tasks[e.i])
  {
  }

  lemma StepKeepsAsked(c: Config, s: State, e: Step)
    requires Enabled(c, s, e) && AllCacheIfAsked(s)
    ensures AllCacheIfAsked(Next(c, s, e))
  {
    OneTaskMoves(c, s, e);
    if !e.Background? {
      assert CachesIfAsked(s.tasks[e.i]);
      if CacheStep(e) {
        CacheStepIfAsked(c, s, e);
      } else {
        OtherStepIfAsked(c, s, e);
      }
    }
  }

  lemma {:induction false} RunKeepsAsked(c: Config, s: State, es: seq<Step>, t: State)
    requires Runs(c, s, es, t) && AllCacheIfAsked(s)
    ensures AllCacheIfAsked(t)
    decreases |es|
  {
    if es == [] {
    } else {
      StepKeepsAsked(c, s, es[0]);
      RunKeepsAsked(c, Next(c, s, es[0]), es[1..], t);
    }
  }

  /** A request that bypasses the cache neither reads nor writes it, in any run. */
  lemma BypassStaysOut(c: Config, s: State, es: seq<Step>, t: State, i: nat)
    requires Initial(c, s) && Runs(c, s, es, t) && i < |t.tasks| && !t.tasks[i].request.useCache
    ensures !ReadsCache(t.tasks[i].phase) && !WritesCache(t.tasks[i].phase)
  {
    RunKeepsAsked(c, s, es, t);
    assert CachesIfAsked(t.tasks[i]);
  }
}
