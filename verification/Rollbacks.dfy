/** When a rollback or an orphan cleanup takes a blob that is still needed
    (src/gateway/routes.rs, src/cli/storage.rs).  A rollback does exactly when
    another request stored the same bytes after the blob was written.  A cleanup
    does exactly when a row for the blob was inserted after its scan and stands,
    or a request has stored the bytes without its row yet, or has read a row
    without the blob yet. */
module Rollbacks {
  import opened ContentStore
  import opened SafeCache
  import opened Gateway
  import opened CacheWrites

  // ---- Uses of a blob go back to steps ----

  /** Among the steps, task `j` inserts a row for the blob. */
  ghost predicate Inserts(es: seq<Step>, j: nat, w: Write, h: Digest) {
    InsertRow(j, w) in es && w.Succeeds() && Sha256(w.response.body) == h
  }

  /** A task other than `i` wrote the blob and inserted the row for this key. */
  ghost predicate InsertedBy(es: seq<Step>, i: nat, key: CacheKey, h: Digest) {
    exists j, w :: j != i && Inserts(es, j, w, h) && w.key == key && WriteBlob(j) in es
  }

  /** Every row, writer and reader of the blob goes back to steps of tasks other
      than `i`. */
  ghost predicate UsesAccounted(s: State, es: seq<Step>, i: nat, h: Digest) {
    && (forall key :: RowNames(s, key, h) ==> InsertedBy(es, i, key, h))
    && (forall j :: 0 <= j < |s.tasks| && j != i && IsWriterOf(s.tasks[j].phase, h) ==> WriteBlob(j) in es)
    && (forall j :: 0 <= j < |s.tasks| && IsReaderOf(s.tasks[j].phase, h) ==> exists key :: InsertedBy(es, i, key, h))
  }

  /** Past its cache write. */
  predicate PastWrite(p: Phase) {
    p.Kept? || p.Settling? || p.Finished? || p.Abandoned?
  }

  ghost predicate Accounted(s: State, es: seq<Step>, i: nat, h: Digest) {
    && HashesMatch(s) && i < |s.tasks|
    && (PastWrite(s.tasks[i].phase) || (Writing(s.tasks[i].phase) && UsesAccounted(s, es, i, h)))
  }

  lemma InsertedByMore(es: seq<Step>, e: Step, i: nat, key: CacheKey, h: Digest)
    requires InsertedBy(es, i, key, h)
    ensures InsertedBy(es + [e], i, key, h)
  {
    var j, w :| j != i && Inserts(es, j, w, h) && w.key == key && WriteBlob(j) in es;
    assert Inserts(es + [e], j, w, h);
  }

  lemma PastWriteStays(c: Config, s: State, e: Step)
    requires Enabled(c, s, e) && !e.Background? && PastWrite(s.tasks[e.i].phase)
    ensures PastWrite(Next(c, s, e).tasks[e.i].phase)
  {
  }

  lemma WritingGoesOn(c: Config, s: State, e: Step)
    requires Enabled(c, s, e) && !e.Background? && Writing(s.tasks[e.i].phase)
    ensures var p := Next(c, s, e).tasks[e.i].phase;
            && (PastWrite(p) || Writing(p))
            && (Writing(p) && e.InsertRow? ==> !e.w.Succeeds())
  {
  }

  lemma WriteEnds(c: Config, s: State, e: Step, i: nat)
    requires Enabled(c, s, e) && i < |s.tasks|
    ensures PastWrite(s.tasks[i].phase) ==> PastWrite(Next(c, s, e).tasks[i].phase)
    ensures Writing(s.tasks[i].phase) ==>
              PastWrite(Next(c, s, e).tasks[i].phase) || Writing(Next(c, s, e).tasks[i].phase)
    ensures Writing(s.tasks[i].phase) && Writing(Next(c, s, e).tasks[i].phase) && e.InsertRow? && e.i == i ==>
              !e.w.Succeeds()
  {
    OneTaskMoves(c, s, e);
    if e.Background? || e.i != i {
      assert Next(c, s, e).tasks[i] == s.tasks[i];
    } else if PastWrite(s.tasks[i].phase) {
      PastWriteStays(c, s, e);
    } else if Writing(s.tasks[i].phase) {
      WritingGoesOn(c, s, e);
    }
  }

  lemma RowAccounted(c: Config, s: State, es: seq<Step>, e: Step, i: nat, key: CacheKey, h: Digest)
    requires HashesMatch(s) && UsesAccounted(s, es, i, h) && Enabled(c, s, e) && RowNames(Next(c, s, e), key, h)
    requires e.InsertRow? && e.i == i ==> !e.w.Succeeds()
    ensures InsertedBy(es + [e], i, key, h)
  {
    NewRowIsInserted(c, s, e, key, h);
    if RowNames(s, key, h) {
      InsertedByMore(es, e, i, key, h);
    } else {
      assert HashMatches(s.tasks[e.i].phase);
      assert IsWriterOf(s.tasks[e.i].phase, h);
      assert e == InsertRow(e.i, e.w);
      assert Inserts(es + [e], e.i, e.w, h);
    }
  }

  lemma ReaderAccounted(c: Config, s: State, es: seq<Step>, e: Step, i: nat, j: nat, h: Digest)
    requires UsesAccounted(s, es, i, h) && Enabled(c, s, e) && j < |s.tasks|
    requires IsReaderOf(Next(c, s, e).tasks[j].phase, h)
    ensures exists key :: InsertedBy(es + [e], i, key, h)
  {
    NewReaderReads(c, s, e, j, h);
    if IsReaderOf(s.tasks[j].phase, h) {
      var key :| InsertedBy(es, i, key, h);
      InsertedByMore(es, e, i, key, h);
    } else {
      InsertedByMore(es, e, i, s.tasks[j].request.cacheKey, h);
    }
  }

  lemma StepKeepsAccounted(c: Config, s: State, es: seq<Step>, e: Step, i: nat, h: Digest)
    requires Accounted(s, es, i, h) && Enabled(c, s, e)
    ensures Accounted(Next(c, s, e), es + [e], i, h)
  {
    var t := Next(c, s, e);
    OneTaskMoves(c, s, e);
    StepKeepsHashes(c, s, e);
    WriteEnds(c, s, e, i);
    if !PastWrite(t.tasks[i].phase) {
      forall key | RowNames(t, key, h)
        ensures InsertedBy(es + [e], i, key, h)
      {
        RowAccounted(c, s, es, e, i, key, h);
      }
      forall j | 0 <= j < |t.tasks| && j != i && IsWriterOf(t.tasks[j].phase, h)
        ensures WriteBlob(j) in es + [e]
      {
        NewWriterWrites(c, s, e, j, h);
      }
      forall j | 0 <= j < |t.tasks| && IsReaderOf(t.tasks[j].phase, h)
        ensures exists key :: InsertedBy(es + [e], i, key, h)
      {
        ReaderAccounted(c, s, es, e, i, j, h);
      }
    }
  }

  lemma {:induction false} RunKeepsAccounted(c: Config, s: State, done: seq<Step>, es: seq<Step>, t: State, i: nat, h: Digest)
    requires Accounted(s, done, i, h) && Runs(c, s, es, t)
    ensures Accounted(t, done + es, i, h)
    decreases |es|
  {
    if es == [] {
      assert done + es == done;
    } else {
      StepKeepsAccounted(c, s, done, es[0], i, h);
      RunKeepsAccounted(c, Next(c, s, es[0]), done + [es[0]], es[1..], t, i, h);
      assert done + [es[0]] + es[1..] == done + es;
    }
  }

  // ---- When a rollback takes a needed blob ----

  /** Task `j` stored the bytes within the steps and is about to insert its row,
      or has: the row is still there or in some reader's hand. */
  ghost predicate SharedBy(es: seq<Step>, t: State, j: nat, h: Digest) {
    && WriteBlob(j) in es
    && ((j < |t.tasks| && IsWriterOf(t.tasks[j].phase, h))
        || exists w :: Inserts(es, j, w, h)
             && (RowNames(t, w.key, h) || exists k :: 0 <= k < |t.tasks| && IsReaderOf(t.tasks[k].phase, h)))
  }

  lemma CreatedIsUnused(c: Config, s: State, i: nat)
    requires Enabled(c, s, WriteBlob(i)) && Sha256(s.tasks[i].phase.r.body) !in s.storage.blobs
    requires HashesMatch(s) && !Bare(s, Sha256(s.tasks[i].phase.r.body))
    ensures Accounted(Next(c, s, WriteBlob(i)), [], i, Sha256(s.tasks[i].phase.r.body))
  {
    var h := Sha256(s.tasks[i].phase.r.body);
    var t := Next(c, s, WriteBlob(i));
    StepKeepsHashes(c, s, WriteBlob(i));
    assert !Needed(s, h);
    forall key
      ensures !RowNames(t, key, h)
    {
      assert !RowNames(s, key, h);
    }
    forall j | 0 <= j < |t.tasks| && j != i
      ensures !IsWriterOf(t.tasks[j].phase, h) && !IsReaderOf(t.tasks[j].phase, h)
    {
      assert t.tasks[j] == s.tasks[j];
    }
  }

  /** A task that created its blob, not missed by anyone before, and whose row was
      refused, deletes it again.  That takes a blob still needed if and only if
      another task stored the same bytes in between and is about to insert its row
      or has inserted it. */
  lemma RollbackTakesNeededIff(c: Config, s: State, i: nat, es: seq<Step>, t: State)
    requires Enabled(c, s, WriteBlob(i)) && Sha256(s.tasks[i].phase.r.body) !in s.storage.blobs
    requires HashesMatch(s) && !Bare(s, Sha256(s.tasks[i].phase.r.body))
    requires Runs(c, Next(c, s, WriteBlob(i)), es, t)
    requires i < |t.tasks| && t.tasks[i].phase.Undoing? && t.tasks[i].phase.h == Sha256(s.tasks[i].phase.r.body)
    ensures Enabled(c, t, DropBlob(i))
    ensures Bare(Next(c, t, DropBlob(i)), t.tasks[i].phase.h)
            <==> exists j :: j != i && SharedBy(es, t, j, t.tasks[i].phase.h)
  {
    var h := t.tasks[i].phase.h;
    CreatedIsUnused(c, s, i);
    RunKeepsAccounted(c, Next(c, s, WriteBlob(i)), [], es, t, i, h);
    assert [] + es == es;
    DeletionBares(c, t, DropBlob(i), h);
    if Needed(t, h) {
      NeededIsShared(t, es, i, h);
    }
    if j :| j != i && SharedBy(es, t, j, h) {
      SharedIsNeeded(es, t, j, h);
    }
  }

  /** A deleted blob is missed exactly if it was needed. */
  lemma DeletionBares(c: Config, t: State, e: Step, h: Digest)
    requires Enabled(c, t, e) && h in Deleted(t, e)
    ensures Bare(Next(c, t, e), h) <==> Needed(t, h)
  {
    OnlyDeletedGo(c, t, e);
    if Needed(t, h) {
      DeletionKeepsNeeds(c, t, e, h);
    }
    if Needed(Next(c, t, e), h) {
      DeletionAddsNoNeed(c, t, e, h);
    }
  }

  lemma NeededIsShared(t: State, es: seq<Step>, i: nat, h: Digest)
    requires i < |t.tasks| && t.tasks[i].phase.Undoing? && UsesAccounted(t, es, i, h) && Needed(t, h)
    ensures exists j :: j != i && SharedBy(es, t, j, h)
  {
    if key :| RowNames(t, key, h) {
      var j, w :| j != i && Inserts(es, j, w, h) && w.key == key && WriteBlob(j) in es;
      assert SharedBy(es, t, j, h);
    } else if j :| 0 <= j < |t.tasks| && IsWriterOf(t.tasks[j].phase, h) {
      assert SharedBy(es, t, j, h);
    } else {
      var k :| 0 <= k < |t.tasks| && IsReaderOf(t.tasks[k].phase, h);
      var key :| InsertedBy(es, i, key, h);
      var j, w :| j != i && Inserts(es, j, w, h) && w.key == key && WriteBlob(j) in es;
      assert SharedBy(es, t, j, h);
    }
  }

  lemma SharedIsNeeded(es: seq<Step>, t: State, j: nat, h: Digest)
    requires SharedBy(es, t, j, h)
    ensures Needed(t, h)
  {
  }

  // ---- When a cleanup takes a needed blob ----

  /** Every row that names the blob was inserted within the steps. */
  ghost predicate RowsInserted(s: State, es: seq<Step>, h: Digest) {
    forall key :: RowNames(s, key, h) ==> exists j, w :: Inserts(es, j, w, h) && w.key == key
  }

  lemma StepKeepsRowsInserted(c: Config, s: State, es: seq<Step>, e: Step, h: Digest)
    requires RowsInserted(s, es, h) && Enabled(c, s, e)
    ensures RowsInserted(Next(c, s, e), es + [e], h)
  {
    forall key | RowNames(Next(c, s, e), key, h)
      ensures exists j, w :: Inserts(es + [e], j, w, h) && w.key == key
    {
      NewRowIsInserted(c, s, e, key, h);
      if RowNames(s, key, h) {
        var j, w :| Inserts(es, j, w, h) && w.key == key;
        assert Inserts(es + [e], j, w, h);
      } else {
        assert e == InsertRow(e.i, e.w);
        assert Inserts(es + [e], e.i, e.w, h);
      }
    }
  }

  lemma {:induction false} RunKeepsRowsInserted(c: Config, s: State, done: seq<Step>, es: seq<Step>, t: State, h: Digest)
    requires RowsInserted(s, done, h) && Runs(c, s, es, t)
    ensures RowsInserted(t, done + es, h)
    decreases |es|
  {
    if es == [] {
      assert done + es == done;
    } else {
      StepKeepsRowsInserted(c, s, done, es[0], h);
      RunKeepsRowsInserted(c, Next(c, s, es[0]), done + [es[0]], es[1..], t, h);
      assert done + [es[0]] + es[1..] == done + es;
    }
  }

  lemma {:induction false} TargetsShrink(c: Config, s: State, es: seq<Step>, t: State, k: nat)
    requires Runs(c, s, es, t) && k < |s.collectors|
    ensures k < |t.collectors| && Targets(t.collectors[k]) <= Targets(s.collectors[k])
    decreases |es|
  {
    if es == [] {
    } else {
      var m := Next(c, s, es[0]);
      CollectorsStay(c, s, es[0]);
      forall h | h in Targets(m.collectors[k])
        ensures h in Targets(s.collectors[k])
      {
        TargetsComeFrom(c, s, es[0], k, h);
      }
      TargetsShrink(c, m, es[1..], t, k);
    }
  }

  lemma CollectorsStay(c: Config, s: State, e: Step)
    requires Enabled(c, s, e)
    ensures |Next(c, s, e).collectors| >= |s.collectors|
    ensures e == Background(ScanTables) ==>
              forall k :: 0 <= k < |s.collectors| ==> Next(c, s, e).collectors[k] == s.collectors[k]
  {
    if !e.Background? {
      StorageMoves(c, s, e);
    }
  }

  /** A cleanup deletes a blob that a row names if and only if the row was inserted
      since the cleanup scanned the tables, and is still there. */
  lemma CleanupTakesNamedIff(c: Config, s: State, es: seq<Step>, t: State, h: Digest)
    requires Runs(c, Next(c, s, Background(ScanTables)), es, t)
    requires Enabled(c, t, Background(DeleteOrphan(|s.collectors|, h)))
    ensures (exists key :: RowNames(t, key, h))
            <==> exists j, w :: Inserts(es, j, w, h) && RowNames(t, w.key, h)
  {
    var m := Next(c, s, Background(ScanTables));
    TargetsShrink(c, m, es, t, |s.collectors|);
    assert h !in RowHashes(m.storage.tables.rows);
    forall key
      ensures !RowNames(m, key, h)
    {
      assert key in m.storage.tables.rows ==>
               m.storage.tables.rows[key].responseHash in RowHashes(m.storage.tables.rows);
    }
    RunKeepsRowsInserted(c, m, [], es, t, h);
    assert [] + es == es;
    if key :| RowNames(t, key, h) {
      var j, w :| Inserts(es, j, w, h) && w.key == key;
    }
  }

  /** A row for the blob was inserted within the steps and stands, or a task is
      about to insert one, or is about to read the blob of one. */
  ghost predicate InUse(es: seq<Step>, t: State, h: Digest) {
    || (exists j, w :: Inserts(es, j, w, h) && RowNames(t, w.key, h))
    || (exists i :: 0 <= i < |t.tasks| && (IsWriterOf(t.tasks[i].phase, h) || IsReaderOf(t.tasks[i].phase, h)))
  }

  /** A cleanup takes a blob still needed if and only if, since its scan, a row for
      it was inserted and stands, or a request holds the blob without its row or
      the row without its blob.  Where nothing was missed before, that is the only
      way to break it. */
  lemma CleanupTakesNeededIff(c: Config, s: State, es: seq<Step>, t: State, h: Digest)
    requires Runs(c, Next(c, s, Background(ScanTables)), es, t)
    requires Enabled(c, t, Background(DeleteOrphan(|s.collectors|, h)))
    ensures var u := Next(c, t, Background(DeleteOrphan(|s.collectors|, h)));
            && (Bare(u, h) <==> InUse(es, t, h))
            && (Backed(t) ==> (Backed(u) <==> !InUse(es, t, h)))
  {
    var e := Background(DeleteOrphan(|s.collectors|, h));
    CleanupTakesNamedIff(c, s, es, t, h);
    assert Needed(t, h) <==> InUse(es, t, h);
    DeletionBares(c, t, e, h);
    if Backed(t) {
      assert Deleted(t, e) == {h};
      StepKeepsBackedIff(c, t, e);
    }
  }

  // ---- Where the requests in its way come from ----

  /** A writer was one at the start or wrote within the steps; a reader was one at
      the start or read, within them, a row inserted within them. */
  ghost predicate HoldersTraced(m: State, t: State, es: seq<Step>, h: Digest) {
    && |t.tasks| == |m.tasks| && RowsInserted(t, es, h)
    && (forall i :: 0 <= i < |t.tasks| && IsWriterOf(t.tasks[i].phase, h) ==>
          IsWriterOf(m.tasks[i].phase, h) || WriteBlob(i) in es)
    && (forall i :: 0 <= i < |t.tasks| && IsReaderOf(t.tasks[i].phase, h) ==>
          IsReaderOf(m.tasks[i].phase, h) || exists j, w :: Inserts(es, j, w, h) && w.key == t.tasks[i].request.cacheKey)
  }

  lemma InsertsMore(es: seq<Step>, e: Step, key: CacheKey, h: Digest)
    requires exists j, w :: Inserts(es, j, w, h) && w.key == key
    ensures exists j, w :: Inserts(es + [e], j, w, h) && w.key == key
  {
    var j, w :| Inserts(es, j, w, h) && w.key == key;
    assert Inserts(es + [e], j, w, h);
  }

  lemma ReaderTraced(c: Config, m: State, t: State, es: seq<Step>, e: Step, i: nat, h: Digest)
    requires HoldersTraced(m, t, es, h) && Enabled(c, t, e) && i < |t.tasks|
    requires IsReaderOf(Next(c, t, e).tasks[i].phase, h)
    ensures IsReaderOf(m.tasks[i].phase, h)
         || exists j, w :: Inserts(es + [e], j, w, h) && w.key == t.tasks[i].request.cacheKey
  {
    NewReaderReads(c, t, e, i, h);
    if !IsReaderOf(m.tasks[i].phase, h) {
      InsertsMore(es, e, t.tasks[i].request.cacheKey, h);
    }
  }

  lemma StepKeepsTraced(c: Config, m: State, t: State, es: seq<Step>, e: Step, h: Digest)
    requires HoldersTraced(m, t, es, h) && Enabled(c, t, e)
    ensures HoldersTraced(m, Next(c, t, e), es + [e], h)
  {
    var u := Next(c, t, e);
    OneTaskMoves(c, t, e);
    StepKeepsRowsInserted(c, t, es, e, h);
    forall i | 0 <= i < |u.tasks|
      ensures u.tasks[i].request == t.tasks[i].request
      ensures IsWriterOf(u.tasks[i].phase, h) ==> IsWriterOf(m.tasks[i].phase, h) || WriteBlob(i) in es + [e]
      ensures IsReaderOf(u.tasks[i].phase, h) ==>
                IsReaderOf(m.tasks[i].phase, h)
                || exists j, w :: Inserts(es + [e], j, w, h) && w.key == t.tasks[i].request.cacheKey
    {
      if IsWriterOf(u.tasks[i].phase, h) {
        NewWriterWrites(c, t, e, i, h);
      }
      if IsReaderOf(u.tasks[i].phase, h) {
        ReaderTraced(c, m, t, es, e, i, h);
      }
    }
  }

  lemma {:induction false} RunKeepsTraced(c: Config, m: State, s: State, done: seq<Step>, es: seq<Step>, t: State, h: Digest)
    requires HoldersTraced(m, s, done, h) && Runs(c, s, es, t)
    ensures HoldersTraced(m, t, done + es, h)
    decreases |es|
  {
    if es == [] {
      assert done + es == done;
    } else {
      StepKeepsTraced(c, m, s, done, es[0], h);
      RunKeepsTraced(c, m, Next(c, s, es[0]), done + [es[0]], es[1..], t, h);
      assert done + [es[0]] + es[1..] == done + es;
    }
  }

  /** Since a scan that found no row for the blob, every request that holds it
      either did at the scan, or wrote it, or read a row inserted since. */
  lemma HoldersSinceScan(c: Config, s: State, es: seq<Step>, t: State, h: Digest)
    requires Runs(c, Next(c, s, Background(ScanTables)), es, t)
    requires h !in RowHashes(s.storage.tables.rows)
    ensures HoldersTraced(s, t, es, h)
  {
    var m := Next(c, s, Background(ScanTables));
    assert m.tasks == s.tasks;
    forall key
      ensures !RowNames(m, key, h)
    {
      assert key in s.storage.tables.rows ==>
               s.storage.tables.rows[key].responseHash in RowHashes(s.storage.tables.rows);
    }
    RunKeepsTraced(c, s, m, [], es, t, h);
    assert [] + es == es;
  }
}
