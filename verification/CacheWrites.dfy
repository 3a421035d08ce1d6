/** Cache writes, cached reads and orphan cleanups of interleaved requests
    (src/gateway/routes.rs, src/cli/storage.rs).  A write is a blob, then a row,
    then perhaps the removal of the blob again; a read is a row, then its blob;
    a cleanup scans, then deletes.  Main result: requests that do not store the
    same bytes at the same time, beside cleanups that run alone, keep every row's
    blob. */
module CacheWrites {
  import opened ContentStore
  import opened SafeCache
  import opened Gateway

  // ---- Which blobs are needed ----

  predicate IsWriterOf(p: Phase, h: Digest) {
    p.Written? && p.h == h
  }

  predicate IsReaderOf(p: Phase, h: Digest) {
    p.Reading? && p.h == h
  }

  predicate RowNames(s: State, key: CacheKey, h: Digest) {
    key in s.storage.tables.rows && s.storage.tables.rows[key].responseHash == h
  }

  /** A row names the blob, or a task is about to insert such a row, or has one in
      hand. */
  ghost predicate Needed(s: State, h: Digest) {
    || (exists key :: RowNames(s, key, h))
    || (exists i :: 0 <= i < |s.tasks| && IsWriterOf(s.tasks[i].phase, h))
    || (exists i :: 0 <= i < |s.tasks| && IsReaderOf(s.tasks[i].phase, h))
  }

  ghost predicate Bare(s: State, h: Digest) {
    Needed(s, h) && h !in s.storage.blobs
  }

  /** Past the blob, a task has the hash of its response. */
  predicate HashMatches(p: Phase) {
    p.Written? || p.Undoing? ==> p.h == Sha256(p.r.body)
  }

  ghost predicate HashesMatch(s: State) {
    forall i :: 0 <= i < |s.tasks| ==> HashMatches(s.tasks[i].phase)
  }

  /** Every needed blob is there. */
  ghost predicate Backed(s: State) {
    Sound(s.storage) && HashesMatch(s) && forall h :: Needed(s, h) ==> h in s.storage.blobs
  }

  lemma StepKeepsHashes(c: Config, s: State, e: Step)
    requires HashesMatch(s) && Enabled(c, s, e)
    ensures HashesMatch(Next(c, s, e))
  {
    OneTaskMoves(c, s, e);
    if !e.Background? {
      assert HashMatches(s.tasks[e.i].phase);
      TaskKeepsHash(c, s, e);
    }
  }

  lemma WriteGetsHash(c: Config, s: State, e: Step)
    requires Enabled(c, s, e) && e.WriteBlob?
    ensures HashMatches(Next(c, s, e).tasks[e.i].phase)
  {
  }

  lemma InsertKeepsHash(c: Config, s: State, e: Step)
    requires Enabled(c, s, e) && e.InsertRow? && HashMatches(s.tasks[e.i].phase)
    ensures HashMatches(Next(c, s, e).tasks[e.i].phase)
  {
  }

  lemma OtherStepsHaveNoHash(c: Config, s: State, e: Step)
    requires Enabled(c, s, e) && !e.Background? && !e.WriteBlob? && !e.InsertRow?
    ensures !Writing(Next(c, s, e).tasks[e.i].phase)
  {
  }

  lemma TaskKeepsHash(c: Config, s: State, e: Step)
    requires Enabled(c, s, e) && !e.Background? && HashMatches(s.tasks[e.i].phase)
    ensures HashMatches(Next(c, s, e).tasks[e.i].phase)
  {
    if e.WriteBlob? {
      WriteGetsHash(c, s, e);
    } else if e.InsertRow? {
      InsertKeepsHash(c, s, e);
    } else {
      OtherStepsHaveNoHash(c, s, e);
    }
  }

  // ---- What a step comes to need ----

  /** A row that was not there is the one being inserted. */
  lemma NewRowIsInserted(c: Config, s: State, e: Step, key: CacheKey, h: Digest)
    requires Enabled(c, s, e) && RowNames(Next(c, s, e), key, h)
    ensures RowNames(s, key, h)
         || (e.InsertRow? && e.w.Succeeds() && e.w.key == key && h == Sha256(e.w.response.body))
  {
    if !e.Background? && !e.EvictFirst? && !e.CountHit? && !e.InsertRow? {
      StorageMoves(c, s, e);
    }
  }

  lemma OnlyWriteBlobMakesWriters(c: Config, s: State, e: Step)
    requires Enabled(c, s, e) && !e.Background? && Next(c, s, e).tasks[e.i].phase.Written?
    ensures e.WriteBlob?
  {
  }

  lemma NewWriterWrites(c: Config, s: State, e: Step, j: nat, h: Digest)
    requires Enabled(c, s, e) && j < |s.tasks| && IsWriterOf(Next(c, s, e).tasks[j].phase, h)
    ensures IsWriterOf(s.tasks[j].phase, h)
         || (e == WriteBlob(j) && h == Sha256(s.tasks[j].phase.r.body) && h in Next(c, s, e).storage.blobs)
  {
    OneTaskMoves(c, s, e);
    if e.Background? || e.i != j {
      assert Next(c, s, e).tasks[j] == s.tasks[j];
    } else {
      OnlyWriteBlobMakesWriters(c, s, e);
    }
  }

  lemma OnlyReadRowMakesReaders(c: Config, s: State, e: Step)
    requires Enabled(c, s, e) && !e.Background? && Next(c, s, e).tasks[e.i].phase.Reading?
    ensures e.ReadRow?
  {
  }

  lemma NewReaderReads(c: Config, s: State, e: Step, j: nat, h: Digest)
    requires Enabled(c, s, e) && j < |s.tasks| && IsReaderOf(Next(c, s, e).tasks[j].phase, h)
    ensures IsReaderOf(s.tasks[j].phase, h) || (e.ReadRow? && RowNames(s, s.tasks[j].request.cacheKey, h))
  {
    OneTaskMoves(c, s, e);
    if e.Background? || e.i != j {
      assert Next(c, s, e).tasks[j] == s.tasks[j];
    } else {
      OnlyReadRowMakesReaders(c, s, e);
    }
  }

  /** A blob that comes to be needed is there or was needed before. */
  lemma NewlyNeeded(c: Config, s: State, e: Step, h: Digest)
    requires HashesMatch(s) && Enabled(c, s, e) && Needed(Next(c, s, e), h)
    ensures Needed(s, h) || (e.WriteBlob? && h in Next(c, s, e).storage.blobs)
  {
    var t := Next(c, s, e);
    OneTaskMoves(c, s, e);
    if key :| RowNames(t, key, h) {
      NewRowIsInserted(c, s, e, key, h);
      if !RowNames(s, key, h) {
        assert HashMatches(s.tasks[e.i].phase);
        assert IsWriterOf(s.tasks[e.i].phase, h);
      }
    } else if j :| 0 <= j < |t.tasks| && IsWriterOf(t.tasks[j].phase, h) {
      NewWriterWrites(c, s, e, j, h);
    } else {
      var j :| 0 <= j < |t.tasks| && IsReaderOf(t.tasks[j].phase, h);
      NewReaderReads(c, s, e, j, h);
    }
  }

  /** The hash of the blob that a step deletes, if it deletes one. */
  function Deleted(s: State, e: Step): set<Digest> {
    if e.DropBlob? && e.i < |s.tasks| && s.tasks[e.i].phase.Undoing? then {s.tasks[e.i].phase.h}
    else if e.Background? && e.o.DeleteOrphan? then {e.o.orphan}
    else {}
  }

  lemma OnlyDeletedGo(c: Config, s: State, e: Step)
    requires Enabled(c, s, e)
    ensures s.storage.blobs.Keys - Deleted(s, e) <= Next(c, s, e).storage.blobs.Keys
    ensures Deleted(s, e) !! Next(c, s, e).storage.blobs.Keys
  {
    if !e.Background? && !e.WriteBlob? && !e.DropBlob? {
      StorageMoves(c, s, e);
    }
  }

  /** Tables and directory apart from missing blobs. */
  ghost predicate Registered(s: Storage) {
    && Addressed(s.blobs) && s.tables.cacheRefs <= s.tables.known
    && forall k :: k in s.tables.rows ==> s.tables.rows[k].responseHash in s.tables.known
  }

  lemma OutsideKeepsRegistered(s: State, o: Outside)
    requires Registered(s.storage) && OutsideEnabled(s, o)
    ensures Registered(AfterOutside(s, o).storage)
  {
  }

  lemma StepKeepsRegistered(c: Config, s: State, e: Step)
    requires Registered(s.storage) && Enabled(c, s, e)
    ensures Registered(Next(c, s, e).storage)
  {
    if e.Background? {
      OutsideKeepsRegistered(s, e.o);
    } else if !e.EvictFirst? && !e.CountHit? && !e.InsertRow? && !e.WriteBlob? && !e.DropBlob? {
      StorageMoves(c, s, e);
    }
  }

  /** A step that deletes no needed blob keeps every needed blob. */
  lemma StepKeepsBacked(c: Config, s: State, e: Step)
    requires Backed(s) && Enabled(c, s, e) && forall h :: h in Deleted(s, e) ==> !Needed(s, h)
    ensures Backed(Next(c, s, e))
  {
    var t := Next(c, s, e);
    StepKeepsHashes(c, s, e);
    StepKeepsRegistered(c, s, e);
    OnlyDeletedGo(c, s, e);
    forall h | Needed(t, h)
      ensures h in t.storage.blobs
    {
      NewlyNeeded(c, s, e, h);
    }
    assert forall k :: k in t.storage.tables.rows ==> RowNames(t, k, t.storage.tables.rows[k].responseHash);
  }

  lemma DeletionKeepsNeeds(c: Config, s: State, e: Step, h: Digest)
    requires Enabled(c, s, e) && h in Deleted(s, e) && Needed(s, h)
    ensures Needed(Next(c, s, e), h)
  {
    var t := Next(c, s, e);
    OneTaskMoves(c, s, e);
    if key :| RowNames(s, key, h) {
      assert RowNames(t, key, h);
    } else if j :| 0 <= j < |s.tasks| && IsWriterOf(s.tasks[j].phase, h) {
      assert t.tasks[j] == s.tasks[j];
    } else {
      var j :| 0 <= j < |s.tasks| && IsReaderOf(s.tasks[j].phase, h);
      assert t.tasks[j] == s.tasks[j];
    }
  }

  lemma DeletionAddsNoNeed(c: Config, s: State, e: Step, h: Digest)
    requires Enabled(c, s, e) && h in Deleted(s, e) && Needed(Next(c, s, e), h)
    ensures Needed(s, h)
  {
    var t := Next(c, s, e);
    OneTaskMoves(c, s, e);
    if key :| RowNames(t, key, h) {
      NewRowIsInserted(c, s, e, key, h);
    } else if j :| 0 <= j < |t.tasks| && IsWriterOf(t.tasks[j].phase, h) {
      NewWriterWrites(c, s, e, j, h);
    } else {
      var j :| 0 <= j < |t.tasks| && IsReaderOf(t.tasks[j].phase, h);
      NewReaderReads(c, s, e, j, h);
    }
  }

  lemma StepKeepsBackedIff(c: Config, s: State, e: Step)
    requires Backed(s) && Enabled(c, s, e)
    ensures Backed(Next(c, s, e)) <==> forall h :: h in Deleted(s, e) ==> !Needed(s, h)
  {
    if forall h :: h in Deleted(s, e) ==> !Needed(s, h) {
      StepKeepsBacked(c, s, e);
    } else {
      var h :| h in Deleted(s, e) && Needed(s, h);
      DeletionKeepsNeeds(c, s, e, h);
      OnlyDeletedGo(c, s, e);
    }
  }

  predicate Deletes(e: Step) {
    e.DropBlob? || (e.Background? && e.o.DeleteOrphan?)
  }

  /** Runs in which no insert is rolled back and no cleanup deletes keep every
      needed blob, whatever bytes the requests share. */
  lemma {:induction false} WithoutDeletions(c: Config, s: State, es: seq<Step>, t: State)
    requires Backed(s) && Runs(c, s, es, t) && forall e :: e in es ==> !Deletes(e)
    ensures Backed(t)
    decreases |es|
  {
    if es == [] {
    } else {
      assert es[0] in es;
      StepKeepsBacked(c, s, es[0]);
      WithoutDeletions(c, Next(c, s, es[0]), es[1..], t);
    }
  }

  // ---- Requests that do not share bytes, cleanups that run alone ----

  /** From the blob to the end of the write or of its rollback. */
  predicate Writing(p: Phase) {
    p.Written? || p.Undoing?
  }

  /** No two requests that are writing have the same bytes. */
  ghost predicate NoSharedBytes(s: State) {
    forall i, j :: 0 <= i < j < |s.tasks| && Writing(s.tasks[i].phase) && Writing(s.tasks[j].phase) ==>
      s.tasks[i].phase.r.body != s.tasks[j].phase.r.body
  }

  function Targets(g: Collector): set<Digest> {
    match g
    case Scanned(loose) => loose
    case Listed(orphans) => orphans
  }

  /** While a cleanup may still delete, no request has written a blob for which it
      has yet to insert the row, or read a row of which it has yet to read the blob. */
  ghost predicate CleanupsAlone(s: State) {
    forall k, i :: 0 <= k < |s.collectors| && 0 <= i < |s.tasks| && Targets(s.collectors[k]) != {} ==>
      !s.tasks[i].phase.Written? && !s.tasks[i].phase.Reading?
  }

  ghost predicate Orderly(s: State) {
    NoSharedBytes(s) && CleanupsAlone(s)
  }

  ghost predicate OrderlyRun(c: Config, s: State, es: seq<Step>)
    decreases |es|
  {
    Orderly(s) && (es == [] || (Enabled(c, s, es[0]) && OrderlyRun(c, Next(c, s, es[0]), es[1..])))
  }

  /** The blob that a task would take back is named by no row and read by no one. */
  predicate MayTakeBack(p: Phase, h: Digest) {
    (p.Written? && p.created && p.h == h) || (p.Undoing? && p.h == h)
  }

  ghost predicate NamedOrRead(s: State, h: Digest) {
    || (exists key :: RowNames(s, key, h))
    || (exists i :: 0 <= i < |s.tasks| && IsReaderOf(s.tasks[i].phase, h))
  }

  ghost predicate OwnBlobs(s: State) {
    forall i, h :: 0 <= i < |s.tasks| && MayTakeBack(s.tasks[i].phase, h) ==> !NamedOrRead(s, h)
  }

  ghost predicate TargetsUnnamed(s: State) {
    forall k, h :: 0 <= k < |s.collectors| && h in Targets(s.collectors[k]) ==> forall key :: !RowNames(s, key, h)
  }

  ghost predicate Steady(s: State) {
    Backed(s) && OwnBlobs(s) && TargetsUnnamed(s)
  }

  lemma SharedBytes(s: State, i: nat, j: nat)
    requires NoSharedBytes(s) && i < |s.tasks| && j < |s.tasks| && i != j
    requires Writing(s.tasks[i].phase) && Writing(s.tasks[j].phase)
    ensures s.tasks[i].phase.r.body != s.tasks[j].phase.r.body
  {
    assert i < j || j < i;
  }

  lemma DeletesNothingNeeded(c: Config, s: State, e: Step, h: Digest)
    requires Steady(s) && Orderly(s) && Enabled(c, s, e) && h in Deleted(s, e)
    ensures !Needed(s, h)
  {
    if e.DropBlob? {
      assert MayTakeBack(s.tasks[e.i].phase, h) && HashMatches(s.tasks[e.i].phase);
      forall j | 0 <= j < |s.tasks|
        ensures !IsWriterOf(s.tasks[j].phase, h)
      {
        if j != e.i && Writing(s.tasks[j].phase) {
          assert HashMatches(s.tasks[j].phase);
          SharedBytes(s, e.i, j);
        }
      }
      assert !NamedOrRead(s, h);
    } else {
      assert h in Targets(s.collectors[e.o.k]);
    }
  }

  lemma OnlyRefusedRowsUndo(c: Config, s: State, e: Step)
    requires Enabled(c, s, e) && !e.Background? && Next(c, s, e).tasks[e.i].phase.Undoing?
    ensures e.InsertRow? && !e.w.Succeeds()
    ensures MayTakeBack(s.tasks[e.i].phase, Next(c, s, e).tasks[e.i].phase.h)
  {
  }

  lemma TakeBackComesFrom(c: Config, s: State, e: Step, i: nat, h: Digest)
    requires Enabled(c, s, e) && i < |s.tasks| && MayTakeBack(Next(c, s, e).tasks[i].phase, h)
    ensures MayTakeBack(s.tasks[i].phase, h)
         || (e == WriteBlob(i) && h !in s.storage.blobs && h == Sha256(s.tasks[i].phase.r.body))
    ensures e.InsertRow? && e.i == i ==> !e.w.Succeeds()
  {
    OneTaskMoves(c, s, e);
    if e.Background? || e.i != i {
      assert Next(c, s, e).tasks[i] == s.tasks[i];
    } else if Next(c, s, e).tasks[i].phase.Undoing? {
      OnlyRefusedRowsUndo(c, s, e);
    } else {
      OnlyWriteBlobMakesWriters(c, s, e);
    }
  }

  /** What comes to be named or read was, or is the blob of a row being inserted. */
  lemma NewlyNamedOrRead(c: Config, s: State, e: Step, h: Digest)
    requires HashesMatch(s) && Enabled(c, s, e) && NamedOrRead(Next(c, s, e), h)
    ensures NamedOrRead(s, h)
         || (e.InsertRow? && e.w.Succeeds() && h == Sha256(s.tasks[e.i].phase.r.body) && h == s.tasks[e.i].phase.h)
  {
    var t := Next(c, s, e);
    OneTaskMoves(c, s, e);
    if key :| RowNames(t, key, h) {
      NewRowIsInserted(c, s, e, key, h);
      if !RowNames(s, key, h) {
        assert HashMatches(s.tasks[e.i].phase);
      }
    } else {
      var j :| 0 <= j < |t.tasks| && IsReaderOf(t.tasks[j].phase, h);
      NewReaderReads(c, s, e, j, h);
    }
  }

  lemma StepKeepsOwnBlob(c: Config, s: State, e: Step, i: nat, h: Digest)
    requires Steady(s) && Orderly(s) && Enabled(c, s, e)
    requires i < |s.tasks| && MayTakeBack(Next(c, s, e).tasks[i].phase, h)
    ensures !NamedOrRead(Next(c, s, e), h)
  {
    TakeBackComesFrom(c, s, e, i, h);
    if MayTakeBack(s.tasks[i].phase, h) {
      assert !NamedOrRead(s, h) && HashMatches(s.tasks[i].phase);
      if e.InsertRow? && e.i != i {
        SharedBytes(s, i, e.i);
      }
    } else {
      assert !Needed(s, h);
    }
    if NamedOrRead(Next(c, s, e), h) {
      NewlyNamedOrRead(c, s, e, h);
    }
  }

  lemma StepKeepsOwnBlobs(c: Config, s: State, e: Step)
    requires Steady(s) && Orderly(s) && Enabled(c, s, e)
    ensures OwnBlobs(Next(c, s, e))
  {
    OneTaskMoves(c, s, e);
    forall i, h | 0 <= i < |s.tasks| && MayTakeBack(Next(c, s, e).tasks[i].phase, h)
      ensures !NamedOrRead(Next(c, s, e), h)
    {
      StepKeepsOwnBlob(c, s, e, i, h);
    }
  }

  lemma TargetsComeFrom(c: Config, s: State, e: Step, k: nat, h: Digest)
    requires Enabled(c, s, e) && k < |Next(c, s, e).collectors| && h in Targets(Next(c, s, e).collectors[k])
    ensures (k < |s.collectors| && h in Targets(s.collectors[k]))
         || (e == Background(ScanTables) && h in s.storage.tables.cacheRefs && h !in RowHashes(s.storage.tables.rows))
  {
    if !e.Background? {
      StorageMoves(c, s, e);
    }
  }

  lemma StepKeepsTargetsUnnamed(c: Config, s: State, e: Step)
    requires Steady(s) && Orderly(s) && Enabled(c, s, e)
    ensures TargetsUnnamed(Next(c, s, e))
  {
    var t := Next(c, s, e);
    forall k, h, key | 0 <= k < |t.collectors| && h in Targets(t.collectors[k])
      ensures !RowNames(t, key, h)
    {
      TargetsComeFrom(c, s, e, k, h);
      if RowNames(t, key, h) {
        NewRowIsInserted(c, s, e, key, h);
      }
      assert k < |s.collectors| && h in Targets(s.collectors[k]) ==> !RowNames(s, key, h);
    }
  }

  lemma {:induction false} OrderlyRunIsSteady(c: Config, s: State, es: seq<Step>, t: State)
    requires Steady(s) && Runs(c, s, es, t) && OrderlyRun(c, s, es)
    ensures Steady(t)
    decreases |es|
  {
    if es == [] {
    } else {
      forall h | h in Deleted(s, es[0])
        ensures !Needed(s, h)
      {
        DeletesNothingNeeded(c, s, es[0], h);
      }
      StepKeepsBacked(c, s, es[0]);
      StepKeepsOwnBlobs(c, s, es[0]);
      StepKeepsTargetsUnnamed(c, s, es[0]);
      OrderlyRunIsSteady(c, Next(c, s, es[0]), es[1..], t);
    }
  }

  /** Started with every row's blob in place, a run in which no two requests write
      the same bytes at the same time, and cleanups run alone, keeps them in place;
      and a request that found a row finds its blob. */
  lemma OrderlyRunKeepsBlobs(c: Config, s: State, es: seq<Step>, t: State)
    requires Initial(c, s) && Sound(s.storage) && Runs(c, s, es, t) && OrderlyRun(c, s, es)
    ensures Sound(t.storage)
    ensures forall i :: 0 <= i < |t.tasks| && t.tasks[i].phase.Reading? ==>
              BlobFetched(t, i).tasks[i].phase.Touching?
  {
    forall h | Needed(s, h)
      ensures h in s.storage.blobs
    {
      var key :| RowNames(s, key, h);
    }
    OrderlyRunIsSteady(c, s, es, t);
    forall i | 0 <= i < |t.tasks| && t.tasks[i].phase.Reading?
      ensures t.tasks[i].phase.h in t.storage.blobs
    {
      assert IsReaderOf(t.tasks[i].phase, t.tasks[i].phase.h);
    }
  }
}
