/** The storage limits (src/gateway/routes.rs): checked first, written later,
    with other requests in between.  A task holds its upstream permit from the
    check to the write, so the limits can be overshot, but by a known amount:
    all but one of the permits, in rows, or in bodies of the largest size. */
module Quotas {
  import opened ContentStore
  import opened SafeCache
  import opened Gateway
  import opened Permits

  // ---- Rows ----

  /** Keys of the tasks that passed the row limit and have not inserted yet. */
  ghost function InFlightKeys(ts: seq<Task>): (keys: set<CacheKey>)
    ensures forall i :: 0 <= i < |ts| && BeforeInsert(ts[i].phase) ==> ts[i].request.cacheKey in keys
    ensures forall k :: k in keys ==>
              exists i :: 0 <= i < |ts| && BeforeInsert(ts[i].phase) && ts[i].request.cacheKey == k
  {
    if ts == [] then {}
    else
      var rest := InFlightKeys(ts[1..]);
      assert forall i :: 0 < i < |ts| ==> ts[i] == ts[1..][i - 1];
      if BeforeInsert(ts[0].phase) then rest + {ts[0].request.cacheKey} else rest
  }

  lemma {:induction false} KeysAtMostHolders(ts: seq<Task>)
    ensures |InFlightKeys(ts)| <= Total(ts, Holding)
    decreases |ts|
  {
    if ts == [] {
    } else {
      KeysAtMostHolders(ts[1..]);
    }
  }

  lemma UnionSize<T>(a: set<T>, b: set<T>)
    ensures |a + b| <= |a| + |b|
  {
    assert a + b == a + (b - a);
    CardinalityOfSubset(b - a, b);
  }

  /** Keys that have a row or are about to. */
  ghost function Reserved(s: State): set<CacheKey> {
    s.storage.tables.rows.Keys + InFlightKeys(s.tasks)
  }

  ghost predicate RowsBounded(c: Config, s: State) {
    c.maxEntries.Some? ==> |Reserved(s)| <= c.maxEntries.value + c.maxConcurrent - 1
  }

  lemma OutsideNeverAddsRows(s: State, o: Outside)
    requires OutsideEnabled(s, o)
    ensures AfterOutside(s, o).storage.tables.rows.Keys <= s.storage.tables.rows.Keys
  {
  }

  lemma OnlyChecksEnterInsert(c: Config, s: State, e: Step)
    requires Enabled(c, s, e) && !e.CountRows? && !e.FindExisting? && !e.Background?
    requires BeforeInsert(Next(c, s, e).tasks[e.i].phase)
    ensures BeforeInsert(s.tasks[e.i].phase)
  {
  }

  /** Only passing the row-limit check makes a task one that is about to insert. */
  lemma EntersInsert(c: Config, s: State, e: Step)
    requires Enabled(c, s, e) && !e.CountRows? && !e.Background?
    requires BeforeInsert(Next(c, s, e).tasks[e.i].phase)
    ensures s.tasks[e.i].request.cacheKey in Reserved(s)
  {
    if e.FindExisting? {
      assert s.tasks[e.i].request.cacheKey in s.storage.tables.rows.Keys;
    } else {
      OnlyChecksEnterInsert(c, s, e);
      assert s.tasks[e.i].request.cacheKey in InFlightKeys(s.tasks);
    }
  }

  lemma InsertAddsItsKey(s: State, i: nat, w: Write)
    requires i < |s.tasks| && s.tasks[i].phase.Written?
    ensures RowInserted(s, i, w).storage.tables.rows.Keys <= s.storage.tables.rows.Keys + {w.key}
    ensures w.Succeeds() ==> w.key in RowInserted(s, i, w).storage.tables.rows.Keys
    ensures s.storage.tables.rows.Keys <= RowInserted(s, i, w).storage.tables.rows.Keys
  {
  }

  /** Only inserting a row adds a key. */
  lemma RowsShrink(c: Config, s: State, e: Step)
    requires Enabled(c, s, e) && !e.InsertRow?
    ensures Next(c, s, e).storage.tables.rows.Keys <= s.storage.tables.rows.Keys
  {
    if e.Background? {
      OutsideNeverAddsRows(s, e.o);
    } else if !e.EvictFirst? && !e.CountHit? {
      StorageMoves(c, s, e);
    }
  }

  lemma RowsWithinReserved(c: Config, s: State, e: Step)
    requires Enabled(c, s, e)
    ensures Next(c, s, e).storage.tables.rows.Keys <= Reserved(s)
  {
    if e.InsertRow? {
      assert e.w.key in InFlightKeys(s.tasks);
      InsertAddsItsKey(s, e.i, e.w);
    } else {
      RowsShrink(c, s, e);
    }
  }

  /** Only passing the row-limit check can reserve a key. */
  lemma ReservationsShrink(c: Config, s: State, e: Step)
    requires Enabled(c, s, e) && !e.CountRows?
    ensures Reserved(Next(c, s, e)) <= Reserved(s)
  {
    var t := Next(c, s, e);
    OneTaskMoves(c, s, e);
    RowsWithinReserved(c, s, e);
    forall k | k in InFlightKeys(t.tasks)
      ensures k in Reserved(s)
    {
      var i :| 0 <= i < |t.tasks| && BeforeInsert(t.tasks[i].phase) && t.tasks[i].request.cacheKey == k;
      if !e.Background? && i == e.i {
        EntersInsert(c, s, e);
      } else {
        assert t.tasks[i] == s.tasks[i];
      }
    }
  }

  /** At the limit, counting the rows reserves nothing. */
  lemma FullCountReservesNothing(c: Config, s: State, e: Step)
    requires Enabled(c, s, e) && e.CountRows?
    requires c.maxEntries.Some? && |s.storage.tables.rows| >= c.maxEntries.value
    ensures Reserved(Next(c, s, e)) <= Reserved(s)
  {
    var t := Next(c, s, e);
    forall k | k in InFlightKeys(t.tasks)
      ensures k in InFlightKeys(s.tasks)
    {
      var i :| 0 <= i < |t.tasks| && BeforeInsert(t.tasks[i].phase) && t.tasks[i].request.cacheKey == k;
      assert i != e.i && t.tasks[i] == s.tasks[i];
    }
  }

  lemma StepKeepsRowsBounded(c: Config, s: State, e: Step)
    requires c.Valid() && PermitsBalance(c, s) && RowsBounded(c, s) && Enabled(c, s, e)
    ensures RowsBounded(c, Next(c, s, e))
  {
    var t := Next(c, s, e);
    if c.maxEntries.Some? {
      if e.CountRows? && |s.storage.tables.rows| < c.maxEntries.value {
        StepKeepsPermits(c, s, e);
        KeysAtMostHolders(t.tasks);
        UnionSize(t.storage.tables.rows.Keys, InFlightKeys(t.tasks));
      } else {
        if e.CountRows? {
          FullCountReservesNothing(c, s, e);
        } else {
          ReservationsShrink(c, s, e);
        }
        CardinalityOfSubset(Reserved(t), Reserved(s));
      }
    }
  }

  lemma {:induction false} RunKeepsRowsBounded(c: Config, s: State, es: seq<Step>, t: State)
    requires c.Valid() && PermitsBalance(c, s) && RowsBounded(c, s) && Runs(c, s, es, t)
    ensures RowsBounded(c, t)
    decreases |es|
  {
    if es == [] {
    } else {
      StepKeepsPermits(c, s, es[0]);
      StepKeepsRowsBounded(c, s, es[0]);
      RunKeepsRowsBounded(c, Next(c, s, es[0]), es[1..], t);
    }
  }

  lemma {:induction false} NoKeysInFlight(ts: seq<Task>)
    requires forall i :: 0 <= i < |ts| ==> !BeforeInsert(ts[i].phase)
    ensures InFlightKeys(ts) == {}
  {
  }

  /** Started within the bound, the cache never holds more rows than the limit
      and all but one of the permits together. */
  lemma RowOvershoot(c: Config, s: State, es: seq<Step>, t: State)
    requires Initial(c, s) && Runs(c, s, es, t) && c.maxEntries.Some?
    requires |s.storage.tables.rows| <= c.maxEntries.value + c.maxConcurrent - 1
    ensures |t.storage.tables.rows| <= c.maxEntries.value + c.maxConcurrent - 1
  {
    InitialPermits(c, s);
    NoKeysInFlight(s.tasks);
    assert Reserved(s) == s.storage.tables.rows.Keys;
    RunKeepsRowsBounded(c, s, es, t);
    CardinalityOfSubset(t.storage.tables.rows.Keys, Reserved(t));
  }

  // ---- Bytes ----

  function AdmittedBytes(t: Task): nat {
    if t.phase.Admitted? then |t.phase.r.body| else 0
  }

  function AdmittedOne(t: Task): nat {
    if t.phase.Admitted? then 1 else 0
  }

  /** Past the first check, the response fits into an entry. */
  predicate SmallBody(c: Config, t: Task) {
    t.phase.AtLimit? || t.phase.Counted? || t.phase.Admitted? ==> |t.phase.r.body| <= c.maxEntryBytes
  }

  ghost predicate BytesBounded(c: Config, s: State, reduced: nat) {
    && Addressed(s.storage.blobs)
    && (forall i :: 0 <= i < |s.tasks| ==> SmallBody(c, s.tasks[i]))
    && (c.maxCasBytes.Some? ==>
          DiskBytes(s.storage.blobs) + Total(s.tasks, AdmittedBytes)
          <= c.maxCasBytes.value + (c.maxConcurrent - 1) * c.maxEntryBytes + reduced)
  }

  /** A task that is admitted holds a permit, so few others are admitted. */
  lemma OthersAdmitted(c: Config, s: State, i: nat)
    requires c.Valid() && PermitsBalance(c, s) && forall j :: 0 <= j < |s.tasks| ==> SmallBody(c, s.tasks[j])
    requires i < |s.tasks| && s.tasks[i].phase.Counted?
    ensures Total(s.tasks, AdmittedBytes) <= (c.maxConcurrent - 1) * c.maxEntryBytes
  {
    var r := Moved(s, i, Admitted(s.tasks[i].phase.r));
    TotalUpdate(s.tasks, i, r.tasks[i], AdmittedOne);
    TotalUpdate(s.tasks, i, r.tasks[i], Holding);
    TotalMonotone(r.tasks, AdmittedOne, Holding, 1);
    TotalMonotone(s.tasks, AdmittedBytes, AdmittedOne, c.maxEntryBytes);
    var n := Total(s.tasks, AdmittedOne);
    assert n <= c.maxConcurrent - 1;
    MultiplyMonotone(n, c.maxConcurrent - 1, c.maxEntryBytes);
  }

  lemma MultiplyMonotone(a: nat, b: nat, x: nat)
    requires a <= b
    ensures x * a <= b * x
  {
  }

  /** What a step adds to the directory for a reduction. */
  function ReducedBy(e: Step): nat {
    if e.Background? && e.o.Operation? && e.o.op.StoreReduction? then |e.o.op.raw| else 0
  }

  function ReducedBytes(es: seq<Step>): nat {
    if es == [] then 0 else ReducedBy(es[0]) + ReducedBytes(es[1..])
  }

  lemma OutsideBytes(s: State, o: Outside)
    requires Addressed(s.storage.blobs) && OutsideEnabled(s, o)
    ensures Addressed(AfterOutside(s, o).storage.blobs)
    ensures DiskBytes(AfterOutside(s, o).storage.blobs) <= DiskBytes(s.storage.blobs) + ReducedBy(Background(o))
  {
    if o.DeleteOrphan? {
      DiskBytesRemoved(s.storage.blobs, {o.orphan});
    } else if o.Operation? && o.op.StoreReduction? {
      DiskBytesStored(s.storage.blobs, o.op.raw);
    }
  }

  lemma StorageBytes(c: Config, s: State, e: Step)
    requires Addressed(s.storage.blobs) && Enabled(c, s, e) && !e.WriteBlob?
    ensures Addressed(Next(c, s, e).storage.blobs)
    ensures DiskBytes(Next(c, s, e).storage.blobs) <= DiskBytes(s.storage.blobs) + ReducedBy(e)
  {
    if e.Background? {
      OutsideBytes(s, e.o);
    } else if e.DropBlob? {
      DiskBytesRemoved(s.storage.blobs, {s.tasks[e.i].phase.h});
    } else {
      StorageMoves(c, s, e);
    }
  }

  lemma BodyStaysSmall(c: Config, s: State, e: Step)
    requires Enabled(c, s, e) && !e.Background? && SmallBody(c, s.tasks[e.i])
    ensures SmallBody(c, Next(c, s, e).tasks[e.i])
  {
  }

  lemma BodiesStaySmall(c: Config, s: State, e: Step)
    requires Enabled(c, s, e) && forall i :: 0 <= i < |s.tasks| ==> SmallBody(c, s.tasks[i])
    ensures forall i :: 0 <= i < |Next(c, s, e).tasks| ==> SmallBody(c, Next(c, s, e).tasks[i])
  {
    OneTaskMoves(c, s, e);
    if !e.Background? {
      BodyStaysSmall(c, s, e);
    }
  }

  lemma OnlyScanAdmits(c: Config, s: State, e: Step)
    requires Enabled(c, s, e) && !e.Background? && !e.ScanDisk?
    ensures !Next(c, s, e).tasks[e.i].phase.Admitted?
  {
  }

  lemma AdmissionsShrink(c: Config, s: State, e: Step)
    requires Enabled(c, s, e) && !e.ScanDisk? && !e.WriteBlob?
    ensures Total(Next(c, s, e).tasks, AdmittedBytes) <= Total(s.tasks, AdmittedBytes)
  {
    OneTaskMoves(c, s, e);
    if !e.Background? {
      OnlyScanAdmits(c, s, e);
      TotalUpdate(s.tasks, e.i, Next(c, s, e).tasks[e.i], AdmittedBytes);
    }
  }

  lemma StepKeepsBytesBounded(c: Config, s: State, e: Step, reduced: nat)
    requires c.Valid() && PermitsBalance(c, s) && BytesBounded(c, s, reduced) && Enabled(c, s, e)
    ensures BytesBounded(c, Next(c, s, e), reduced + ReducedBy(e))
  {
    var t := Next(c, s, e);
    BodiesStaySmall(c, s, e);
    if e.WriteBlob? {
      TotalUpdate(s.tasks, e.i, t.tasks[e.i], AdmittedBytes);
      DiskBytesStored(s.storage.blobs, s.tasks[e.i].phase.r.body);
    } else if e.ScanDisk? {
      TotalUpdate(s.tasks, e.i, t.tasks[e.i], AdmittedBytes);
      OthersAdmitted(c, s, e.i);
    } else {
      AdmissionsShrink(c, s, e);
      StorageBytes(c, s, e);
    }
  }

  lemma {:induction false} RunKeepsBytesBounded(c: Config, s: State, es: seq<Step>, t: State, reduced: nat)
    requires c.Valid() && PermitsBalance(c, s) && BytesBounded(c, s, reduced) && Runs(c, s, es, t)
    ensures BytesBounded(c, t, reduced + ReducedBytes(es))
    decreases |es|
  {
    if es == [] {
    } else {
      StepKeepsPermits(c, s, es[0]);
      StepKeepsBytesBounded(c, s, es[0], reduced);
      RunKeepsBytesBounded(c, Next(c, s, es[0]), es[1..], t, reduced + ReducedBy(es[0]));
    }
  }

  /** Started within the bound, the blobs never take more than the limit, a
      largest body for all but one of the permits, and what reductions stored,
      which no limit holds back. */
  lemma ByteOvershoot(c: Config, s: State, es: seq<Step>, t: State)
    requires Initial(c, s) && Runs(c, s, es, t) && c.maxCasBytes.Some?
    requires DiskBytes(s.storage.blobs) <= c.maxCasBytes.value + (c.maxConcurrent - 1) * c.maxEntryBytes
    ensures DiskBytes(t.storage.blobs)
            <= c.maxCasBytes.value + (c.maxConcurrent - 1) * c.maxEntryBytes + ReducedBytes(es)
  {
    InitialPermits(c, s);
    TotalZero(s.tasks, AdmittedBytes);
    RunKeepsBytesBounded(c, s, es, t, 0);
  }
}
