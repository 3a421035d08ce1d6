/** When the storage limits hold (src/gateway/routes.rs).  Started within both
    limits, every run stays within the limit on rows exactly when there is one
    permit, no row is allowed at all, or no response can be cached; and every
    run without reductions stays within the limit on bytes exactly when there is
    one permit, no row is allowed, or no two different bodies can be cached. */
module Limits {
  import opened Wrappers
  import opened Fingerprints
  import opened JsonTree
  import opened ContentStore
  import opened SafeCache
  import opened Coalesce
  import opened Gateway
  import opened Quotas
  import opened Bursts

  /** A request may cache the response, and it fits on an empty disk. */
  ghost predicate Fits(c: Config, r: Response) {
    && 200 <= r.status < 300 && c.safe(r.body) && |r.body| <= c.maxEntryBytes
    && (c.maxCasBytes.Some? ==> |r.body| <= c.maxCasBytes.value)
  }

  ghost predicate SomethingFits(c: Config) {
    exists r :: Fits(c, r)
  }

  ghost predicate TwoBodiesFit(c: Config) {
    exists q, r :: Fits(c, q) && Fits(c, r) && q.body != r.body && q.body != "" && r.body != ""
  }

  ghost predicate Start(c: Config, s: State) {
    && Initial(c, s) && Sound(s.storage)
    && (c.maxEntries.Some? ==> |s.storage.tables.rows| <= c.maxEntries.value)
    && (c.maxCasBytes.Some? ==> DiskBytes(s.storage.blobs) <= c.maxCasBytes.value)
  }

  ghost predicate RowsStayWithin(c: Config)
    requires c.maxEntries.Some?
  {
    forall s, es, t :: Start(c, s) && Runs(c, s, es, t) ==> |t.storage.tables.rows| <= c.maxEntries.value
  }

  ghost predicate BytesStayWithin(c: Config)
    requires c.maxCasBytes.Some?
  {
    forall s, es, t :: Start(c, s) && Runs(c, s, es, t) && ReducedBytes(es) == 0 ==>
      DiskBytes(t.storage.blobs) <= c.maxCasBytes.value
  }

  // ---- What the checks let through ----

  /** Past a check, what it checked. */
  ghost predicate Checked(c: Config, t: Task) {
    && (t.phase.AtLimit? || t.phase.Counted? ==> Cacheable(c, t, t.phase.r))
    && (t.phase.Admitted? || t.phase.Written? ==> Fits(c, t.phase.r))
  }

  ghost predicate AllChecked(c: Config, s: State) {
    forall i :: 0 <= i < |s.tasks| ==> Checked(c, s.tasks[i])
  }

  lemma ScanChecks(c: Config, s: State, e: Step)
    requires c.Valid() && Enabled(c, s, e) && e.ScanDisk? && Checked(c, s.tasks[e.i])
    ensures Checked(c, Next(c, s, e).tasks[e.i])
  {
  }

  lemma CacheStepStaysChecked(c: Config, s: State, e: Step)
    requires Enabled(c, s, e) && CacheStep(e) && !e.ScanDisk? && Checked(c, s.tasks[e.i])
    ensures Checked(c, Next(c, s, e).tasks[e.i])
  {
  }

  lemma OtherStepStaysChecked(c: Config, s: State, e: Step)
    requires Enabled(c, s, e) && !CacheStep(e) && !e.Background?
    ensures Checked(c, Next(c, s, e).tasks[e.i])
  {
  }

  lemma StepKeepsChecked(c: Config, s: State, e: Step)
    requires c.Valid() && Enabled(c, s, e) && AllChecked(c, s)
    ensures AllChecked(c, Next(c, s, e))
  {
    OneTaskMoves(c, s, e);
    if !e.Background? {
      assert Checked(c, s.tasks[e.i]);
      if e.ScanDisk? {
        ScanChecks(c, s, e);
      } else if CacheStep(e) {
        CacheStepStaysChecked(c, s, e);
      } else {
        OtherStepStaysChecked(c, s, e);
      }
    }
  }

  // ---- Nothing to write ----

  lemma NothingWritten(c: Config, s: State)
    requires AllChecked(c, s) && !SomethingFits(c)
    ensures forall i :: 0 <= i < |s.tasks| ==> !s.tasks[i].phase.Written?
  {
    assert forall i :: 0 <= i < |s.tasks| ==> Checked(c, s.tasks[i]);
  }

  lemma {:induction false} NothingFitsNoRows(c: Config, s: State, es: seq<Step>, t: State)
    requires c.Valid() && AllChecked(c, s) && Runs(c, s, es, t) && !SomethingFits(c)
    ensures t.storage.tables.rows.Keys <= s.storage.tables.rows.Keys
    decreases |es|
  {
    if es == [] {
    } else {
      NothingWritten(c, s);
      RowsShrink(c, s, es[0]);
      StepKeepsChecked(c, s, es[0]);
      NothingFitsNoRows(c, Next(c, s, es[0]), es[1..], t);
    }
  }

  /** No row and no key about to get one. */
  ghost predicate NoneReserved(s: State) {
    Reserved(s) == {}
  }

  lemma StepKeepsNoneReserved(c: Config, s: State, e: Step)
    requires c.maxEntries == Some(0) && NoneReserved(s) && Enabled(c, s, e)
    ensures NoneReserved(Next(c, s, e))
  {
    if e.CountRows? {
      FullCountReservesNothing(c, s, e);
    } else {
      ReservationsShrink(c, s, e);
    }
  }

  lemma NoneReservedNoWriter(s: State)
    requires NoneReserved(s)
    ensures forall i :: 0 <= i < |s.tasks| ==> !BeforeInsert(s.tasks[i].phase)
  {
    assert forall i :: 0 <= i < |s.tasks| ==> s.tasks[i].request.cacheKey !in Reserved(s);
  }

  lemma {:induction false} NoRowsAllowed(c: Config, s: State, es: seq<Step>, t: State)
    requires c.maxEntries == Some(0) && NoneReserved(s) && Runs(c, s, es, t) && Addressed(s.storage.blobs)
    ensures NoneReserved(t) && DiskBytes(t.storage.blobs) <= DiskBytes(s.storage.blobs) + ReducedBytes(es)
    decreases |es|
  {
    if es == [] {
    } else {
      NoneReservedNoWriter(s);
      StepKeepsNoneReserved(c, s, es[0]);
      StorageBytes(c, s, es[0]);
      NoRowsAllowed(c, Next(c, s, es[0]), es[1..], t);
    }
  }

  lemma StartsUnreserved(c: Config, s: State)
    requires Start(c, s) && c.maxEntries == Some(0)
    ensures NoneReserved(s)
  {
    NoKeysInFlight(s.tasks);
    assert |s.storage.tables.rows.Keys| == 0;
  }

  // ---- One body to write ----

  /** The disk would stay within the limit if every admitted task wrote. */
  ghost predicate RoomForAdmitted(c: Config, s: State)
    requires c.maxCasBytes.Some?
  {
    && Addressed(s.storage.blobs) && DiskBytes(s.storage.blobs) <= c.maxCasBytes.value
    && forall i :: 0 <= i < |s.tasks| && s.tasks[i].phase.Admitted? ==>
         DiskBytes(Stored(s.storage.blobs, s.tasks[i].phase.r.body)) <= c.maxCasBytes.value
  }

  lemma StoringAfterRemoval(blobs: Blobs, gone: set<Digest>, body: Bytes)
    requires Addressed(blobs)
    ensures DiskBytes(Stored(blobs - gone, body)) <= DiskBytes(Stored(blobs, body))
  {
    assert Stored(blobs - gone, body) == Stored(blobs, body) - (gone - {Sha256(body)});
    DiskBytesRemoved(Stored(blobs, body), gone - {Sha256(body)});
  }

  /** Of two bodies that are equal or one of them empty, both take no more room
      than either. */
  lemma StoringTwo(blobs: Blobs, a: Bytes, b: Bytes)
    requires Addressed(blobs) && (a == b || a == "" || b == "")
    ensures DiskBytes(Stored(Stored(blobs, a), b)) <= DiskBytes(Stored(blobs, a))
         || DiskBytes(Stored(Stored(blobs, a), b)) <= DiskBytes(Stored(blobs, b))
  {
    if a == b {
      assert Stored(Stored(blobs, a), a) == Stored(blobs, a);
    } else if b == "" {
      DiskBytesStored(Stored(blobs, a), b);
    } else {
      assert Stored(Stored(blobs, a), b) == Stored(Stored(blobs, b), a);
      DiskBytesStored(Stored(blobs, b), a);
    }
  }

  lemma WriteKeepsRoom(c: Config, s: State, i: nat)
    requires c.maxCasBytes.Some? && AllChecked(c, s) && RoomForAdmitted(c, s) && !TwoBodiesFit(c)
    requires i < |s.tasks| && s.tasks[i].phase.Admitted?
    ensures RoomForAdmitted(c, BlobWritten(s, i, s.tasks[i].phase.r))
  {
    var a := s.tasks[i].phase.r;
    var t := BlobWritten(s, i, a);
    DiskBytesStored(s.storage.blobs, a.body);
    assert t.storage.blobs == Stored(s.storage.blobs, a.body);
    forall j | 0 <= j < |t.tasks| && t.tasks[j].phase.Admitted?
      ensures DiskBytes(Stored(t.storage.blobs, t.tasks[j].phase.r.body)) <= c.maxCasBytes.value
    {
      assert t.tasks[j] == s.tasks[j];
      assert Checked(c, s.tasks[i]) && Checked(c, s.tasks[j]);
      StoringTwo(s.storage.blobs, a.body, s.tasks[j].phase.r.body);
    }
  }

  lemma ScanKeepsRoom(c: Config, s: State, e: Step)
    requires c.Valid() && c.maxCasBytes.Some? && RoomForAdmitted(c, s) && Enabled(c, s, e) && e.ScanDisk?
    ensures RoomForAdmitted(c, Next(c, s, e))
  {
    var t := Next(c, s, e);
    DiskBytesStored(s.storage.blobs, s.tasks[e.i].phase.r.body);
    forall j | 0 <= j < |t.tasks| && t.tasks[j].phase.Admitted?
      ensures DiskBytes(Stored(t.storage.blobs, t.tasks[j].phase.r.body)) <= c.maxCasBytes.value
    {
      assert j != e.i ==> t.tasks[j] == s.tasks[j];
    }
  }

  lemma RemovalKeepsRoom(c: Config, s: State, t: State, gone: set<Digest>)
    requires c.maxCasBytes.Some? && RoomForAdmitted(c, s) && t.storage.blobs == s.storage.blobs - gone
    requires |t.tasks| == |s.tasks|
    requires forall j :: 0 <= j < |t.tasks| && t.tasks[j].phase.Admitted? ==> t.tasks[j] == s.tasks[j]
    ensures RoomForAdmitted(c, t)
  {
    DiskBytesRemoved(s.storage.blobs, gone);
    forall j | 0 <= j < |t.tasks| && t.tasks[j].phase.Admitted?
      ensures DiskBytes(Stored(t.storage.blobs, t.tasks[j].phase.r.body)) <= c.maxCasBytes.value
    {
      StoringAfterRemoval(s.storage.blobs, gone, s.tasks[j].phase.r.body);
    }
  }

  /** Unless it writes or stores a reduction, a step at most removes blobs. */
  function Removed(s: State, e: Step): set<Digest> {
    if e.DropBlob? && e.i < |s.tasks| && s.tasks[e.i].phase.Undoing? then {s.tasks[e.i].phase.h}
    else if e.Background? && e.o.DeleteOrphan? then {e.o.orphan}
    else {}
  }

  lemma StepRemoves(c: Config, s: State, e: Step)
    requires Enabled(c, s, e) && !e.WriteBlob?
    requires !(e.Background? && e.o.Operation? && e.o.op.StoreReduction?)
    ensures Next(c, s, e).storage.blobs == s.storage.blobs - Removed(s, e)
  {
    if !e.Background? && !e.DropBlob? {
      StorageMoves(c, s, e);
    }
  }

  lemma EmptyReduction(blobs: Blobs, body: Bytes)
    requires Addressed(blobs)
    ensures DiskBytes(Stored(blobs, "")) == DiskBytes(blobs)
    ensures DiskBytes(Stored(Stored(blobs, ""), body)) <= DiskBytes(Stored(blobs, body))
  {
    DiskBytesStored(blobs, "");
    if body == "" {
      assert Stored(Stored(blobs, ""), "") == Stored(blobs, "");
    } else {
      StoringEmpty(blobs, body);
    }
  }

  lemma StoringEmpty(blobs: Blobs, body: Bytes)
    requires Addressed(blobs) && body != ""
    ensures DiskBytes(Stored(Stored(blobs, ""), body)) == DiskBytes(Stored(blobs, body))
  {
    assert Stored(Stored(blobs, ""), body) == Stored(Stored(blobs, body), "");
    DiskBytesStored(Stored(blobs, body), "");
  }

  lemma OutsideKeepsRoom(c: Config, s: State, o: Outside)
    requires c.maxCasBytes.Some? && RoomForAdmitted(c, s) && OutsideEnabled(s, o) && ReducedBy(Background(o)) == 0
    ensures RoomForAdmitted(c, AfterOutside(s, o))
  {
    var t := AfterOutside(s, o);
    if o.Operation? && o.op.StoreReduction? {
      forall j | 0 <= j < |t.tasks| && t.tasks[j].phase.Admitted?
        ensures DiskBytes(Stored(t.storage.blobs, t.tasks[j].phase.r.body)) <= c.maxCasBytes.value
      {
        EmptyReduction(s.storage.blobs, t.tasks[j].phase.r.body);
      }
      EmptyReduction(s.storage.blobs, "");
    } else {
      RemovalKeepsRoom(c, s, t, if o.DeleteOrphan? then {o.orphan} else {});
    }
  }

  lemma StepKeepsRoom(c: Config, s: State, e: Step)
    requires c.Valid() && c.maxCasBytes.Some? && AllChecked(c, s) && RoomForAdmitted(c, s) && !TwoBodiesFit(c)
    requires Enabled(c, s, e) && ReducedBy(e) == 0
    ensures RoomForAdmitted(c, Next(c, s, e))
  {
    if e.Background? {
      OutsideKeepsRoom(c, s, e.o);
    } else if e.WriteBlob? {
      WriteKeepsRoom(c, s, e.i);
    } else if e.ScanDisk? {
      ScanKeepsRoom(c, s, e);
    } else {
      OneTaskMoves(c, s, e);
      OnlyScanAdmits(c, s, e);
      StepRemoves(c, s, e);
      RemovalKeepsRoom(c, s, Next(c, s, e), Removed(s, e));
    }
  }

  lemma {:induction false} OneBodyStaysWithin(c: Config, s: State, es: seq<Step>, t: State)
    requires c.Valid() && c.maxCasBytes.Some? && AllChecked(c, s) && RoomForAdmitted(c, s) && !TwoBodiesFit(c)
    requires Runs(c, s, es, t) && ReducedBytes(es) == 0
    ensures RoomForAdmitted(c, t)
    decreases |es|
  {
    if es == [] {
    } else {
      StepKeepsChecked(c, s, es[0]);
      StepKeepsRoom(c, s, es[0]);
      OneBodyStaysWithin(c, Next(c, s, es[0]), es[1..], t);
    }
  }

  // ---- States to overshoot from ----

  function Filler(x: char, n: nat): (s: string)
    ensures |s| == n && forall i :: 0 <= i < n ==> s[i] == x
  {
    seq(n, _ => x)
  }

  const EMPTY_ROW := Row("", Sha256(""), "", 200, 0, 0, "", "", 1)

  /** That many rows, for projects with names of different lengths. */
  function ManyRows(n: nat): (rows: map<CacheKey, Row>)
    ensures |rows| == n
    ensures forall k :: k in rows ==> 1 <= |k.project| <= n && rows[k] == EMPTY_ROW
  {
    if n == 0 then map[]
    else
      var key := CacheKey(Filler('x', n), OfRawText(""));
      assert key !in ManyRows(n - 1);
      ManyRows(n - 1)[key := EMPTY_ROW]
  }

  /** A request with a body of its own, outside coalescing, that uses the cache. */
  function Plain(raw: string): Task {
    Task(Request(Malformed(raw), None, true, CacheKey("", OfRawText(raw))), Arrived, None, false)
  }

  /** Two such requests, over a storage. */
  function TwoArrived(c: Config, storage: Storage): State {
    State([Plain("a"), Plain("b")], c.maxConcurrent, Flights(map[], []), [], storage, [])
  }

  function OneBlob(body: Bytes): Blobs {
    map[Sha256(body) := body]
  }

  lemma OneBlobBytes(body: Bytes)
    ensures Addressed(OneBlob(body)) && DiskBytes(OneBlob(body)) == |body|
  {
    DiskBytesPick(OneBlob(body), Sha256(body));
    assert OneBlob(body) - {Sha256(body)} == map[];
  }

  /** The storage with `n` rows for one stored empty body. */
  function RowStorage(n: nat): Storage {
    Storage(Tables(ManyRows(n), {Sha256("")}, {}), OneBlob(""))
  }

  lemma TwoFitBurst(c: Config, s: State, q: Response, r: Response)
    requires c.Valid() && c.maxConcurrent >= 2 && s == TwoArrived(c, s.storage) && Fits(c, q) && Fits(c, r)
    requires forall k :: k in s.storage.tables.rows ==> k.project != ""
    requires c.maxEntries.Some? ==> |s.storage.tables.rows| < c.maxEntries.value
    requires FitsOnDisk(c, s, q) && FitsOnDisk(c, s, r)
    ensures Burst(c, s, [q, r])
  {
    assert Plain("a").request.cacheKey != Plain("b").request.cacheKey by {
      assert "a"[0] != "b"[0];
    }
  }

  lemma RowsOvershoot(c: Config)
    requires c.Valid() && c.maxEntries.Some? && c.maxEntries.value > 0 && c.maxConcurrent >= 2 && SomethingFits(c)
    ensures !RowsStayWithin(c)
  {
    var r :| Fits(c, r);
    var s := TwoArrived(c, RowStorage(c.maxEntries.value - 1));
    OneBlobBytes("");
    assert Start(c, s);
    TwoFitBurst(c, s, r, r);
    var es, t := BurstWrites(c, s, [r, r]);
    assert Start(c, s) && Runs(c, s, es, t) && |t.storage.tables.rows| > c.maxEntries.value;
  }

  /** Of three fillers of one length one is neither of two given bodies. */
  lemma OtherFiller(n: nat, a: Bytes, b: Bytes) returns (f: Bytes)
    requires a != "" && b != ""
    ensures |f| == n && f != a && f != b
  {
    var x, y, z := Filler('x', n), Filler('y', n), Filler('z', n);
    if n > 0 {
      assert x[0] != y[0] && y[0] != z[0] && x[0] != z[0];
    }
    f := if x != a && x != b then x else if y != a && y != b then y else z;
  }

  lemma TwoBodyBytes(blobs: Blobs, q: Response, r: Response)
    requires Addressed(blobs) && NewBodies(blobs, [q, r])
    ensures DiskBytes(WithBodies(blobs, [q, r])) == DiskBytes(blobs) + |q.body| + |r.body|
  {
    NewBodiesAddUp(blobs, [q, r]);
    assert [q, r][..1] == [q] && [q][..0] == [];
    assert BodyBytes([q]) == BodyBytes([q][..0]) + |q.body|;
    assert BodyBytes([q, r]) == BodyBytes([q, r][..1]) + |r.body|;
  }

  /** Two requests, and a disk that holds one blob. */
  function FilledStart(c: Config, f: Bytes): State {
    TwoArrived(c, Storage(Tables(map[], {}, {}), OneBlob(f)))
  }

  lemma FilledStarts(c: Config, f: Bytes)
    requires c.Valid() && c.maxCasBytes.Some? && |f| <= c.maxCasBytes.value
    ensures Start(c, FilledStart(c, f))
  {
    OneBlobBytes(f);
  }

  lemma FilledBurst(c: Config, q: Response, r: Response, f: Bytes)
    requires c.Valid() && c.maxCasBytes.Some? && c.maxEntries != Some(0) && c.maxConcurrent >= 2
    requires Fits(c, q) && Fits(c, r) && q.body != r.body && f != q.body && f != r.body
    requires |f| + |q.body| <= c.maxCasBytes.value && |f| + |r.body| <= c.maxCasBytes.value
    ensures Burst(c, FilledStart(c, f), [q, r]) && NewBodies(OneBlob(f), [q, r])
  {
    OneBlobBytes(f);
    TwoFitBurst(c, FilledStart(c, f), q, r);
  }

  /** From a disk with room for either of two bodies, both are stored. */
  lemma TwoBodiesOvershoot(c: Config, q: Response, r: Response, f: Bytes) returns (s: State, es: seq<Step>, t: State)
    requires c.Valid() && c.maxCasBytes.Some? && c.maxEntries != Some(0) && c.maxConcurrent >= 2
    requires Fits(c, q) && Fits(c, r) && q.body != r.body && f != q.body && f != r.body
    requires |f| + |q.body| <= c.maxCasBytes.value && |f| + |r.body| <= c.maxCasBytes.value
    ensures Start(c, s) && Runs(c, s, es, t) && ReducedBytes(es) == 0
    ensures DiskBytes(t.storage.blobs) == |f| + |q.body| + |r.body|
  {
    s := FilledStart(c, f);
    FilledStarts(c, f);
    FilledBurst(c, q, r, f);
    OneBlobBytes(f);
    es, t := BurstWrites(c, s, [q, r]);
    OwnStepsReduceNothing(es);
    TwoBodyBytes(OneBlob(f), q, r);
  }

  lemma BytesOvershoot(c: Config)
    requires c.Valid() && c.maxCasBytes.Some? && c.maxEntries != Some(0) && c.maxConcurrent >= 2 && TwoBodiesFit(c)
    ensures !BytesStayWithin(c)
  {
    var q, r :| Fits(c, q) && Fits(c, r) && q.body != r.body && q.body != "" && r.body != "";
    var larger := if |q.body| >= |r.body| then |q.body| else |r.body|;
    var f := OtherFiller(c.maxCasBytes.value - larger, q.body, r.body);
    var s, es, t := TwoBodiesOvershoot(c, q, r, f);
    assert DiskBytes(t.storage.blobs) > c.maxCasBytes.value;
  }

  // ---- Main results ----

  lemma RowsStayWithinIff(c: Config)
    requires c.Valid() && c.maxEntries.Some?
    ensures RowsStayWithin(c) <==> c.maxConcurrent == 1 || c.maxEntries.value == 0 || !SomethingFits(c)
  {
    if c.maxConcurrent == 1 || c.maxEntries.value == 0 || !SomethingFits(c) {
      forall s, es, t | Start(c, s) && Runs(c, s, es, t)
        ensures |t.storage.tables.rows| <= c.maxEntries.value
      {
        if c.maxConcurrent == 1 {
          RowOvershoot(c, s, es, t);
        } else if c.maxEntries.value == 0 {
          StartsUnreserved(c, s);
          NoRowsAllowed(c, s, es, t);
          CardinalityOfSubset(t.storage.tables.rows.Keys, Reserved(t));
        } else {
          NothingFitsNoRows(c, s, es, t);
          CardinalityOfSubset(t.storage.tables.rows.Keys, s.storage.tables.rows.Keys);
        }
      }
    } else {
      RowsOvershoot(c);
    }
  }

  lemma BytesStayWithinIff(c: Config)
    requires c.Valid() && c.maxCasBytes.Some?
    ensures BytesStayWithin(c) <==> c.maxConcurrent == 1 || c.maxEntries == Some(0) || !TwoBodiesFit(c)
  {
    if c.maxConcurrent == 1 || c.maxEntries == Some(0) || !TwoBodiesFit(c) {
      forall s, es, t | Start(c, s) && Runs(c, s, es, t) && ReducedBytes(es) == 0
        ensures DiskBytes(t.storage.blobs) <= c.maxCasBytes.value
      {
        if c.maxConcurrent == 1 {
          ByteOvershoot(c, s, es, t);
        } else if c.maxEntries == Some(0) {
          StartsUnreserved(c, s);
          NoRowsAllowed(c, s, es, t);
        } else {
          OneBodyStaysWithin(c, s, es, t);
        }
      }
    } else {
      BytesOvershoot(c);
    }
  }
}
