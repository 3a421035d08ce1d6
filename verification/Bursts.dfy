/** Runs in which requests pass the storage limits together and write
    afterwards (src/gateway/routes.rs).  They show that the bounds on overshoot
    cannot be improved. */
module Bursts {
  import opened ContentStore
  import opened SafeCache
  import opened Gateway
  import opened Quotas

  /** Steps of requests only. */
  ghost predicate OwnSteps(es: seq<Step>) {
    forall e :: e in es ==> !e.Background?
  }

  lemma {:induction false} OwnStepsReduceNothing(es: seq<Step>)
    requires OwnSteps(es)
    ensures ReducedBytes(es) == 0
    decreases |es|
  {
    if es == [] {
    } else {
      assert es[0] in es;
      OwnStepsReduceNothing(es[1..]);
    }
  }

  // ---- One request ----

  /** A request outside coalescing takes a permit and calls upstream. */
  lemma CallOne(c: Config, s: State, i: nat) returns (es: seq<Step>, t: State)
    requires i < |s.tasks| && s.tasks[i].phase.Arrived? && s.flights.Sound() && s.permits > 0
    requires s.tasks[i].request.flight.None?
    ensures Runs(c, s, es, t) && OwnSteps(es)
    ensures t == s.(tasks := s.tasks[i := s.tasks[i].(phase := Calling, called := true)], permits := s.permits - 1)
  {
    var a := Next(c, s, Enter(i));
    RunOn(c, s, [], s, Enter(i));
    var b := Next(c, a, Miss(i));
    RunOn(c, s, [] + [Enter(i)], a, Miss(i));
    t := Next(c, b, TakePermit(i));
    es := [] + [Enter(i)] + [Miss(i)] + [TakePermit(i)];
    RunOn(c, s, [] + [Enter(i)] + [Miss(i)], b, TakePermit(i));
    assert t.tasks == s.tasks[i := s.tasks[i].(phase := Calling, called := true)];
  }

  /** Answered, it passes the row check. */
  lemma PassOne(c: Config, s: State, i: nat, r: Response) returns (es: seq<Step>, t: State)
    requires i < |s.tasks| && s.tasks[i].phase.Calling? && Cacheable(c, s.tasks[i], r)
    requires c.maxEntries.Some? ==> |s.storage.tables.rows| < c.maxEntries.value
    ensures Runs(c, s, es, t) && OwnSteps(es)
    ensures t == s.(tasks := s.tasks[i := s.tasks[i].(phase := Counted(r))])
  {
    var a := Next(c, s, Respond(i, r));
    RunOn(c, s, [], s, Respond(i, r));
    t := Next(c, a, CountRows(i));
    es := [] + [Respond(i, r)] + [CountRows(i)];
    RunOn(c, s, [] + [Respond(i, r)], a, CountRows(i));
    assert t.tasks == s.tasks[i := s.tasks[i].(phase := Counted(r))];
  }

  /** The response fits on disk beside what is there. */
  ghost predicate FitsOnDisk(c: Config, s: State, r: Response) {
    c.maxCasBytes.Some? ==> SaturatingAdd(DiskBytes(s.storage.blobs), |r.body|) <= c.maxCasBytes.value
  }

  ghost predicate CanAdmit(c: Config, s: State, i: nat, r: Response) {
    && i < |s.tasks| && s.tasks[i].phase.Arrived? && s.tasks[i].request.flight.None?
    && s.flights.Sound() && s.permits > 0
    && Cacheable(c, s.tasks[i], r) && FitsOnDisk(c, s, r)
    && (c.maxEntries.Some? ==> |s.storage.tables.rows| < c.maxEntries.value)
  }

  /** It passes both checks. */
  lemma AdmitOne(c: Config, s: State, i: nat, r: Response) returns (es: seq<Step>, t: State)
    requires CanAdmit(c, s, i, r)
    ensures Runs(c, s, es, t) && OwnSteps(es)
    ensures t == s.(tasks := s.tasks[i := s.tasks[i].(phase := Admitted(r), called := true)], permits := s.permits - 1)
  {
    var first, m := CallOne(c, s, i);
    var second, n := PassOne(c, m, i, r);
    RunsConcat(c, s, first, m, second, n);
    t := Next(c, n, ScanDisk(i));
    es := first + second + [ScanDisk(i)];
    RunOn(c, s, first + second, n, ScanDisk(i));
    assert t.tasks == s.tasks[i := s.tasks[i].(phase := Admitted(r), called := true)];
  }

  /** The write of a task's response that meets no failure. */
  function GoodWrite(t: Task, r: Response): Write {
    Write(t.request.cacheKey, "", "", r, 0, 0, "", true, NoFault)
  }

  lemma InsertGoodRow(s: State, i: nat, r: Response)
    requires i < |s.tasks| && s.tasks[i].phase.Written? && s.tasks[i].phase.r == r
    ensures var t := RowInserted(s, i, GoodWrite(s.tasks[i], r));
            && |t.tasks| == |s.tasks| && t.tasks == s.tasks[i := s.tasks[i].(phase := Kept(r))]
            && t.storage.tables.rows.Keys == s.storage.tables.rows.Keys + {s.tasks[i].request.cacheKey}
            && t.storage.blobs == s.storage.blobs
  {
    InsertAddsItsKey(s, i, GoodWrite(s.tasks[i], r));
  }

  lemma WriteOneBlob(c: Config, s: State, i: nat, r: Response) returns (t: State)
    requires i < |s.tasks| && s.tasks[i].phase == Admitted(r) && Addressed(s.storage.blobs)
    ensures Enabled(c, s, WriteBlob(i)) && t == Next(c, s, WriteBlob(i))
    ensures |t.tasks| == |s.tasks| && t.tasks == s.tasks[i := t.tasks[i]]
    ensures t.tasks[i] == s.tasks[i].(phase := t.tasks[i].phase)
    ensures t.tasks[i].phase.Written? && t.tasks[i].phase.r == r
    ensures t.storage.tables == s.storage.tables
    ensures t.storage.blobs == Stored(s.storage.blobs, r.body) && Addressed(t.storage.blobs)
  {
    t := Next(c, s, WriteBlob(i));
    DiskBytesStored(s.storage.blobs, r.body);
  }

  /** It writes its blob and its row. */
  lemma StoreOne(c: Config, s: State, i: nat, r: Response) returns (es: seq<Step>, t: State)
    requires i < |s.tasks| && s.tasks[i].phase == Admitted(r) && Addressed(s.storage.blobs)
    ensures Runs(c, s, es, t) && OwnSteps(es)
    ensures |t.tasks| == |s.tasks| && t.tasks == s.tasks[i := s.tasks[i].(phase := Kept(r))]
    ensures t.storage.tables.rows.Keys == s.storage.tables.rows.Keys + {s.tasks[i].request.cacheKey}
    ensures t.storage.blobs == Stored(s.storage.blobs, r.body) && Addressed(t.storage.blobs)
  {
    var m := WriteOneBlob(c, s, i, r);
    RunOn(c, s, [], s, WriteBlob(i));
    var w := GoodWrite(m.tasks[i], r);
    InsertGoodRow(m, i, r);
    t := Next(c, m, InsertRow(i, w));
    es := [] + [WriteBlob(i)] + [InsertRow(i, w)];
    RunOn(c, s, [] + [WriteBlob(i)], m, InsertRow(i, w));
  }

  // ---- All of them ----

  /** No more requests than permits, for keys of their own without a row, that
      leave coalescing out; each may cache its response, which fits on disk by
      itself. */
  ghost predicate Burst(c: Config, s: State, rs: seq<Response>) {
    && |s.tasks| == |rs| <= c.maxConcurrent
    && (c.maxEntries.Some? ==> |s.storage.tables.rows| < c.maxEntries.value)
    && (forall i :: 0 <= i < |rs| ==>
          && s.tasks[i].request.flight.None? && Cacheable(c, s.tasks[i], rs[i]) && FitsOnDisk(c, s, rs[i])
          && s.tasks[i].request.cacheKey !in s.storage.tables.rows)
    && (forall i, j :: 0 <= i < j < |rs| ==> s.tasks[i].request.cacheKey != s.tasks[j].request.cacheKey)
  }

  /** The first `n` of them have passed both checks. */
  ghost predicate AdmittedUpTo(c: Config, s: State, t: State, rs: seq<Response>, n: nat)
    requires |s.tasks| == |rs|
  {
    && n <= |rs| && |t.tasks| == |s.tasks| && t.storage == s.storage && t.flights == s.flights
    && t.permits == c.maxConcurrent - n
    && (forall i :: n <= i < |rs| ==> t.tasks[i] == s.tasks[i])
    && (forall i :: 0 <= i < n ==> t.tasks[i].phase == Admitted(rs[i]) && t.tasks[i].request == s.tasks[i].request)
  }

  lemma AdmitNext(c: Config, s: State, t: State, rs: seq<Response>, n: nat) returns (es: seq<Step>, u: State)
    requires Initial(c, s) && Burst(c, s, rs) && AdmittedUpTo(c, s, t, rs, n) && n < |rs|
    ensures Runs(c, t, es, u) && OwnSteps(es) && AdmittedUpTo(c, s, u, rs, n + 1)
  {
    assert t.tasks[n] == s.tasks[n];
    assert CanAdmit(c, t, n, rs[n]);
    es, u := AdmitOne(c, t, n, rs[n]);
  }

  lemma AdmitAll(c: Config, s: State, rs: seq<Response>) returns (es: seq<Step>, t: State)
    requires Initial(c, s) && Burst(c, s, rs)
    ensures Runs(c, s, es, t) && OwnSteps(es) && AdmittedUpTo(c, s, t, rs, |rs|)
  {
    es, t := [], s;
    for n := 0 to |rs|
      invariant Runs(c, s, es, t) && OwnSteps(es) && AdmittedUpTo(c, s, t, rs, n)
    {
      var more, u := AdmitNext(c, s, t, rs, n);
      RunsConcat(c, s, es, t, more, u);
      es, t := es + more, u;
    }
  }

  /** The directory with the bodies of all responses. */
  function WithBodies(blobs: Blobs, rs: seq<Response>): Blobs {
    if rs == [] then blobs else Stored(WithBodies(blobs, rs[..|rs| - 1]), rs[|rs| - 1].body)
  }

  /** After the first `n` of them have written: one row more for each. */
  ghost predicate WrittenUpTo(s: State, t: State, rs: seq<Response>, n: nat)
    requires |s.tasks| == |rs|
  {
    && n <= |rs| && |t.tasks| == |s.tasks| && Addressed(t.storage.blobs)
    && t.storage.blobs == WithBodies(s.storage.blobs, rs[..n])
    && |t.storage.tables.rows| == |s.storage.tables.rows| + n
    && forall i :: n <= i < |rs| ==>
         && t.tasks[i].phase == Admitted(rs[i]) && t.tasks[i].request == s.tasks[i].request
         && s.tasks[i].request.cacheKey !in t.storage.tables.rows
  }

  lemma OneRowMore(rows: map<CacheKey, Row>, more: map<CacheKey, Row>, key: CacheKey)
    requires key !in rows && more.Keys == rows.Keys + {key}
    ensures |more| == |rows| + 1
  {
    assert |more.Keys| == |rows.Keys + {key}|;
  }

  lemma StoreNext(c: Config, s: State, t: State, rs: seq<Response>, n: nat) returns (es: seq<Step>, u: State)
    requires Burst(c, s, rs) && WrittenUpTo(s, t, rs, n) && n < |rs|
    ensures Runs(c, t, es, u) && OwnSteps(es) && WrittenUpTo(s, u, rs, n + 1)
  {
    es, u := StoreOne(c, t, n, rs[n]);
    var key := s.tasks[n].request.cacheKey;
    assert key == t.tasks[n].request.cacheKey;
    OneRowMore(t.storage.tables.rows, u.storage.tables.rows, key);
    assert rs[..n + 1][..n] == rs[..n];
    forall i | n + 1 <= i < |rs|
      ensures u.tasks[i] == t.tasks[i] && s.tasks[i].request.cacheKey !in u.storage.tables.rows.Keys
    {
      assert s.tasks[i].request.cacheKey != key;
    }
  }

  lemma StoreAll(c: Config, s: State, m: State, rs: seq<Response>) returns (es: seq<Step>, t: State)
    requires Burst(c, s, rs) && WrittenUpTo(s, m, rs, 0)
    ensures Runs(c, m, es, t) && OwnSteps(es) && WrittenUpTo(s, t, rs, |rs|)
  {
    es, t := [], m;
    for n := 0 to |rs|
      invariant Runs(c, m, es, t) && OwnSteps(es) && WrittenUpTo(s, t, rs, n)
    {
      var more, u := StoreNext(c, s, t, rs, n);
      RunsConcat(c, m, es, t, more, u);
      es, t := es + more, u;
    }
  }

  /** Every request of a burst gets its row and its blob. */
  lemma BurstWrites(c: Config, s: State, rs: seq<Response>) returns (es: seq<Step>, t: State)
    requires Initial(c, s) && Burst(c, s, rs)
    ensures Runs(c, s, es, t) && OwnSteps(es)
    ensures |t.storage.tables.rows| == |s.storage.tables.rows| + |rs|
    ensures t.storage.blobs == WithBodies(s.storage.blobs, rs)
  {
    var first, m := AdmitAll(c, s, rs);
    var second, u := StoreAll(c, s, m, rs);
    RunsConcat(c, s, first, m, second, u);
    es, t := first + second, u;
    assert rs[..|rs|] == rs;
  }

  // ---- Both bounds are reached ----

  /** One row below the limit, as many requests as permits reach the bound on
      rows exactly. */
  lemma RowOvershootReached(c: Config, s: State, rs: seq<Response>) returns (es: seq<Step>, t: State)
    requires Initial(c, s) && Burst(c, s, rs) && |rs| == c.maxConcurrent
    requires c.maxEntries.Some? && |s.storage.tables.rows| == c.maxEntries.value - 1
    ensures Runs(c, s, es, t) && ReducedBytes(es) == 0
    ensures |t.storage.tables.rows| == c.maxEntries.value + c.maxConcurrent - 1
  {
    es, t := BurstWrites(c, s, rs);
    OwnStepsReduceNothing(es);
  }

  /** The bodies differ and none is stored yet. */
  ghost predicate NewBodies(blobs: Blobs, rs: seq<Response>) {
    && (forall i :: 0 <= i < |rs| ==> Sha256(rs[i].body) !in blobs)
    && (forall i, j :: 0 <= i < j < |rs| ==> rs[i].body != rs[j].body)
  }

  function BodyBytes(rs: seq<Response>): nat {
    if rs == [] then 0 else BodyBytes(rs[..|rs| - 1]) + |rs[|rs| - 1].body|
  }

  lemma {:induction false} OtherBodiesAbsent(blobs: Blobs, rs: seq<Response>, body: Bytes)
    requires Sha256(body) !in blobs && forall i :: 0 <= i < |rs| ==> rs[i].body != body
    ensures Sha256(body) !in WithBodies(blobs, rs)
    decreases |rs|
  {
    if rs == [] {
    } else {
      OtherBodiesAbsent(blobs, rs[..|rs| - 1], body);
    }
  }

  lemma {:induction false} NewBodiesAddUp(blobs: Blobs, rs: seq<Response>)
    requires Addressed(blobs) && NewBodies(blobs, rs)
    ensures Addressed(WithBodies(blobs, rs))
    ensures DiskBytes(WithBodies(blobs, rs)) == DiskBytes(blobs) + BodyBytes(rs)
    decreases |rs|
  {
    if rs == [] {
    } else {
      var init, last := rs[..|rs| - 1], rs[|rs| - 1];
      NewBodiesAddUp(blobs, init);
      OtherBodiesAbsent(blobs, init, last.body);
      DiskBytesStored(WithBodies(blobs, init), last.body);
    }
  }

  lemma {:induction false} EqualBodiesAddUp(rs: seq<Response>, size: nat)
    requires forall i :: 0 <= i < |rs| ==> |rs[i].body| == size
    ensures BodyBytes(rs) == |rs| * size
    decreases |rs|
  {
    if rs == [] {
    } else {
      EqualBodiesAddUp(rs[..|rs| - 1], size);
      assert |rs| * size == (|rs| - 1) * size + size;
    }
  }

  /** One largest body below the limit, as many requests as permits, with
      different bodies of the largest size, reach the bound on bytes exactly. */
  lemma ByteOvershootReached(c: Config, s: State, rs: seq<Response>) returns (es: seq<Step>, t: State)
    requires Initial(c, s) && Burst(c, s, rs) && |rs| == c.maxConcurrent && NewBodies(s.storage.blobs, rs)
    requires forall i :: 0 <= i < |rs| ==> |rs[i].body| == c.maxEntryBytes
    requires c.maxCasBytes.Some? && DiskBytes(s.storage.blobs) == c.maxCasBytes.value - c.maxEntryBytes
    ensures Runs(c, s, es, t) && ReducedBytes(es) == 0
    ensures DiskBytes(t.storage.blobs) == c.maxCasBytes.value + (c.maxConcurrent - 1) * c.maxEntryBytes
  {
    es, t := BurstWrites(c, s, rs);
    OwnStepsReduceNothing(es);
    NewBodiesAddUp(s.storage.blobs, rs);
    EqualBodiesAddUp(rs, c.maxEntryBytes);
    OneLess(c.maxConcurrent, c.maxEntryBytes);
  }

  lemma OneLess(n: nat, x: nat)
    ensures n * x - x == (n - 1) * x
  {
  }
}
