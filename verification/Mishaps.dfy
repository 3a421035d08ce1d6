/** Runs in which a row loses its blob, or a read finds none
    (src/gateway/routes.rs, src/cli/storage.rs): what requests that share bytes,
    and cleanups beside requests, can bring about. */
module Mishaps {
  import opened Wrappers
  import opened ContentStore
  import opened SafeCache
  import opened Gateway
  import opened Bursts

  // ---- A rollback ----

  /** Both have written their blob, which only the first created. */
  ghost predicate BothWritten(s: State, r: Response) {
    && |s.tasks| == 2
    && s.tasks[0].phase == Written(r, Sha256(r.body), true)
    && s.tasks[1].phase == Written(r, Sha256(r.body), false)
  }

  lemma WriteBoth(c: Config, s: State, r: Response) returns (es: seq<Step>, t: State)
    requires |s.tasks| == 2 && s.tasks[0].phase == s.tasks[1].phase == Admitted(r)
    requires Sha256(r.body) !in s.storage.blobs
    ensures Runs(c, s, es, t) && BothWritten(t, r)
    ensures t.tasks[1].request == s.tasks[1].request
  {
    var m := Next(c, s, WriteBlob(0));
    RunOn(c, s, [], s, WriteBlob(0));
    t := Next(c, m, WriteBlob(1));
    es := [] + [WriteBlob(0)] + [WriteBlob(1)];
    RunOn(c, s, [] + [WriteBlob(0)], m, WriteBlob(1));
  }

  /** The second inserts its row and the first fails to. */
  lemma OneInsertsOneFails(c: Config, s: State, r: Response) returns (es: seq<Step>, t: State)
    requires BothWritten(s, r)
    ensures Runs(c, s, es, t)
    ensures |t.tasks| == 2 && t.tasks[0].phase == Undoing(r, Sha256(r.body))
    ensures var key := s.tasks[1].request.cacheKey;
            && key in t.storage.tables.rows
            && t.storage.tables.rows[key].workspace == "" && t.storage.tables.rows[key].responseHash == Sha256(r.body)
  {
    var ok := GoodWrite(s.tasks[1], r);
    var bad := GoodWrite(s.tasks[0], r).(fault := AtRow);
    var m := Next(c, s, InsertRow(1, ok));
    RunOn(c, s, [], s, InsertRow(1, ok));
    t := Next(c, m, InsertRow(0, bad));
    es := [] + [InsertRow(1, ok)] + [InsertRow(0, bad)];
    RunOn(c, s, [] + [InsertRow(1, ok)], m, InsertRow(0, bad));
  }

  /** The first deletes the blob it created, the only copy of what the row of
      the second names. */
  lemma RollbackLeavesRowBare(c: Config, s: State, r: Response) returns (es: seq<Step>, t: State)
    requires BothWritten(s, r)
    ensures Runs(c, s, es, t)
    ensures AnswerTo(t.storage, s.tasks[1].request.cacheKey, "") == BlobMissing
  {
    var first, m := OneInsertsOneFails(c, s, r);
    t := Next(c, m, DropBlob(0));
    es := first + [DropBlob(0)];
    RunOn(c, s, first, m, DropBlob(0));
  }

  /** Two requests that store the same new bytes, one of which is refused its
      row, can leave the other's row without its blob. */
  lemma RollbackCanDangle(c: Config, s: State, r: Response) returns (es: seq<Step>, t: State)
    requires Initial(c, s) && Burst(c, s, [r, r]) && Sha256(r.body) !in s.storage.blobs
    ensures Runs(c, s, es, t)
    ensures AnswerTo(t.storage, s.tasks[1].request.cacheKey, "") == BlobMissing
  {
    var first, m := AdmitAll(c, s, [r, r]);
    assert [r, r][0] == [r, r][1] == r;
    var second, n := WriteBoth(c, m, r);
    RunsConcat(c, s, first, m, second, n);
    var third, u := RollbackLeavesRowBare(c, n, r);
    RunsConcat(c, s, first + second, n, third, u);
    es, t := first + second + third, u;
  }

  // ---- A cleanup ----

  /** The blob is the cache's own and no row names it. */
  ghost predicate Orphan(s: Storage, h: Digest) {
    h in s.blobs && h in s.tables.known && h in s.tables.cacheRefs && h !in RowHashes(s.tables.rows)
  }

  lemma CleanupStarts(c: Config, s: State, h: Digest) returns (es: seq<Step>, t: State)
    requires s.collectors == [] && Orphan(s.storage, h)
    ensures Runs(c, s, es, t)
    ensures t.tasks == s.tasks && t.storage.blobs == s.storage.blobs && t.storage.tables.rows == s.storage.tables.rows
    ensures t.flights == s.flights && t.permits == s.permits
    ensures |t.collectors| == 1 && t.collectors[0].Listed? && h in t.collectors[0].orphans
    ensures forall e :: e in es ==> !e.InsertRow?
  {
    var scan, list := Background(ScanTables), Background(ListFiles(0));
    var m := Next(c, s, scan);
    RunOn(c, s, [], s, scan);
    t := Next(c, m, list);
    es := [] + [scan] + [list];
    RunOn(c, s, [] + [scan], m, list);
  }

  /** A request whose response is there already inserts its row after the scan. */
  lemma CleanupCanDangle(c: Config, s: State, r: Response) returns (es: seq<Step>, t: State)
    requires Initial(c, s) && CanAdmit(c, s, 0, r) && Orphan(s.storage, Sha256(r.body))
    ensures Runs(c, s, es, t)
    ensures AnswerTo(t.storage, s.tasks[0].request.cacheKey, "") == BlobMissing
  {
    var h := Sha256(r.body);
    var first, m := AdmitOne(c, s, 0, r);
    var second, n := CleanupStarts(c, m, h);
    RunsConcat(c, s, first, m, second, n);
    var third, u := InsertThenDelete(c, n, r);
    RunsConcat(c, s, first + second, n, third, u);
    es, t := first + second + third, u;
  }

  lemma InsertsRow(c: Config, s: State, r: Response) returns (es: seq<Step>, t: State)
    requires |s.tasks| > 0 && s.tasks[0].phase == Admitted(r) && Sha256(r.body) in s.storage.blobs
    ensures Runs(c, s, es, t) && t.collectors == s.collectors
    ensures var key := s.tasks[0].request.cacheKey;
            && key in t.storage.tables.rows
            && t.storage.tables.rows[key].workspace == "" && t.storage.tables.rows[key].responseHash == Sha256(r.body)
  {
    var w := GoodWrite(s.tasks[0], r);
    var m := Next(c, s, WriteBlob(0));
    RunOn(c, s, [], s, WriteBlob(0));
    t := Next(c, m, InsertRow(0, w));
    es := [] + [WriteBlob(0)] + [InsertRow(0, w)];
    RunOn(c, s, [] + [WriteBlob(0)], m, InsertRow(0, w));
  }

  lemma InsertThenDelete(c: Config, s: State, r: Response) returns (es: seq<Step>, t: State)
    requires |s.tasks| > 0 && s.tasks[0].phase == Admitted(r) && Sha256(r.body) in s.storage.blobs
    requires |s.collectors| == 1 && s.collectors[0].Listed? && Sha256(r.body) in s.collectors[0].orphans
    ensures Runs(c, s, es, t)
    ensures AnswerTo(t.storage, s.tasks[0].request.cacheKey, "") == BlobMissing
  {
    var delete := Background(DeleteOrphan(0, Sha256(r.body)));
    var first, m := InsertsRow(c, s, r);
    t := Next(c, m, delete);
    es := first + [delete];
    RunOn(c, s, first, m, delete);
  }

  lemma WriterLosesBlob(c: Config, s: State, r: Response) returns (es: seq<Step>, m: State, more: seq<Step>, t: State)
    requires |s.tasks| > 0 && s.tasks[0].phase == Admitted(r) && Orphan(s.storage, Sha256(r.body))
    requires s.collectors == []
    ensures Runs(c, s, es, m) && Sha256(r.body) !in m.storage.blobs && Sha256(r.body) !in RowHashes(m.storage.tables.rows)
    ensures forall e :: e in es ==> !e.InsertRow?
    ensures Runs(c, m, more, t) && AnswerTo(t.storage, s.tasks[0].request.cacheKey, "") == BlobMissing
  {
    var h := Sha256(r.body);
    var first, l := CleanupStarts(c, s, h);
    var second;
    second, m := FindsThenLoses(c, l, r);
    RunsConcat(c, s, first, l, second, m);
    es := first + second;
    var w := GoodWrite(m.tasks[0], r);
    t := Next(c, m, InsertRow(0, w));
    more := [] + [InsertRow(0, w)];
    RunOn(c, m, [], m, InsertRow(0, w));
  }

  lemma FindsThenLoses(c: Config, s: State, r: Response) returns (es: seq<Step>, t: State)
    requires |s.tasks| > 0 && s.tasks[0].phase == Admitted(r) && Sha256(r.body) in s.storage.blobs
    requires |s.collectors| == 1 && s.collectors[0].Listed? && Sha256(r.body) in s.collectors[0].orphans
    ensures Runs(c, s, es, t) && forall e :: e in es ==> !e.InsertRow?
    ensures |t.tasks| == |s.tasks| && t.tasks[0] == s.tasks[0].(phase := Written(r, Sha256(r.body), false))
    ensures t.storage == Storage(s.storage.tables, s.storage.blobs - {Sha256(r.body)})
  {
    var delete := Background(DeleteOrphan(0, Sha256(r.body)));
    var m := Next(c, s, WriteBlob(0));
    RunOn(c, s, [], s, WriteBlob(0));
    t := Next(c, m, delete);
    es := [] + [WriteBlob(0)] + [delete];
    RunOn(c, s, [] + [WriteBlob(0)], m, delete);
  }

  /** A cleanup that starts at `l` deletes the blob after a request found it there
      and before it inserts its row: at the deletion, in `m`, no row names the blob
      and none was inserted since the scan. */
  lemma CleanupUnderWriter(c: Config, s: State, r: Response)
    returns (before: seq<Step>, l: State, es: seq<Step>, m: State, more: seq<Step>, t: State)
    requires Initial(c, s) && CanAdmit(c, s, 0, r) && Orphan(s.storage, Sha256(r.body))
    ensures Runs(c, s, before, l) && l.collectors == []
    ensures Runs(c, l, es, m) && forall e :: e in es ==> !e.InsertRow?
    ensures Sha256(r.body) !in m.storage.blobs && Sha256(r.body) !in RowHashes(m.storage.tables.rows)
    ensures Runs(c, m, more, t) && AnswerTo(t.storage, s.tasks[0].request.cacheKey, "") == BlobMissing
  {
    before, l := AdmitOne(c, s, 0, r);
    es, m, more, t := WriterLosesBlob(c, l, r);
  }

  // ---- A read ----

  lemma FindRow(c: Config, s: State, h: Digest) returns (es: seq<Step>, t: State)
    requires Initial(c, s) && |s.tasks| > 0 && s.tasks[0].request.flight.None? && s.tasks[0].request.useCache
    requires var key := s.tasks[0].request.cacheKey;
             key in s.storage.tables.rows && s.storage.tables.rows[key].responseHash == h
    ensures Runs(c, s, es, t)
    ensures |t.tasks| > 0 && t.tasks[0].phase.Reading? && t.tasks[0].phase.h == h && t.collectors == []
    ensures t.storage == s.storage.(tables := s.storage.tables.Opened().Evicted(""))
  {
    var ws := s.storage.tables.rows[s.tasks[0].request.cacheKey].workspace;
    var l := Next(c, s, Enter(0));
    RunOn(c, s, [], s, Enter(0));
    var m := Next(c, l, EvictFirst(0, ""));
    RunOn(c, s, [] + [Enter(0)], l, EvictFirst(0, ""));
    t := Next(c, m, ReadRow(0, ws));
    es := [] + [Enter(0)] + [EvictFirst(0, "")] + [ReadRow(0, ws)];
    RunOn(c, s, [] + [Enter(0)] + [EvictFirst(0, "")], m, ReadRow(0, ws));
  }

  lemma ClearRows(c: Config, s: State) returns (es: seq<Step>, t: State)
    ensures Runs(c, s, es, t)
    ensures t == s.(storage := s.storage.(tables := s.storage.tables.Opened().Cleared(None)))
    ensures t.storage.tables.rows == map[]
  {
    var clear := Background(Operation(Op.Clear(None)));
    t := Next(c, s, clear);
    es := [] + [clear];
    RunOn(c, s, [], s, clear);
  }

  lemma DeleteUnderReader(c: Config, s: State, h: Digest) returns (es: seq<Step>, t: State)
    requires |s.tasks| > 0 && s.tasks[0].phase.Reading? && s.tasks[0].phase.h == h
    requires |s.collectors| == 1 && s.collectors[0].Listed? && h in s.collectors[0].orphans
    ensures Runs(c, s, es, t)
    ensures |t.tasks| > 0 && t.tasks[0].phase.Reading? && t.tasks[0].phase.h !in t.storage.blobs
  {
    var delete := Background(DeleteOrphan(0, h));
    t := Next(c, s, delete);
    es := [] + [delete];
    RunOn(c, s, [], s, delete);
  }

  /** A request can find a row and then not its blob, when the row is cleared and
      a cleanup runs in between. */
  lemma ReadCanMiss(c: Config, s: State, h: Digest) returns (es: seq<Step>, t: State)
    requires Initial(c, s) && |s.tasks| > 0 && s.tasks[0].request.flight.None? && s.tasks[0].request.useCache
    requires var key := s.tasks[0].request.cacheKey;
             key in s.storage.tables.rows && s.storage.tables.rows[key].responseHash == h
    requires h in s.storage.blobs && h in s.storage.tables.known && h in s.storage.tables.cacheRefs
    ensures Runs(c, s, es, t)
    ensures |t.tasks| > 0 && t.tasks[0].phase.Reading? && BlobFetched(t, 0).tasks[0].phase.Queued?
  {
    var first, l := FindRow(c, s, h);
    var second, m := ClearRows(c, l);
    RunsConcat(c, s, first, l, second, m);
    var third, n := CleanupStarts(c, m, h);
    RunsConcat(c, s, first + second, m, third, n);
    var fourth, u := DeleteUnderReader(c, n, h);
    RunsConcat(c, s, first + second + third, n, fourth, u);
    es, t := first + second + third + fourth, u;
  }
}
