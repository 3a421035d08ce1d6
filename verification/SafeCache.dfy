/** The persistent response cache (src/safe_cache/cache_db.rs), the blob
    directory behind it, and the orphan collector (src/cli/storage.rs).
    Main results: over any sequential run of writes, reads, evictions, clears,
    reductions and cleanups the pair of tables and directory answers like a plain map from
    keys to responses; no row ever loses its blob; and the collector spares what
    it must, with the exact condition for a reduction's blob to survive. */
module SafeCache {
  import opened Wrappers
  import opened ContentStore
  import opened Timestamps
  import Fingerprints

  datatype CacheKey = CacheKey(project: string, fingerprint: Fingerprints.Fingerprint)

  datatype Row = Row(
    workspace: string, responseHash: Digest, model: string, status: nat,
    tokensInput: nat, tokensOutput: nat, createdAt: string, lastHitAt: string, hitCount: nat)

  datatype NewEntry = NewEntry(
    key: CacheKey, workspace: string, responseHash: Digest, model: string, status: nat,
    tokensInput: nat, tokensOutput: nat)

  /** The statement of `insert` that fails, if one does. */
  datatype InsertFault = NoFault | AtQuery | AtClaim | AtRow

  function RowHashes(rows: map<CacheKey, Row>): set<Digest> {
    set k | k in rows :: rows[k].responseHash
  }

  /** The three tables: cached rows, every registered hash, and the hashes that
      the cache was the first to register. */
  datatype Tables = Tables(rows: map<CacheKey, Row>, known: set<Digest>, cacheRefs: set<Digest>) {

    function Opened(): Tables {
      this.(known := known + RowHashes(rows))
    }

    function Registered(h: Digest): Tables {
      this.(known := known + {h})
    }

    function Claimed(h: Digest): Tables {
      if h in known then this else this.(known := known + {h}, cacheRefs := cacheRefs + {h})
    }

    function Inserted(e: NewEntry, now: string): Tables {
      var row := Row(e.workspace, e.responseHash, e.model, e.status, e.tokensInput, e.tokensOutput, now, now, 1);
      Claimed(e.responseHash).(rows := rows[e.key := row])
    }

    /** What remains of an `insert` that fails at a statement. */
    function InsertedUpTo(e: NewEntry, now: string, fault: InsertFault): Tables {
      match fault
      case NoFault => Inserted(e, now)
      case AtQuery => this
      case AtClaim => Registered(e.responseHash)
      case AtRow => Claimed(e.responseHash)
    }

    function Touched(key: CacheKey, now: string): Tables {
      if key !in rows then this
      else this.(rows := rows[key := rows[key].(lastHitAt := now, hitCount := rows[key].hitCount + 1)])
    }

    function Evicted(cutoff: string): Tables {
      this.(rows := map k | k in rows && !TextBefore(rows[k].createdAt, cutoff) :: rows[k])
    }

    function Cleared(project: Option<string>): Tables {
      this.(rows := map k | k in rows && project.Some? && k.project != project.value :: rows[k])
    }
  }

  class CacheDb {
    var rows: map<CacheKey, Row>
    var known: set<Digest>
    var cacheRefs: set<Digest>

    function State(): Tables
      reads this
    {
      Tables(rows, known, cacheRefs)
    }

    /** Opens the tables found in the database file and backfills the registry
        with the hashes of existing rows, but not the ownership table. */
    constructor (file: Tables)
      ensures State() == file.Opened()
      ensures rows == file.rows && cacheRefs == file.cacheRefs
      ensures forall h :: h in known <==> h in file.known || exists k :: k in rows && rows[k].responseHash == h
    {
      rows := file.rows;
      known := file.known + (set k | k in file.rows :: file.rows[k].responseHash);
      cacheRefs := file.cacheRefs;
    }

    method RegisterCas(hash: Digest)
      modifies this
      ensures State() == old(State()).Registered(hash)
      ensures rows == old(rows) && known == old(known) + {hash} && cacheRefs == old(cacheRefs)
    {
      known := known + {hash};
    }

    method Lookup(key: CacheKey) returns (row: Option<Row>)
      ensures row == if key in rows then Some(rows[key]) else None
    {
      row := if key in rows then Some(rows[key]) else None;
    }

    method Insert(e: NewEntry, now: string, fault: InsertFault) returns (ok: bool)
      modifies this
      ensures ok <==> fault.NoFault?
      ensures State() == old(State()).InsertedUpTo(e, now, fault)
      ensures !ok ==> rows == old(rows)
      ensures ok ==> rows == old(rows)[e.key := Row(e.workspace, e.responseHash, e.model, e.status,
                                                    e.tokensInput, e.tokensOutput, now, now, 1)]
      ensures known == if fault.AtQuery? then old(known) else old(known) + {e.responseHash}
      ensures cacheRefs == if fault.AtQuery? || fault.AtClaim? || e.responseHash in old(known) then old(cacheRefs)
                           else old(cacheRefs) + {e.responseHash}
    {
      if fault.AtQuery? {
        return false;
      }
      var wasKnown := e.responseHash in known;
      RegisterCas(e.responseHash);
      if fault.AtClaim? {
        return false;
      }
      if !wasKnown {
        cacheRefs := cacheRefs + {e.responseHash};
      } else {
        assert known == old(known);
      }
      if fault.AtRow? {
        return false;
      }
      rows := rows[e.key := Row(e.workspace, e.responseHash, e.model, e.status,
                                e.tokensInput, e.tokensOutput, now, now, 1)];
      return true;
    }

    method Touch(key: CacheKey, now: string)
      modifies this
      ensures State() == old(State()).Touched(key, now)
      ensures rows.Keys == old(rows).Keys && known == old(known) && cacheRefs == old(cacheRefs)
      ensures forall k :: k in rows && k != key ==> rows[k] == old(rows)[k]
      ensures key in rows ==>
                rows[key] == old(rows)[key].(lastHitAt := now, hitCount := old(rows)[key].hitCount + 1)
    {
      if key in rows {
        rows := rows[key := rows[key].(lastHitAt := now, hitCount := rows[key].hitCount + 1)];
      }
    }

    method EvictExpired(cutoff: string) returns (removed: nat)
      modifies this
      ensures State() == old(State()).Evicted(cutoff)
      ensures known == old(known) && cacheRefs == old(cacheRefs)
      ensures forall k :: k in rows <==> k in old(rows) && !TextBefore(old(rows)[k].createdAt, cutoff)
      ensures forall k :: k in rows ==> rows[k] == old(rows)[k]
      ensures removed + |rows| == |old(rows)|
    {
      var kept := map k | k in rows && !TextBefore(rows[k].createdAt, cutoff) :: rows[k];
      KeptAndRemoved(rows, kept);
      removed := |rows| - |kept|;
      rows := kept;
    }

    method Clear(project: Option<string>) returns (removed: nat)
      modifies this
      ensures State() == old(State()).Cleared(project)
      ensures known == old(known) && cacheRefs == old(cacheRefs)
      ensures forall k :: k in rows <==> k in old(rows) && project.Some? && k.project != project.value
      ensures forall k :: k in rows ==> rows[k] == old(rows)[k]
      ensures removed + |rows| == |old(rows)|
    {
      var kept := map k | k in rows && project.Some? && k.project != project.value :: rows[k];
      KeptAndRemoved(rows, kept);
      removed := |rows| - |kept|;
      rows := kept;
    }

    /** Classifies every file: `safe` may be deleted, `legacy` must not be.  Both
        come with the sizes found, largest first. */
    method OrphanCandidates(cas: CasStore) returns (safe: seq<Candidate>, legacy: seq<Candidate>)
      ensures Lists(safe, Collectable(State(), cas.blobs), cas.blobs) && LargestFirst(safe)
      ensures Lists(legacy, Untracked(State(), cas.blobs), cas.blobs) && LargestFirst(legacy)
      ensures forall h :: h in HashesOf(safe) <==>
                h in cas.blobs && h in known && h in cacheRefs && forall k :: k in rows ==> rows[k].responseHash != h
      ensures forall h :: h in HashesOf(legacy) <==> h in cas.blobs && h !in known
    {
      safe, legacy := [], [];
      var referenced := set k | k in rows :: rows[k].responseHash;
      var files := cas.blobs.Keys;
      while files != {}
        invariant files <= cas.blobs.Keys
        invariant Lists(safe, Collectable(State(), cas.blobs) - files, cas.blobs)
        invariant Lists(legacy, Untracked(State(), cas.blobs) - files, cas.blobs)
        decreases files
      {
        var h :| h in files;
        var found := Candidate(h, |cas.blobs[h]|);
        if h !in known {
          ListsOneMore(legacy, Untracked(State(), cas.blobs) - files, cas.blobs, h);
          legacy := legacy + [found];
        } else if h in cacheRefs && h !in referenced {
          ListsOneMore(safe, Collectable(State(), cas.blobs) - files, cas.blobs, h);
          safe := safe + [found];
        }
        assert Collectable(State(), cas.blobs) - (files - {h}) ==
               (Collectable(State(), cas.blobs) - files)
               + if h in Collectable(State(), cas.blobs) then {h} else {};
        assert Untracked(State(), cas.blobs) - (files - {h}) ==
               (Untracked(State(), cas.blobs) - files)
               + if h in Untracked(State(), cas.blobs) then {h} else {};
        files := files - {h};
      }
      assert Collectable(State(), cas.blobs) - files == Collectable(State(), cas.blobs);
      assert Untracked(State(), cas.blobs) - files == Untracked(State(), cas.blobs);
      SortKeepsList(safe, Collectable(State(), cas.blobs), cas.blobs);
      SortKeepsList(legacy, Untracked(State(), cas.blobs), cas.blobs);
      safe, legacy := BySize(safe), BySize(legacy);
      ListedHashes(safe, Collectable(State(), cas.blobs), cas.blobs);
      ListedHashes(legacy, Untracked(State(), cas.blobs), cas.blobs);
    }
  }

  // ---- Lists of orphans ----

  /** A file that the scan found, and its size then. */
  datatype Candidate = Candidate(hash: Digest, bytes: nat)

  /** The candidates are these hashes, each once, with their sizes. */
  ghost predicate Lists(cs: seq<Candidate>, hashes: set<Digest>, blobs: Blobs) {
    && hashes <= blobs.Keys
    && (forall i :: 0 <= i < |cs| ==> cs[i].hash in hashes && cs[i].bytes == |blobs[cs[i].hash]|)
    && (forall h :: h in hashes ==> exists i :: 0 <= i < |cs| && cs[i].hash == h)
    && (forall i, j :: 0 <= i < j < |cs| ==> cs[i].hash != cs[j].hash)
  }

  function HashesOf(cs: seq<Candidate>): set<Digest> {
    set i | 0 <= i < |cs| :: cs[i].hash
  }

  lemma ListedHashes(cs: seq<Candidate>, hashes: set<Digest>, blobs: Blobs)
    requires Lists(cs, hashes, blobs)
    ensures HashesOf(cs) == hashes
  {
  }

  predicate LargestFirst(cs: seq<Candidate>) {
    forall i, j :: 0 <= i < j < |cs| ==> cs[i].bytes >= cs[j].bytes
  }

  lemma ListsOneMore(cs: seq<Candidate>, hashes: set<Digest>, blobs: Blobs, h: Digest)
    requires Lists(cs, hashes, blobs) && h in blobs && h !in hashes
    ensures Lists(cs + [Candidate(h, |blobs[h]|)], hashes + {h}, blobs)
  {
    var more := cs + [Candidate(h, |blobs[h]|)];
    forall g | g in hashes + {h}
      ensures exists i :: 0 <= i < |more| && more[i].hash == g
    {
      if g == h {
        assert more[|cs|].hash == h;
      } else {
        var i :| 0 <= i < |cs| && cs[i].hash == g;
        assert more[i].hash == g;
      }
    }
  }

  /** Where a candidate of that size goes: after those at least as large. */
  function Place(cs: seq<Candidate>, bytes: nat): (n: nat)
    ensures n <= |cs|
    ensures forall i :: 0 <= i < n ==> cs[i].bytes >= bytes
    ensures n < |cs| ==> cs[n].bytes < bytes
  {
    if cs == [] || cs[0].bytes < bytes then 0
    else
      assert forall i :: 0 < i < |cs| ==> cs[i] == cs[1..][i - 1];
      1 + Place(cs[1..], bytes)
  }

  function Placed(cs: seq<Candidate>, c: Candidate): seq<Candidate> {
    var n := Place(cs, c.bytes);
    cs[..n] + [c] + cs[n..]
  }

  lemma PlacedAt(cs: seq<Candidate>, c: Candidate)
    ensures var n := Place(cs, c.bytes);
            var r := Placed(cs, c);
            && |r| == |cs| + 1 && r[n] == c
            && (forall i :: 0 <= i < n ==> r[i] == cs[i])
            && (forall i :: n < i < |r| ==> r[i] == cs[i - 1])
  {
  }

  lemma PlacedInOrder(cs: seq<Candidate>, c: Candidate)
    requires LargestFirst(cs)
    ensures LargestFirst(Placed(cs, c))
  {
    PlacedAt(cs, c);
  }

  lemma PlacedHas(cs: seq<Candidate>, c: Candidate, h: Digest)
    requires h == c.hash || exists i :: 0 <= i < |cs| && cs[i].hash == h
    ensures exists i :: 0 <= i < |Placed(cs, c)| && Placed(cs, c)[i].hash == h
  {
    var n := Place(cs, c.bytes);
    PlacedAt(cs, c);
    if h == c.hash {
      assert Placed(cs, c)[n].hash == h;
    } else {
      var i :| 0 <= i < |cs| && cs[i].hash == h;
      assert Placed(cs, c)[if i < n then i else i + 1].hash == h;
    }
  }

  lemma PlacedDistinct(cs: seq<Candidate>, c: Candidate)
    requires forall i, j :: 0 <= i < j < |cs| ==> cs[i].hash != cs[j].hash
    requires forall i :: 0 <= i < |cs| ==> cs[i].hash != c.hash
    ensures forall i, j :: 0 <= i < j < |Placed(cs, c)| ==> Placed(cs, c)[i].hash != Placed(cs, c)[j].hash
  {
    PlacedAt(cs, c);
  }

  lemma PlacedFrom(cs: seq<Candidate>, c: Candidate, i: nat)
    requires i < |Placed(cs, c)|
    ensures Placed(cs, c)[i] == c || Placed(cs, c)[i] in cs
  {
    PlacedAt(cs, c);
  }

  lemma PlacedLists(cs: seq<Candidate>, c: Candidate, hashes: set<Digest>, blobs: Blobs)
    requires Lists(cs, hashes, blobs) && c.hash in blobs && c.hash !in hashes && c.bytes == |blobs[c.hash]|
    ensures Lists(Placed(cs, c), hashes + {c.hash}, blobs)
  {
    var r := Placed(cs, c);
    PlacedDistinct(cs, c);
    forall i | 0 <= i < |r|
      ensures r[i].hash in hashes + {c.hash} && r[i].bytes == |blobs[r[i].hash]|
    {
      PlacedFrom(cs, c, i);
    }
    forall h | h in hashes + {c.hash}
      ensures exists i :: 0 <= i < |r| && r[i].hash == h
    {
      PlacedHas(cs, c, h);
    }
  }

  /** The standard library's stable sort, largest first. */
  function BySize(cs: seq<Candidate>): (r: seq<Candidate>)
    ensures LargestFirst(r)
    decreases |cs|
  {
    if cs == [] then []
    else
      var sorted := BySize(cs[..|cs| - 1]);
      PlacedInOrder(sorted, cs[|cs| - 1]);
      Placed(sorted, cs[|cs| - 1])
  }

  lemma WithoutLast(cs: seq<Candidate>, hashes: set<Digest>, blobs: Blobs)
    requires Lists(cs, hashes, blobs) && cs != []
    ensures var last := cs[|cs| - 1].hash;
            last in hashes && Lists(cs[..|cs| - 1], hashes - {last}, blobs)
  {
    var init, last := cs[..|cs| - 1], cs[|cs| - 1].hash;
    forall h | h in hashes - {last}
      ensures exists i :: 0 <= i < |init| && init[i].hash == h
    {
      var i :| 0 <= i < |cs| && cs[i].hash == h;
      assert init[i].hash == h;
    }
  }

  lemma {:induction false} SortKeepsList(cs: seq<Candidate>, hashes: set<Digest>, blobs: Blobs)
    requires Lists(cs, hashes, blobs)
    ensures Lists(BySize(cs), hashes, blobs)
    decreases |cs|
  {
    if cs == [] {
    } else {
      var last := cs[|cs| - 1];
      WithoutLast(cs, hashes, blobs);
      SortKeepsList(cs[..|cs| - 1], hashes - {last.hash}, blobs);
      PlacedLists(BySize(cs[..|cs| - 1]), last, hashes - {last.hash}, blobs);
      assert hashes - {last.hash} + {last.hash} == hashes;
    }
  }

  lemma KeptAndRemoved(rows: map<CacheKey, Row>, kept: map<CacheKey, Row>)
    requires kept.Keys <= rows.Keys
    ensures |kept| <= |rows|
  {
    CardinalityOfSubset(kept.Keys, rows.Keys);
  }

  lemma {:induction false} CardinalityOfSubset<T>(a: set<T>, b: set<T>)
    requires a <= b
    ensures |a| <= |b|
    decreases a
  {
    if x :| x in a {
      CardinalityOfSubset(a - {x}, b - {x});
    }
  }

  // ---- Tables and directory together ----

  /** The blobs cleanup deletes: owned by the cache and named by no row. */
  function Collectable(t: Tables, blobs: Blobs): set<Digest> {
    set h | h in blobs && h in t.known && h in t.cacheRefs && h !in RowHashes(t.rows)
  }

  /** The blobs that were never registered. */
  function Untracked(t: Tables, blobs: Blobs): set<Digest> {
    set h | h in blobs && h !in t.known
  }

  datatype Storage = Storage(tables: Tables, blobs: Blobs)

  datatype Answer = Hit(response: Response) | NoRow | WrongWorkspace | BlobMissing

  datatype Write = Write(
    key: CacheKey, workspace: string, model: string, response: Response, tokensInput: nat, tokensOutput: nat,
    now: string, dbOpens: bool, fault: InsertFault)
  {
    function Entry(): NewEntry {
      NewEntry(key, workspace, Sha256(response.body), model, response.status, tokensInput, tokensOutput)
    }

    predicate Succeeds() {
      dbOpens && fault.NoFault?
    }
  }

  /** A response is stored: blob first, then the row; a blob created for a row
      that could not be inserted is deleted again. */
  function AfterWrite(s: Storage, w: Write): Storage {
    var h := Sha256(w.response.body);
    var created := h !in s.blobs;
    var blobs := if created then Stored(s.blobs, w.response.body) else s.blobs;
    var tables := if w.dbOpens then s.tables.Opened().InsertedUpTo(w.Entry(), w.now, w.fault) else s.tables;
    Storage(tables, if !w.Succeeds() && created then blobs - {h} else blobs)
  }

  function AnswerTo(s: Storage, key: CacheKey, workspace: string): Answer {
    if key !in s.tables.rows then NoRow
    else
      var row := s.tables.rows[key];
      if row.workspace != workspace then WrongWorkspace
      else if row.responseHash !in s.blobs then BlobMissing
      else Hit(Response(row.status, s.blobs[row.responseHash]))
  }

  /** A request looks for a stored response: expired rows go first, and a hit
      updates the row's hit counters. */
  function AfterRead(s: Storage, key: CacheKey, workspace: string, cutoff: string, now: string): Storage {
    var t := s.tables.Opened().Evicted(cutoff);
    Storage(if AnswerTo(Storage(t, s.blobs), key, workspace).Hit? then t.Touched(key, now) else t, s.blobs)
  }

  method StoreResponse(file: Tables, cas: CasStore, w: Write) returns (after: Tables)
    modifies cas
    ensures Storage(after, cas.blobs) == AfterWrite(Storage(file, old(cas.blobs)), w)
    ensures !w.Succeeds() ==> cas.blobs == old(cas.blobs)
    ensures w.Succeeds() ==>
              var h := Sha256(w.response.body);
              cas.blobs == if h in old(cas.blobs) then old(cas.blobs) else old(cas.blobs)[h := w.response.body]
  {
    var hash, created := cas.StoreNew(w.response.body);
    after := file;
    if w.dbOpens {
      var db := new CacheDb(file);
      var ok := db.Insert(w.Entry().(responseHash := hash), w.now, w.fault);
      after := db.State();
      if !ok && created {
        var _ := cas.Delete(hash);
      }
    } else if created {
      var _ := cas.Delete(hash);
    }
  }

  method Replay(file: Tables, cas: CasStore, key: CacheKey, workspace: string, cutoff: string, now: string)
    returns (after: Tables, answer: Answer)
    ensures Storage(after, cas.blobs) == AfterRead(Storage(file, cas.blobs), key, workspace, cutoff, now)
    ensures answer == AnswerTo(Storage(file.Opened().Evicted(cutoff), cas.blobs), key, workspace)
    ensures forall k :: k in after.rows <==> k in file.rows && !TextBefore(file.rows[k].createdAt, cutoff)
    ensures forall k :: k in after.rows ==>
              after.rows[k] == if answer.Hit? && k == key
                               then file.rows[k].(lastHitAt := now, hitCount := file.rows[k].hitCount + 1)
                               else file.rows[k]
  {
    var db := new CacheDb(file);
    var _ := db.EvictExpired(cutoff);
    var row := db.Lookup(key);
    if row.None? {
      answer := NoRow;
    } else if row.value.workspace != workspace {
      answer := WrongWorkspace;
    } else {
      var bytes := cas.Retrieve(row.value.responseHash);
      if bytes.Some? {
        db.Touch(key, now);
        answer := Hit(Response(row.value.status, bytes.value));
      } else {
        answer := BlobMissing;
      }
    }
    after := db.State();
  }

  lemma {:induction false} ListSize(cs: seq<Candidate>)
    requires forall i, j :: 0 <= i < j < |cs| ==> cs[i].hash != cs[j].hash
    ensures |HashesOf(cs)| == |cs|
    decreases |cs|
  {
    if cs == [] {
    } else {
      var n := |cs| - 1;
      ListSize(cs[..n]);
      assert HashesOf(cs) == HashesOf(cs[..n]) + {cs[n].hash};
    }
  }

  /** The deletion loop: what it reports freed are the sizes that the scan found. */
  method DeleteAll(cas: CasStore, cs: seq<Candidate>) returns (deleted: nat, freed: nat)
    requires Lists(cs, HashesOf(cs), cas.blobs)
    modifies cas
    ensures cas.blobs == old(cas.blobs) - HashesOf(cs)
    ensures deleted == |cs|
    ensures DiskBytes(cas.blobs) + freed == DiskBytes(old(cas.blobs))
  {
    deleted, freed := 0, 0;
    for i := 0 to |cs|
      invariant cas.blobs == old(cas.blobs) - HashesOf(cs[..i])
      invariant deleted == i
      invariant DiskBytes(cas.blobs) + freed == DiskBytes(old(cas.blobs))
    {
      var h := cs[i].hash;
      assert h !in HashesOf(cs[..i]);
      DiskBytesPick(cas.blobs, h);
      var removed := cas.Delete(h);
      if removed {
        deleted := deleted + 1;
        freed := freed + cs[i].bytes;
      }
      assert HashesOf(cs[..i + 1]) == HashesOf(cs[..i]) + {h};
    }
    assert cs[..|cs|] == cs;
  }

  /** Deletes the collectable blobs and reports how many files and bytes. */
  method CleanupOrphans(file: Tables, cas: CasStore) returns (after: Tables, deleted: nat, freed: nat)
    modifies cas
    ensures after == file.Opened()
    ensures cas.blobs == old(cas.blobs) - Collectable(after, old(cas.blobs))
    ensures deleted == |Collectable(after, old(cas.blobs))|
    ensures DiskBytes(cas.blobs) + freed == DiskBytes(old(cas.blobs))
  {
    var db := new CacheDb(file);
    after := db.State();
    var safe, legacy := db.OrphanCandidates(cas);
    ListSize(safe);
    ListedHashes(safe, Collectable(after, cas.blobs), cas.blobs);
    deleted, freed := DeleteAll(cas, safe);
  }

  // ---- Runs ----

  datatype Op =
    | OpenDb
    | WriteResponse(w: Write)
    | ReadResponse(key: CacheKey, workspace: string, cutoff: string, now: string)
    | Evict(cutoff: string)
    | Clear(project: Option<string>)
    | StoreReduction(raw: Bytes)
    | Register(hash: Digest)
    | Cleanup

  function Step(s: Storage, op: Op): Storage {
    var t := s.tables.Opened();
    match op
    case OpenDb => Storage(t, s.blobs)
    case WriteResponse(w) => AfterWrite(s, w)
    case ReadResponse(key, ws, cutoff, now) => AfterRead(s, key, ws, cutoff, now)
    case Evict(cutoff) => Storage(t.Evicted(cutoff), s.blobs)
    case Clear(project) => Storage(t.Cleared(project), s.blobs)
    case StoreReduction(raw) => Storage(s.tables, Stored(s.blobs, raw))
    case Register(h) => Storage(t.Registered(h), s.blobs)
    case Cleanup => Storage(t, s.blobs - Collectable(t, s.blobs))
  }

  function Run(s: Storage, ops: seq<Op>): Storage
    decreases |ops|
  {
    if ops == [] then s else Run(Step(s, ops[0]), ops[1..])
  }

  /** What every run keeps: files named after their bytes, ownership within the
      registry, and every row's blob registered and present. */
  ghost predicate Sound(s: Storage) {
    && Addressed(s.blobs)
    && s.tables.cacheRefs <= s.tables.known
    && (forall k :: k in s.tables.rows ==> s.tables.rows[k].responseHash in s.tables.known)
    && (forall k :: k in s.tables.rows ==> s.tables.rows[k].responseHash in s.blobs)
  }

  /** A database from before the registry existed: its rows may be unregistered. */
  lemma OpeningOldDataIsSound(s: Storage)
    requires Addressed(s.blobs) && s.tables.cacheRefs <= s.tables.known
    requires forall k :: k in s.tables.rows ==> s.tables.rows[k].responseHash in s.blobs
    ensures Sound(Step(s, OpenDb))
  {
  }

  lemma WriteKeepsSound(s: Storage, w: Write)
    requires Sound(s)
    ensures Sound(AfterWrite(s, w))
  {
    var h := Sha256(w.response.body);
    if !w.Succeeds() && h !in s.blobs {
      assert AfterWrite(s, w).blobs == s.blobs;
    }
  }

  lemma StepKeepsSound(s: Storage, op: Op)
    requires Sound(s)
    ensures Sound(Step(s, op))
  {
    if op.WriteResponse? {
      WriteKeepsSound(s, op.w);
    }
  }

  /** No row dangles: in every sequential run, whatever fails, each row's blob
      is present, holds the bytes of its hash, and is registered. */
  lemma {:induction false} RunKeepsSound(s: Storage, ops: seq<Op>)
    requires Sound(s)
    ensures Sound(Run(s, ops))
    decreases |ops|
  {
    if ops == [] {
    } else {
      StepKeepsSound(s, ops[0]);
      RunKeepsSound(Step(s, ops[0]), ops[1..]);
    }
  }

  // ---- The cache is a map ----

  datatype Entry = Entry(workspace: string, response: Response, createdAt: string)

  type CacheMap = map<CacheKey, Entry>

  ghost function View(s: Storage): CacheMap
    requires Sound(s)
  {
    map k | k in s.tables.rows ::
      var row := s.tables.rows[k];
      Entry(row.workspace, Response(row.status, s.blobs[row.responseHash]), row.createdAt)
  }

  function Surviving(m: CacheMap, cutoff: string): CacheMap {
    map k | k in m && !TextBefore(m[k].createdAt, cutoff) :: m[k]
  }

  /** The operations on the map: reductions, registrations and cleanups do not
      exist here, and neither do failed writes. */
  function MapStep(m: CacheMap, op: Op): CacheMap {
    match op
    case WriteResponse(w) =>
      if w.Succeeds() then m[w.key := Entry(w.workspace, w.response, w.now)] else m
    case ReadResponse(_, _, cutoff, _) => Surviving(m, cutoff)
    case Evict(cutoff) => Surviving(m, cutoff)
    case Clear(project) => map k | k in m && project.Some? && k.project != project.value :: m[k]
    case _ => m
  }

  function MapAnswer(m: CacheMap, key: CacheKey, workspace: string): Answer {
    if key !in m then NoRow
    else if m[key].workspace != workspace then WrongWorkspace
    else Hit(m[key].response)
  }

  /** The answers given along a run to its reads. */
  function Answers(s: Storage, ops: seq<Op>): seq<Answer>
    decreases |ops|
  {
    if ops == [] then []
    else
      (match ops[0]
       case ReadResponse(key, ws, cutoff, _) =>
         [AnswerTo(Storage(s.tables.Opened().Evicted(cutoff), s.blobs), key, ws)]
       case _ => [])
      + Answers(Step(s, ops[0]), ops[1..])
  }

  function MapAnswers(m: CacheMap, ops: seq<Op>): seq<Answer>
    decreases |ops|
  {
    if ops == [] then []
    else
      (match ops[0]
       case ReadResponse(key, ws, cutoff, _) => [MapAnswer(Surviving(m, cutoff), key, ws)]
       case _ => [])
      + MapAnswers(MapStep(m, ops[0]), ops[1..])
  }

  lemma WriteRefines(s: Storage, w: Write)
    requires Sound(s)
    ensures Sound(AfterWrite(s, w))
    ensures View(AfterWrite(s, w)) == MapStep(View(s), WriteResponse(w))
  {
    WriteKeepsSound(s, w);
  }

  lemma EvictionRefines(s: Storage, cutoff: string)
    requires Sound(s)
    ensures var t := Storage(s.tables.Opened().Evicted(cutoff), s.blobs);
            Sound(t) && View(t) == Surviving(View(s), cutoff)
  {
  }

  lemma ReadRefines(s: Storage, key: CacheKey, workspace: string, cutoff: string, now: string)
    requires Sound(s)
    ensures var r := AfterRead(s, key, workspace, cutoff, now);
            Sound(r) && View(r) == Surviving(View(s), cutoff)
    ensures AnswerTo(Storage(s.tables.Opened().Evicted(cutoff), s.blobs), key, workspace)
         == MapAnswer(Surviving(View(s), cutoff), key, workspace)
  {
    EvictionRefines(s, cutoff);
    var t := Storage(s.tables.Opened().Evicted(cutoff), s.blobs);
    var r := AfterRead(s, key, workspace, cutoff, now);
    assert View(r) == View(t);
  }

  lemma ClearRefines(s: Storage, project: Option<string>)
    requires Sound(s)
    ensures Sound(Step(s, Op.Clear(project))) && View(Step(s, Op.Clear(project))) == MapStep(View(s), Op.Clear(project))
  {
  }

  /** Opening, reductions, registrations and cleanups do not exist on the map. */
  lemma OutsideRefines(s: Storage, op: Op)
    requires Sound(s) && (op.OpenDb? || op.StoreReduction? || op.Register? || op.Cleanup?)
    ensures Sound(Step(s, op)) && View(Step(s, op)) == View(s)
  {
    StepKeepsSound(s, op);
  }

  lemma StepRefines(s: Storage, op: Op)
    requires Sound(s)
    ensures Sound(Step(s, op))
    ensures View(Step(s, op)) == MapStep(View(s), op)
    ensures op.ReadResponse? ==>
              AnswerTo(Storage(s.tables.Opened().Evicted(op.cutoff), s.blobs), op.key, op.workspace)
              == MapAnswer(Surviving(View(s), op.cutoff), op.key, op.workspace)
  {
    match op
    case WriteResponse(w) => WriteRefines(s, w);
    case ReadResponse(key, ws, cutoff, now) => ReadRefines(s, key, ws, cutoff, now);
    case Evict(cutoff) => EvictionRefines(s, cutoff);
    case Clear(project) => ClearRefines(s, project);
    case _ => OutsideRefines(s, op);
  }

  /** Tables, directory and collector together answer every read of every run
      as the map does; in particular a blob is never found missing. */
  lemma {:induction false} RunRefinesMap(s: Storage, ops: seq<Op>)
    requires Sound(s)
    ensures Answers(s, ops) == MapAnswers(View(s), ops)
    ensures BlobMissing !in Answers(s, ops)
    decreases |ops|
  {
    if ops == [] {
    } else {
      StepRefines(s, ops[0]);
      RunRefinesMap(Step(s, ops[0]), ops[1..]);
    }
  }

  // ---- What the collector spares ----

  /** Registered, but not first by the cache. */
  predicate Protected(t: Tables, h: Digest) {
    h in t.known && h !in t.cacheRefs
  }

  lemma {:induction false} ProtectedForever(s: Storage, ops: seq<Op>, h: Digest)
    requires Protected(s.tables, h)
    ensures Protected(Run(s, ops).tables, h)
    ensures h in s.blobs ==> h in Run(s, ops).blobs
    decreases |ops|
  {
    if ops == [] {
    } else {
      ProtectedForever(Step(s, ops[0]), ops[1..], h);
    }
  }

  ghost predicate AlwaysKept(s: Storage, h: Digest) {
    forall ops: seq<Op> :: h in Run(s, ops).blobs
  }

  /** A blob that the cache owns goes in a cleanup after its rows were cleared. */
  lemma OwnedIsCollected(t: Storage, h: Digest)
    requires Sound(t) && h in t.blobs && h in t.tables.cacheRefs
    ensures h !in Run(t, [Op.Clear(None), Cleanup]).blobs
  {
    var cleared := Step(t, Op.Clear(None));
    var ops := [Op.Clear(None), Cleanup];
    assert Run(t, ops) == Run(Step(cleared, Cleanup), ops[1..][1..]) == Step(cleared, Cleanup);
    assert cleared.tables.rows == map[];
    assert h in cleared.tables.known && h in cleared.tables.cacheRefs && h in cleared.blobs;
    assert h in Collectable(cleared.tables.Opened(), cleared.blobs);
  }

  /** A stored response takes its blob into the cache's care unless the hash was
      registered without being owned: exactly then no later run deletes it. */
  lemma WrittenBlobKeptIff(s: Storage, w: Write)
    requires Sound(s) && w.Succeeds()
    ensures var h := Sha256(w.response.body);
            var t := Step(s, WriteResponse(w));
            && h in t.blobs
            && (AlwaysKept(t, h) <==> h in s.tables.known && h !in s.tables.cacheRefs)
            && (h !in s.tables.known ==> h !in Run(t, [Op.Clear(None), Cleanup]).blobs)
  {
    var h := Sha256(w.response.body);
    var t := Step(s, WriteResponse(w));
    WriteKeepsSound(s, w);
    if h in s.tables.known && h !in s.tables.cacheRefs {
      forall ops
        ensures h in Run(t, ops).blobs
      {
        ProtectedForever(t, ops, h);
      }
    } else {
      OwnedIsCollected(t, h);
    }
  }

  /** So an insert that fails after registering a new hash and before claiming it
      leaks: bytes that are stored again later are never collected. */
  lemma UnclaimedIsNeverCollected(s: Storage, failed: Write, w: Write)
    requires Sound(s) && failed.dbOpens && failed.fault.AtClaim? && w.Succeeds()
    requires failed.response.body == w.response.body && Sha256(w.response.body) !in s.tables.known
    ensures AlwaysKept(Run(s, [WriteResponse(failed), WriteResponse(w)]), Sha256(w.response.body))
  {
    var ops := [WriteResponse(failed), WriteResponse(w)];
    var next := Step(s, ops[0]);
    assert Run(s, ops) == Run(Step(next, ops[1]), ops[1..][1..]) == Step(next, ops[1]);
    WriteKeepsSound(s, failed);
    WrittenBlobKeptIff(next, w);
  }

  /** An original that a reduction registers, whatever happened since it was
      stored, is recoverable in every later run exactly when the cache had not
      registered the same bytes first. */
  lemma ReductionSurvivesIff(s: Storage, h: Digest)
    requires Sound(s) && h in s.blobs
    ensures AlwaysKept(Step(s, Register(h)), h) <==> h !in s.tables.cacheRefs
  {
    var t := Step(s, Register(h));
    if h !in s.tables.cacheRefs {
      forall ops
        ensures h in Run(t, ops).blobs
      {
        ProtectedForever(t, ops, h);
      }
    } else {
      StepKeepsSound(s, Register(h));
      OwnedIsCollected(t, h);
    }
  }

  // ---- Expiry ----

  /** Eviction keeps exactly the rows that are not older than the cutoff, and a
      hit in between neither extends nor shortens a row's life. */
  lemma EvictionByAge(t: Tables, key: CacheKey, created: Instant, cutoff: Instant, hitAt: string)
    requires key in t.rows && t.rows[key].createdAt == Render(created)
    requires created.Valid() && cutoff.Valid()
    ensures key in t.Evicted(Render(cutoff)).rows <==> !created.Before(cutoff)
    ensures t.Touched(key, hitAt).Evicted(Render(cutoff)).rows.Keys == t.Evicted(Render(cutoff)).rows.Keys
  {
    TextOrderIsTimeOrder(created, cutoff);
  }

  function MapRun(m: CacheMap, ops: seq<Op>): CacheMap
    decreases |ops|
  {
    if ops == [] then m else MapRun(MapStep(m, ops[0]), ops[1..])
  }

  lemma {:induction false} RunView(s: Storage, ops: seq<Op>)
    requires Sound(s)
    ensures Sound(Run(s, ops)) && View(Run(s, ops)) == MapRun(View(s), ops)
    decreases |ops|
  {
    if ops == [] {
    } else {
      StepRefines(s, ops[0]);
      RunView(Step(s, ops[0]), ops[1..]);
    }
  }

  /** The entry was stored by a write among the operations, or was there before. */
  ghost predicate StoredBy(m: CacheMap, ops: seq<Op>, key: CacheKey, e: Entry) {
    || (key in m && m[key] == e)
    || exists w :: WriteResponse(w) in ops && w.Succeeds() && w.key == key && e == Entry(w.workspace, w.response, w.now)
  }

  lemma {:induction false} EntriesComeFromWrites(m: CacheMap, ops: seq<Op>, key: CacheKey)
    requires key in MapRun(m, ops)
    ensures StoredBy(m, ops, key, MapRun(m, ops)[key])
    decreases |ops|
  {
    if ops == [] {
    } else {
      var next := MapStep(m, ops[0]);
      EntriesComeFromWrites(next, ops[1..], key);
      var e := MapRun(m, ops)[key];
      if key in next && next[key] == e && !(key in m && m[key] == e) {
        assert ops[0].WriteResponse? && ops[0] == WriteResponse(ops[0].w);
        assert WriteResponse(ops[0].w) in ops;
      }
    }
  }

  ghost predicate IsTime(text: string) {
    exists x: Instant :: x.Valid() && text == Render(x)
  }

  /** Rows and writes carry printed instants. */
  ghost predicate Timed(s: Storage, ops: seq<Op>) {
    && (forall k :: k in s.tables.rows ==> IsTime(s.tables.rows[k].createdAt))
    && (forall w :: WriteResponse(w) in ops ==> IsTime(w.now))
  }

  /** The answer to a read after a run. */
  function ReadAfter(s: Storage, ops: seq<Op>, key: CacheKey, workspace: string, cutoff: Instant): Answer {
    var t := Run(s, ops);
    AnswerTo(Storage(t.tables.Opened().Evicted(Render(cutoff)), t.blobs), key, workspace)
  }

  /** Over all runs with printed timestamps: a response that a read replays was
      stored for its key and workspace, with these very bytes, at an instant that
      is not before the cutoff of the read. */
  lemma HitWithinTtl(s: Storage, ops: seq<Op>, key: CacheKey, workspace: string, cutoff: Instant, r: Response)
    requires Sound(s) && Timed(s, ops) && cutoff.Valid()
    requires ReadAfter(s, ops, key, workspace, cutoff) == Hit(r)
    ensures exists x: Instant :: x.Valid() && !x.Before(cutoff)
              && StoredBy(View(s), ops, key, Entry(workspace, r, Render(x)))
  {
    var t := Run(s, ops);
    RunView(s, ops);
    ReadRefines(t, key, workspace, Render(cutoff), "");
    var e := View(t)[key];
    EntriesComeFromWrites(View(s), ops, key);
    assert IsTime(e.createdAt);
    var x: Instant :| x.Valid() && e.createdAt == Render(x);
    TextOrderIsTimeOrder(x, cutoff);
    assert e == Entry(workspace, r, Render(x));
  }
}
