/** The request handler as interleaved steps over shared state
    (src/gateway/routes.rs, src/gateway/server.rs): open flights, upstream
    permits, cache tables and blob directory.  A task is one request; between
    two steps of a task any other task may take steps, and so may operations on
    the storage and orphan cleanups. */
module Gateway {
  import opened Wrappers
  import opened JsonTree
  import opened Fingerprints
  import opened ContentStore
  import opened SafeCache
  import opened Coalesce

  // ---- Tasks ----

  datatype FlightKey = FlightKey(url: string, fingerprint: Fingerprint, trustDomain: string, policyHash: string)

  /** A request with what the handler derives from it before its first shared
      step.  There is no flight key when coalescing is bypassed, the body asks
      for streaming, or the request came in at the `responses` endpoint. */
  datatype Request = Request(body: Body, flight: Option<FlightKey>, useCache: bool, cacheKey: CacheKey) {
    predicate Valid() {
      && cacheKey.fingerprint == FingerprintOf(body)
      && (flight.Some? ==> flight.value.fingerprint == FingerprintOf(body))
    }
  }

  datatype Phase =
    | Arrived
    | Waiting(flight: nat, cursor: nat)             // subscribed to another task's flight
    | Leading                                       // forwarding, about to open the cache
    | Looking                                       // expired rows evicted, about to look up the row
    | Reading(status: nat, h: Digest)               // row in hand, about to read its blob
    | Touching(r: Response)                         // blob in hand, about to count the hit
    | Replaying(r: Response)                        // hit counted, flight not yet completed
    | Queued                                        // waits for a permit
    | Calling                                       // permit held, upstream call in flight
    | Fetched(r: Response)                          // permit held, limits not yet checked
    | AtLimit(r: Response)                          // row limit reached, looks for a row to replace
    | Counted(r: Response)                          // row limit passed
    | Admitted(r: Response)                         // byte limit passed
    | Written(r: Response, h: Digest, created: bool) // blob stored
    | Undoing(r: Response, h: Digest)               // row refused, created blob still there
    | Kept(r: Response)                             // cache write done or skipped, permit still held
    | Settling(r: Response)                         // permit released, flight not yet completed
    | Finished(r: Response)                         // flight completed, or there was none
    | Served(flight: nat, r: Response)              // answered with another task's response
    | Failed                                        // answered that the prior request failed
    | Abandoned                                     // returned or dropped, flight left as it was
    | Dropped                                       // client went away while waiting on a flight

  datatype Task = Task(request: Request, phase: Phase, lead: Option<nat>, called: bool)

  /** Limits are read from signed 64-bit configuration integers.  `safe` is the
      verdict of the response inspection. */
  datatype Config = Config(
    maxConcurrent: nat, maxEntries: Option<nat>, maxCasBytes: Option<nat>, maxEntryBytes: nat, safe: Bytes -> bool)
  {
    predicate Valid() {
      1 <= maxConcurrent <= 1024 && (maxCasBytes.Some? ==> maxCasBytes.value <= 0x7FFF_FFFF_FFFF_FFFF)
    }
  }

  /** A running orphan cleanup: the hashes that the tables let go, then those of
      them whose files it found and has not deleted yet. */
  datatype Collector = Scanned(loose: set<Digest>) | Listed(orphans: set<Digest>)

  /** `leaders` remembers which task opened each flight. */
  datatype State = State(
    tasks: seq<Task>, permits: nat, flights: Flights<FlightKey>, leaders: seq<nat>, storage: Storage,
    collectors: seq<Collector>)

  function SaturatingAdd(a: nat, b: nat): nat {
    if a + b > 0xFFFF_FFFF_FFFF_FFFF then 0xFFFF_FFFF_FFFF_FFFF else a + b
  }

  // ---- Steps ----

  /** What happens to the storage beside the requests: an operation as a whole,
      or a step of a cleanup. */
  datatype Outside =
    | Operation(op: Op)
    | ScanTables
    | ListFiles(k: nat)
    | DeleteOrphan(k: nat, orphan: Digest)

  datatype Step =
    | Enter(i: nat)
    | Wake(i: nat)
    | Miss(i: nat)
    | EvictFirst(i: nat, cutoff: string)
    | ReadRow(i: nat, workspace: string)
    | FetchBlob(i: nat)
    | CountHit(i: nat, now: string)
    | FinishReplay(i: nat)
    | TakePermit(i: nat)
    | PermitTimeout(i: nat)
    | Respond(i: nat, r: Response)
    | CallFails(i: nat)
    | SkipWrite(i: nat)
    | CountRows(i: nat)
    | FindExisting(i: nat)
    | ScanDisk(i: nat)
    | WriteBlob(i: nat)
    | InsertRow(i: nat, w: Write)
    | DropBlob(i: nat)
    | Release(i: nat)
    | CompleteFlight(i: nat)
    | LedgerFails(i: nat)
    | Disconnect(i: nat)
    | Background(o: Outside)

  /** A task that passed the row-limit check but has not inserted its row. */
  predicate BeforeInsert(p: Phase) {
    p.Counted? || p.Admitted? || p.Written?
  }

  predicate HoldsPermit(p: Phase) {
    p.Calling? || p.Fetched? || p.AtLimit? || p.Counted? || p.Admitted? || p.Written? || p.Undoing? || p.Kept?
  }

  predicate Cacheable(c: Config, t: Task, r: Response) {
    t.request.useCache && 200 <= r.status < 300 && c.safe(r.body) && |r.body| <= c.maxEntryBytes
  }

  ghost predicate OutsideEnabled(s: State, o: Outside) {
    match o
    case Operation(op) => !op.WriteResponse? && !op.ReadResponse? && !op.Cleanup?
    case ScanTables => true
    case ListFiles(k) => k < |s.collectors| && s.collectors[k].Scanned?
    case DeleteOrphan(k, h) => k < |s.collectors| && s.collectors[k].Listed? && h in s.collectors[k].orphans
  }

  ghost predicate Enabled(c: Config, s: State, e: Step) {
    if e.Background? then OutsideEnabled(s, e.o)
    else
      e.i < |s.tasks| &&
      var t := s.tasks[e.i];
      match e
      case Enter(_) => t.phase.Arrived? && s.flights.Sound()
      case Wake(_) =>
        t.phase.Waiting? && t.phase.flight < |s.flights.channels|
        && Receive(s.flights.channels[t.phase.flight], t.phase.cursor) != NothingYet
      case Miss(_) => t.phase.Leading? || t.phase.Looking?
      case EvictFirst(_, _) => t.phase.Leading? && t.request.useCache
      case ReadRow(_, ws) =>
        t.phase.Looking? && t.request.cacheKey in s.storage.tables.rows
        && s.storage.tables.rows[t.request.cacheKey].workspace == ws
      case FetchBlob(_) => t.phase.Reading?
      case CountHit(_, _) => t.phase.Touching?
      case FinishReplay(_) => t.phase.Replaying? && s.flights.Sound()
      case TakePermit(_) => t.phase.Queued? && s.permits > 0
      case PermitTimeout(_) => t.phase.Queued?
      case Respond(_, _) => t.phase.Calling?
      case CallFails(_) => t.phase.Calling?
      case SkipWrite(_) => t.phase.Fetched? || t.phase.AtLimit? || t.phase.Counted? || t.phase.Admitted?
      case CountRows(_) => t.phase.Fetched? && Cacheable(c, t, t.phase.r)
      case FindExisting(_) => t.phase.AtLimit? && t.request.cacheKey in s.storage.tables.rows
      case ScanDisk(_) =>
        t.phase.Counted?
        && (c.maxCasBytes.Some? ==>
              SaturatingAdd(DiskBytes(s.storage.blobs), |t.phase.r.body|) <= c.maxCasBytes.value)
      case WriteBlob(_) => t.phase.Admitted?
      case InsertRow(_, w) => t.phase.Written? && w.key == t.request.cacheKey && w.response == t.phase.r
      case DropBlob(_) => t.phase.Undoing?
      case Release(_) => t.phase.Kept?
      case CompleteFlight(_) => t.phase.Settling? && s.flights.Sound()
      case LedgerFails(_) => t.phase.Settling?
      case Disconnect(_) => t.phase.Waiting? || t.phase.Queued? || t.phase.Calling?
  }

  function Moved(s: State, i: nat, p: Phase): State
    requires i < |s.tasks|
  {
    s.(tasks := s.tasks[i := s.tasks[i].(phase := p)])
  }

  ghost function Completed(s: State, i: nat, r: Response): State
    requires i < |s.tasks| && s.flights.Sound()
  {
    var key := s.tasks[i].request.flight;
    Moved(s, i, Finished(r)).(flights := if key.Some? then s.flights.Resolved(key.value, Some(r)) else s.flights)
  }

  ghost function Entered(s: State, i: nat): State
    requires i < |s.tasks| && s.flights.Sound()
  {
    var t := s.tasks[i];
    if t.request.flight.None? then Moved(s, i, Leading)
    else
      var key := t.request.flight.value;
      match s.flights.TicketFor(key)
      case Waiter(f, cursor) => Moved(s, i, Waiting(f, cursor))
      case Leader(f) =>
        s.(tasks := s.tasks[i := t.(phase := Leading, lead := Some(f))],
           flights := s.flights.Acquired(key),
           leaders := s.leaders + [i])
  }

  /** The blob is stored under its hash unless it is there already. */
  function BlobWritten(s: State, i: nat, r: Response): State
    requires i < |s.tasks|
  {
    var h := Sha256(r.body);
    var created := h !in s.storage.blobs;
    Moved(s, i, Written(r, h, created)).(storage :=
      if created then s.storage.(blobs := Stored(s.storage.blobs, r.body)) else s.storage)
  }

  /** The row is inserted; if that fails, a blob created for it is due for deletion. */
  function RowInserted(s: State, i: nat, w: Write): State
    requires i < |s.tasks| && s.tasks[i].phase.Written?
  {
    var p := s.tasks[i].phase;
    Moved(s, i, if w.Succeeds() || !p.created then Kept(p.r) else Undoing(p.r, p.h)).(storage :=
      if w.dbOpens then s.storage.(tables := s.storage.tables.Opened().InsertedUpTo(w.Entry(), w.now, w.fault))
      else s.storage)
  }

  /** The blob is read; without it the request is forwarded after all. */
  function BlobFetched(s: State, i: nat): State
    requires i < |s.tasks| && s.tasks[i].phase.Reading?
  {
    var p := s.tasks[i].phase;
    Moved(s, i, if p.h in s.storage.blobs then Touching(Response(p.status, s.storage.blobs[p.h])) else Queued)
  }

  ghost function AfterOutside(s: State, o: Outside): State
    requires OutsideEnabled(s, o)
  {
    match o
    case Operation(op) => s.(storage := SafeCache.Step(s.storage, op))
    case ScanTables =>
      var t := s.storage.tables.Opened();
      s.(storage := s.storage.(tables := t), collectors := s.collectors + [Scanned(t.known * t.cacheRefs - RowHashes(t.rows))])
    case ListFiles(k) =>
      s.(collectors := s.collectors[k := Listed(s.collectors[k].loose * s.storage.blobs.Keys)])
    case DeleteOrphan(k, h) =>
      s.(storage := s.storage.(blobs := s.storage.blobs - {h}),
         collectors := s.collectors[k := Listed(s.collectors[k].orphans - {h})])
  }

  ghost function Next(c: Config, s: State, e: Step): State
    requires Enabled(c, s, e)
  {
    match e
    case Enter(i) => Entered(s, i)
    case Wake(i) =>
      (match Receive(s.flights.channels[s.tasks[i].phase.flight], s.tasks[i].phase.cursor)
       case Value(Some(r)) => Moved(s, i, Served(s.tasks[i].phase.flight, r))
       case _ => Moved(s, i, Failed))
    case Miss(i) => Moved(s, i, Queued)
    case EvictFirst(i, cutoff) =>
      Moved(s, i, Looking).(storage := s.storage.(tables := s.storage.tables.Opened().Evicted(cutoff)))
    case ReadRow(i, ws) =>
      var row := s.storage.tables.rows[s.tasks[i].request.cacheKey];
      Moved(s, i, Reading(row.status, row.responseHash))
    case FetchBlob(i) => BlobFetched(s, i)
    case CountHit(i, now) =>
      Moved(s, i, Replaying(s.tasks[i].phase.r)).(storage :=
        s.storage.(tables := s.storage.tables.Touched(s.tasks[i].request.cacheKey, now)))
    case FinishReplay(i) => Completed(s, i, s.tasks[i].phase.r)
    case TakePermit(i) =>
      s.(tasks := s.tasks[i := s.tasks[i].(phase := Calling, called := true)], permits := s.permits - 1)
    case PermitTimeout(i) => Moved(s, i, Abandoned)
    case Respond(i, r) => Moved(s, i, Fetched(r))
    case CallFails(i) => Moved(s, i, Abandoned).(permits := s.permits + 1)
    case SkipWrite(i) => Moved(s, i, Kept(s.tasks[i].phase.r))
    case CountRows(i) =>
      var r := s.tasks[i].phase.r;
      if c.maxEntries.Some? && |s.storage.tables.rows| >= c.maxEntries.value then Moved(s, i, AtLimit(r))
      else Moved(s, i, Counted(r))
    case FindExisting(i) => Moved(s, i, Counted(s.tasks[i].phase.r))
    case ScanDisk(i) => Moved(s, i, Admitted(s.tasks[i].phase.r))
    case WriteBlob(i) => BlobWritten(s, i, s.tasks[i].phase.r)
    case InsertRow(i, w) => RowInserted(s, i, w)
    case DropBlob(i) =>
      Moved(s, i, Kept(s.tasks[i].phase.r)).(storage :=
        s.storage.(blobs := s.storage.blobs - {s.tasks[i].phase.h}))
    case Release(i) =>
      var r := s.tasks[i].phase.r;
      Moved(s, i, if s.tasks[i].request.flight.Some? then Settling(r) else Finished(r)).(permits := s.permits + 1)
    case CompleteFlight(i) => Completed(s, i, s.tasks[i].phase.r)
    case LedgerFails(i) => Moved(s, i, Abandoned)
    case Disconnect(i) =>
      Moved(s, i, if s.tasks[i].phase.Waiting? then Dropped else Abandoned).(permits :=
        if s.tasks[i].phase.Calling? then s.permits + 1 else s.permits)
    case Background(o) => AfterOutside(s, o)
  }

  /** `t` is reached from `s` by taking `es` in order. */
  ghost predicate Runs(c: Config, s: State, es: seq<Step>, t: State)
    decreases |es|
  {
    if es == [] then t == s
    else Enabled(c, s, es[0]) && Runs(c, Next(c, s, es[0]), es[1..], t)
  }

  /** The server starts with every permit free, no flight open and no cleanup
      running. */
  ghost predicate Initial(c: Config, s: State) {
    && c.Valid()
    && s.permits == c.maxConcurrent
    && s.flights == Flights(map[], []) && s.leaders == [] && s.collectors == []
    && Addressed(s.storage.blobs)
    && forall i :: 0 <= i < |s.tasks| ==>
         s.tasks[i].phase.Arrived? && s.tasks[i].lead.None? && !s.tasks[i].called && s.tasks[i].request.Valid()
  }

  // ---- Steps move one task ----

  /** Steps around the cache. */
  predicate CacheStep(e: Step) {
    e.EvictFirst? || e.ReadRow? || e.FetchBlob? || e.CountHit? || e.SkipWrite? || e.CountRows? || e.FindExisting?
    || e.ScanDisk? || e.WriteBlob? || e.InsertRow? || e.DropBlob?
  }

  ghost predicate MovesOnly(s: State, t: State, i: nat) {
    i < |s.tasks| == |t.tasks| && t.tasks == s.tasks[i := t.tasks[i]] && t.tasks[i].request == s.tasks[i].request
  }

  lemma CacheStepMoves(c: Config, s: State, e: Step)
    requires Enabled(c, s, e) && CacheStep(e)
    ensures MovesOnly(s, Next(c, s, e), e.i)
  {
  }

  lemma OtherStepMoves(c: Config, s: State, e: Step)
    requires Enabled(c, s, e) && !CacheStep(e) && !e.Background?
    ensures MovesOnly(s, Next(c, s, e), e.i)
  {
  }

  lemma OneTaskMoves(c: Config, s: State, e: Step)
    requires Enabled(c, s, e)
    ensures |Next(c, s, e).tasks| == |s.tasks|
    ensures e.Background? ==> Next(c, s, e).tasks == s.tasks
    ensures !e.Background? ==> MovesOnly(s, Next(c, s, e), e.i)
  {
    if CacheStep(e) {
      CacheStepMoves(c, s, e);
    } else if !e.Background? {
      OtherStepMoves(c, s, e);
    }
  }

  /** Which steps touch the tables and which the directory. */
  lemma StorageMoves(c: Config, s: State, e: Step)
    requires Enabled(c, s, e)
    ensures !e.Background? && !e.EvictFirst? && !e.CountHit? && !e.InsertRow? ==>
              Next(c, s, e).storage.tables == s.storage.tables
    ensures !e.Background? && !e.WriteBlob? && !e.DropBlob? ==> Next(c, s, e).storage.blobs == s.storage.blobs
    ensures !e.Background? ==> Next(c, s, e).collectors == s.collectors
  {
  }

  // ---- Building runs ----

  lemma RunOn(c: Config, s: State, es: seq<Step>, m: State, e: Step)
    requires Runs(c, s, es, m) && Enabled(c, m, e)
    ensures Runs(c, s, es + [e], Next(c, m, e))
    decreases |es|
  {
    if es == [] {
      assert [e][1..] == [];
      assert Runs(c, Next(c, s, e), [], Next(c, m, e));
      assert es + [e] == [e];
    } else {
      assert (es + [e])[1..] == es[1..] + [e];
      RunOn(c, Next(c, s, es[0]), es[1..], m, e);
    }
  }

  lemma Prepended(c: Config, s: State, e: Step, es: seq<Step>, t: State)
    requires Enabled(c, s, e) && Runs(c, Next(c, s, e), es, t)
    ensures Runs(c, s, [e] + es, t)
  {
    assert ([e] + es)[1..] == es;
  }

  lemma {:induction false} RunsConcat(c: Config, s: State, a: seq<Step>, m: State, b: seq<Step>, t: State)
    requires Runs(c, s, a, m) && Runs(c, m, b, t)
    ensures Runs(c, s, a + b, t)
    decreases |a|
  {
    if a == [] {
      assert a + b == b;
    } else {
      RunsConcat(c, Next(c, s, a[0]), a[1..], m, b, t);
      Prepended(c, s, a[0], a[1..] + b, t);
      assert [a[0]] + (a[1..] + b) == a + b;
    }
  }
}
