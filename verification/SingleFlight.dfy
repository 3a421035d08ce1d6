/** Coalescing as the handler uses it (src/gateway/routes.rs,
    src/shield/coalesce.rs), over all interleavings.  Main results: a waiter is
    answered only with the response of the task that opened its flight, for a
    request of the same meaning; no two calls for one key are in flight at once;
    a waiter is never told that the prior request failed; and a flight whose
    leader gives up stays open for good. */
module SingleFlight {
  import opened Wrappers
  import opened Fingerprints
  import opened ContentStore
  import opened Coalesce
  import opened Gateway
  import opened Permits

  /** Phases of a task that forwards its request. */
  predicate Forwarding(p: Phase) {
    !p.Arrived? && !p.Waiting? && !p.Served? && !p.Failed? && !p.Dropped?
  }

  predicate NotYetCalled(p: Phase) {
    p.Arrived? || p.Waiting? || p.Leading? || p.Looking? || p.Reading? || p.Touching? || p.Replaying? || p.Queued? || p.Served? || p.Failed? || p.Dropped?
  }

  /** The flight a task leads is open until the task finishes, and then holds
      the task's response. */
  ghost predicate LeaderOk(s: State, i: nat)
    requires i < |s.tasks|
  {
    var t := s.tasks[i];
    && (t.lead.Some? ==>
          && Forwarding(t.phase) && t.request.flight.Some?
          && t.lead.value < |s.leaders| == |s.flights.channels| && s.leaders[t.lead.value] == i
          && (if t.phase.Finished? then s.flights.channels[t.lead.value].sent == [Some(t.phase.r)]
              else t.request.flight.value in s.flights.pending
                   && s.flights.pending[t.request.flight.value] == t.lead.value))
    && (Forwarding(t.phase) && t.request.flight.Some? ==> t.lead.Some?)
    && (t.called ==> Forwarding(t.phase))
    && (NotYetCalled(t.phase) ==> !t.called)
  }

  ghost predicate SameFlight(s: State, i: nat, f: nat)
    requires i < |s.tasks|
  {
    && s.tasks[i].request.flight.Some?
    && f < |s.leaders| == |s.flights.channels| && s.leaders[f] < |s.tasks|
    && s.tasks[s.leaders[f]].request.flight == s.tasks[i].request.flight
  }

  ghost predicate WaiterOk(s: State, i: nat)
    requires i < |s.tasks|
  {
    match s.tasks[i].phase
    case Waiting(f, cursor) => cursor == 0 && SameFlight(s, i, f)
    case Served(f, r) => SameFlight(s, i, f) && s.flights.channels[f].sent == [Some(r)]
    case Failed => false
    case _ => true
  }

  ghost predicate FlightsOk(s: State) {
    && s.flights.Sound()
    && |s.leaders| == |s.flights.channels|
    && (forall f :: 0 <= f < |s.leaders| ==> s.leaders[f] < |s.tasks| && s.tasks[s.leaders[f]].lead == Some(f))
    && (forall k :: k in s.flights.pending ==> s.tasks[s.leaders[s.flights.pending[k]]].request.flight == Some(k))
    && (forall i :: 0 <= i < |s.tasks| ==> s.tasks[i].request.Valid() && LeaderOk(s, i) && WaiterOk(s, i))
    && (forall f :: 0 <= f < |s.flights.channels| ==> None !in s.flights.channels[f].sent)
  }

  lemma InitialFlights(c: Config, s: State)
    requires Initial(c, s)
    ensures FlightsOk(s)
  {
  }

  /** A task that moves without touching the flights. */
  lemma MoveKeepsFlights(s: State, i: nat, t: Task, r: State)
    requires FlightsOk(s) && i < |s.tasks|
    requires t.request == s.tasks[i].request && t.lead == s.tasks[i].lead
    requires r.tasks == s.tasks[i := t] && r.flights == s.flights && r.leaders == s.leaders
    requires LeaderOk(r, i) && WaiterOk(r, i)
    ensures FlightsOk(r)
  {
    forall j | 0 <= j < |r.tasks|
      ensures r.tasks[j].request.Valid() && LeaderOk(r, j) && WaiterOk(r, j)
    {
      assert r.tasks[j].request == s.tasks[j].request;
      assert LeaderOk(s, j) && WaiterOk(s, j);
    }
  }

  lemma OpeningKeepsOthers(s: State, i: nat, r: State, j: nat)
    requires FlightsOk(s) && i < |s.tasks| && s.tasks[i].phase.Arrived? && s.tasks[i].request.flight.Some?
    requires s.tasks[i].request.flight.value !in s.flights.pending
    requires r == Entered(s, i) && j < |s.tasks| && j != i
    ensures LeaderOk(r, j) && WaiterOk(r, j)
  {
    assert LeaderOk(s, j) && WaiterOk(s, j);
    assert r.tasks[j] == s.tasks[j];
    assert forall f :: 0 <= f < |s.leaders| ==> r.leaders[f] == s.leaders[f] && r.flights.channels[f] == s.flights.channels[f];
  }

  lemma OpeningKeepsFlights(s: State, i: nat)
    requires FlightsOk(s) && i < |s.tasks| && s.tasks[i].phase.Arrived? && s.tasks[i].request.flight.Some?
    requires s.tasks[i].request.flight.value !in s.flights.pending
    ensures FlightsOk(Entered(s, i))
  {
    var r := Entered(s, i);
    var key := s.tasks[i].request.flight.value;
    assert LeaderOk(s, i);
    AcquiredSound(s.flights, key);
    forall j | 0 <= j < |r.tasks|
      ensures r.tasks[j].request.Valid() && LeaderOk(r, j) && WaiterOk(r, j)
    {
      if j != i {
        OpeningKeepsOthers(s, i, r, j);
        assert s.tasks[j].request.Valid();
      } else {
        assert s.tasks[i].request.Valid();
      }
    }
    forall f | 0 <= f < |r.leaders|
      ensures r.leaders[f] < |r.tasks| && r.tasks[r.leaders[f]].lead == Some(f)
    {
      if f < |s.leaders| {
        assert s.tasks[s.leaders[f]].lead == Some(f);
      }
    }
  }

  lemma EnterKeepsFlights(s: State, i: nat)
    requires FlightsOk(s) && i < |s.tasks| && s.tasks[i].phase.Arrived?
    ensures FlightsOk(Entered(s, i))
  {
    var r := Entered(s, i);
    assert LeaderOk(s, i);
    if s.tasks[i].request.flight.Some? && s.tasks[i].request.flight.value !in s.flights.pending {
      OpeningKeepsFlights(s, i);
    } else {
      MoveKeepsFlights(s, i, r.tasks[i], r);
    }
  }

  lemma CompletingKeepsLeader(s: State, i: nat, resp: Response, j: nat)
    requires FlightsOk(s) && i < |s.tasks| && s.tasks[i].request.flight.Some?
    requires Forwarding(s.tasks[i].phase) && !s.tasks[i].phase.Finished?
    requires j < |s.tasks|
    ensures LeaderOk(Completed(s, i, resp), j)
  {
    assert LeaderOk(s, i) && LeaderOk(s, j);
  }

  lemma CompletingKeepsWaiter(s: State, i: nat, resp: Response, j: nat)
    requires FlightsOk(s) && i < |s.tasks| && s.tasks[i].request.flight.Some?
    requires Forwarding(s.tasks[i].phase) && !s.tasks[i].phase.Finished?
    requires j < |s.tasks|
    ensures WaiterOk(Completed(s, i, resp), j)
  {
    var r := Completed(s, i, resp);
    assert LeaderOk(s, i) && WaiterOk(s, j);
    assert forall k :: 0 <= k < |s.tasks| ==> r.tasks[k].request == s.tasks[k].request;
  }

  lemma CompletingKeepsChannels(s: State, i: nat, resp: Response)
    requires FlightsOk(s) && i < |s.tasks| && s.tasks[i].request.flight.Some?
    ensures var r := Completed(s, i, resp);
            && r.flights.Sound() && |r.flights.channels| == |s.flights.channels|
            && (forall k :: k in r.flights.pending ==> k in s.flights.pending && r.flights.pending[k] == s.flights.pending[k])
            && (forall f :: 0 <= f < |r.flights.channels| ==> None !in r.flights.channels[f].sent)
  {
    ResolvedSound(s.flights, s.tasks[i].request.flight.value, Some(resp));
  }

  lemma CompletingKeepsFlights(s: State, i: nat, resp: Response)
    requires FlightsOk(s) && i < |s.tasks| && s.tasks[i].request.flight.Some?
    requires Forwarding(s.tasks[i].phase) && !s.tasks[i].phase.Finished?
    ensures FlightsOk(Completed(s, i, resp))
  {
    var r := Completed(s, i, resp);
    CompletingKeepsChannels(s, i, resp);
    forall j | 0 <= j < |r.tasks|
      ensures r.tasks[j].request.Valid() && LeaderOk(r, j) && WaiterOk(r, j)
    {
      CompletingKeepsLeader(s, i, resp, j);
      CompletingKeepsWaiter(s, i, resp, j);
      assert r.tasks[j].request == s.tasks[j].request && s.tasks[j].request.Valid();
    }
    forall f | 0 <= f < |r.leaders|
      ensures r.leaders[f] < |r.tasks| && r.tasks[r.leaders[f]].lead == Some(f)
    {
      assert s.tasks[s.leaders[f]].lead == Some(f);
    }
  }

  lemma CompleteKeepsFlights(s: State, i: nat, resp: Response)
    requires FlightsOk(s) && i < |s.tasks|
    requires Forwarding(s.tasks[i].phase) && !s.tasks[i].phase.Finished?
    ensures FlightsOk(Completed(s, i, resp))
  {
    var t := s.tasks[i];
    if t.request.flight.None? {
      assert LeaderOk(s, i);
      MoveKeepsFlights(s, i, t.(phase := Finished(resp)), Completed(s, i, resp));
    } else {
      CompletingKeepsFlights(s, i, resp);
    }
  }

  /** A waiter that wakes is served, never failed: its flight was resolved once,
      with a response. */
  lemma WakeKeepsFlights(c: Config, s: State, e: Step)
    requires FlightsOk(s) && Enabled(c, s, e) && e.Wake?
    ensures FlightsOk(Next(c, s, e))
  {
    var t := s.tasks[e.i];
    assert LeaderOk(s, e.i) && WaiterOk(s, e.i);
    var f := t.phase.flight;
    var sent := s.flights.channels[f].sent;
    assert f !in s.flights.pending.Values;
    assert |sent| == 1 && sent[0] in sent;
    var r := Next(c, s, e);
    MoveKeepsFlights(s, e.i, r.tasks[e.i], r);
  }

  /** A forwarding task that goes on without finishing. */
  lemma ProgressKeepsFlights(s: State, i: nat, t: Task, r: State)
    requires FlightsOk(s) && i < |s.tasks|
    requires t.request == s.tasks[i].request && t.lead == s.tasks[i].lead
    requires r.tasks == s.tasks[i := t] && r.flights == s.flights && r.leaders == s.leaders
    requires Forwarding(s.tasks[i].phase) && !s.tasks[i].phase.Finished?
    requires Forwarding(t.phase) && !t.phase.Finished? && (NotYetCalled(t.phase) ==> !t.called)
    ensures FlightsOk(r)
  {
    assert LeaderOk(s, i);
    MoveKeepsFlights(s, i, t, r);
  }

  /** Steps that neither enter nor leave the forwarding phases. */
  predicate Progress(e: Step) {
    !e.Enter? && !e.Wake? && !e.FinishReplay? && !e.CompleteFlight? && !e.Release? && !e.Disconnect? && !e.Background?
  }

  lemma ProgressMoves(c: Config, s: State, e: Step)
    requires Enabled(c, s, e) && Progress(e)
    ensures var r := Next(c, s, e);
            && e.i < |s.tasks| == |r.tasks|
            && r.tasks == s.tasks[e.i := r.tasks[e.i]] && r.flights == s.flights && r.leaders == s.leaders
            && r.tasks[e.i].request == s.tasks[e.i].request && r.tasks[e.i].lead == s.tasks[e.i].lead
            && Forwarding(s.tasks[e.i].phase) && !s.tasks[e.i].phase.Finished?
            && Forwarding(r.tasks[e.i].phase) && !r.tasks[e.i].phase.Finished?
            && (NotYetCalled(r.tasks[e.i].phase) ==>
                  NotYetCalled(s.tasks[e.i].phase) && r.tasks[e.i].called == s.tasks[e.i].called)
  {
    OneTaskMoves(c, s, e);
  }

  lemma LeavingKeepsFlights(c: Config, s: State, e: Step)
    requires FlightsOk(s) && Enabled(c, s, e) && (e.Release? || e.Disconnect?)
    ensures FlightsOk(Next(c, s, e))
  {
    var r := Next(c, s, e);
    assert LeaderOk(s, e.i) && WaiterOk(s, e.i);
    MoveKeepsFlights(s, e.i, r.tasks[e.i], r);
  }

  lemma BackgroundKeepsFlights(s: State, r: State)
    requires FlightsOk(s) && r == s.(storage := r.storage, collectors := r.collectors)
    ensures FlightsOk(r)
  {
    forall j | 0 <= j < |r.tasks|
      ensures r.tasks[j].request.Valid() && LeaderOk(r, j) && WaiterOk(r, j)
    {
      assert LeaderOk(s, j) && WaiterOk(s, j);
    }
  }

  lemma ProgressStepKeepsFlights(c: Config, s: State, e: Step)
    requires FlightsOk(s) && Enabled(c, s, e) && Progress(e)
    ensures FlightsOk(Next(c, s, e))
  {
    var r := Next(c, s, e);
    ProgressMoves(c, s, e);
    assert LeaderOk(s, e.i);
    ProgressKeepsFlights(s, e.i, r.tasks[e.i], r);
  }

  lemma CompletionStepKeepsFlights(c: Config, s: State, e: Step)
    requires FlightsOk(s) && Enabled(c, s, e) && (e.FinishReplay? || e.CompleteFlight?)
    ensures FlightsOk(Next(c, s, e))
  {
    CompleteKeepsFlights(s, e.i, s.tasks[e.i].phase.r);
  }

  lemma OutsideStepKeepsFlights(c: Config, s: State, e: Step)
    requires FlightsOk(s) && Enabled(c, s, e) && e.Background?
    ensures FlightsOk(Next(c, s, e))
  {
    BackgroundKeepsFlights(s, Next(c, s, e));
  }

  lemma StepKeepsFlights(c: Config, s: State, e: Step)
    requires FlightsOk(s) && Enabled(c, s, e)
    ensures FlightsOk(Next(c, s, e))
  {
    if Progress(e) {
      ProgressStepKeepsFlights(c, s, e);
    } else if e.Enter? {
      EnterKeepsFlights(s, e.i);
    } else if e.Wake? {
      WakeKeepsFlights(c, s, e);
    } else if e.FinishReplay? || e.CompleteFlight? {
      CompletionStepKeepsFlights(c, s, e);
    } else if e.Background? {
      OutsideStepKeepsFlights(c, s, e);
    } else {
      LeavingKeepsFlights(c, s, e);
    }
  }

  lemma {:induction false} RunKeepsFlights(c: Config, s: State, es: seq<Step>, t: State)
    requires FlightsOk(s) && Runs(c, s, es, t)
    ensures FlightsOk(t)
    decreases |es|
  {
    if es == [] {
    } else {
      StepKeepsFlights(c, s, es[0]);
      RunKeepsFlights(c, Next(c, s, es[0]), es[1..], t);
    }
  }

  lemma ReachableFlights(c: Config, s: State, es: seq<Step>, t: State)
    requires Initial(c, s) && Runs(c, s, es, t)
    ensures FlightsOk(t)
  {
    InitialFlights(c, s);
    RunKeepsFlights(c, s, es, t);
  }

  // ---- Main results ----

  /** A task between forwarding and finishing, for a flight key. */
  predicate Unfinished(t: Task, key: FlightKey) {
    t.request.flight == Some(key) && Forwarding(t.phase) && !t.phase.Finished?
  }

  /** In every reachable state the open flights are exactly the keys of tasks
      that forwarded and have not completed, with one such task a key. */
  lemma OneLeaderPerOpenFlight(c: Config, s: State, es: seq<Step>, t: State)
    requires Initial(c, s) && Runs(c, s, es, t)
    ensures forall k :: k in t.flights.pending <==> exists i :: 0 <= i < |t.tasks| && Unfinished(t.tasks[i], k)
    ensures forall i, j, k | 0 <= i < |t.tasks| && 0 <= j < |t.tasks| ::
              Unfinished(t.tasks[i], k) && Unfinished(t.tasks[j], k) ==> i == j
  {
    ReachableFlights(c, s, es, t);
    forall k | k in t.flights.pending
      ensures exists i :: 0 <= i < |t.tasks| && Unfinished(t.tasks[i], k)
    {
      var i := t.leaders[t.flights.pending[k]];
      assert LeaderOk(t, i);
      assert Unfinished(t.tasks[i], k);
    }
    forall i, k | 0 <= i < |t.tasks| && Unfinished(t.tasks[i], k)
      ensures k in t.flights.pending && t.leaders[t.flights.pending[k]] == i
    {
      assert LeaderOk(t, i);
    }
  }

  /** Identical in-flight requests make one upstream call: no two calls for one
      flight key are in flight together. */
  lemma OneCallPerKey(c: Config, s: State, es: seq<Step>, t: State, i: nat, j: nat)
    requires Initial(c, s) && Runs(c, s, es, t)
    requires i < |t.tasks| && j < |t.tasks| && t.tasks[i].phase.Calling? && t.tasks[j].phase.Calling?
    requires t.tasks[i].request.flight.Some? && t.tasks[i].request.flight == t.tasks[j].request.flight
    ensures i == j
  {
    OneLeaderPerOpenFlight(c, s, es, t);
    var k := t.tasks[i].request.flight.value;
    assert Unfinished(t.tasks[i], k) && Unfinished(t.tasks[j], k);
  }

  function CallFor(key: FlightKey): Task -> nat {
    (t: Task) => if t.called && t.request.flight == Some(key) then 1 else 0
  }

  function LeadFor(key: FlightKey): Task -> nat {
    (t: Task) => if t.lead.Some? && t.request.flight == Some(key) then 1 else 0
  }

  /** Over the whole run, no more upstream calls were made for a key than
      flights were opened for it. */
  lemma CallsWithinFlights(c: Config, s: State, es: seq<Step>, t: State, key: FlightKey)
    requires Initial(c, s) && Runs(c, s, es, t)
    ensures Total(t.tasks, CallFor(key)) <= Total(t.tasks, LeadFor(key))
  {
    ReachableFlights(c, s, es, t);
    forall i | 0 <= i < |t.tasks|
      ensures CallFor(key)(t.tasks[i]) <= 1 * LeadFor(key)(t.tasks[i])
    {
      assert LeaderOk(t, i);
    }
    TotalMonotone(t.tasks, CallFor(key), LeadFor(key), 1);
  }

  /** A waiter's answer is the status and bytes that the leader of its flight
      finished with.  The leader's request went to the same URL, in the same
      trust domain, under the same policy, and its body differs at most in the
      `stream` flag and in cache marks (or is the same text). */
  lemma ServedTheLeadersResponse(c: Config, s: State, es: seq<Step>, t: State, i: nat) returns (j: nat)
    requires Initial(c, s) && Runs(c, s, es, t)
    requires i < |t.tasks| && t.tasks[i].phase.Served?
    ensures j < |t.tasks| && t.tasks[j].lead == Some(t.tasks[i].phase.flight)
    ensures t.tasks[j].phase == Finished(t.tasks[i].phase.r)
    ensures t.tasks[j].request.flight.Some? && t.tasks[j].request.flight == t.tasks[i].request.flight
    ensures match (t.tasks[i].request.body, t.tasks[j].request.body)
            case (Document(a), Document(b)) => ConnectedByEdits(a, b)
            case (a, b) => a == b
  {
    ReachableFlights(c, s, es, t);
    assert WaiterOk(t, i);
    var f := t.tasks[i].phase.flight;
    j := t.leaders[f];
    assert LeaderOk(t, j);
    var (a, b) := (t.tasks[i].request.body, t.tasks[j].request.body);
    assert t.tasks[i].request.Valid() && t.tasks[j].request.Valid();
    assert FingerprintOf(a) == FingerprintOf(b);
    if a.Document? && b.Document? {
      SameFingerprintIffEdited(a.root, b.root);
    }
  }

  /** The answer reserved for a failed prior request is never given: the handler
      resolves a flight with a response or not at all, and the channel neither
      lags nor closes under a waiter. */
  lemma NeverToldFailed(c: Config, s: State, es: seq<Step>, t: State, i: nat)
    requires Initial(c, s) && Runs(c, s, es, t) && i < |t.tasks|
    ensures !t.tasks[i].phase.Failed?
  {
    ReachableFlights(c, s, es, t);
    assert WaiterOk(t, i);
  }

  /** A waiter can be answered exactly when its leader has finished. */
  lemma WakesIffLeaderFinished(c: Config, s: State, es: seq<Step>, t: State, i: nat)
    requires Initial(c, s) && Runs(c, s, es, t)
    requires i < |t.tasks| && t.tasks[i].phase.Waiting?
    ensures t.tasks[i].phase.flight < |t.leaders| && t.leaders[t.tasks[i].phase.flight] < |t.tasks|
    ensures Enabled(c, t, Wake(i)) <==> t.tasks[t.leaders[t.tasks[i].phase.flight]].phase.Finished?
  {
    ReachableFlights(c, s, es, t);
    assert WaiterOk(t, i);
    var j := t.leaders[t.tasks[i].phase.flight];
    assert LeaderOk(t, j);
  }

  // ---- Leaders that give up ----

  lemma {:induction false} AbandonedForGood(c: Config, s: State, es: seq<Step>, t: State, j: nat)
    requires FlightsOk(s) && Runs(c, s, es, t)
    requires j < |s.tasks| && s.tasks[j].phase.Abandoned?
    ensures j < |t.tasks| && t.tasks[j] == s.tasks[j]
    decreases |es|
  {
    if es == [] {
    } else {
      var next := Next(c, s, es[0]);
      OneTaskMoves(c, s, es[0]);
      assert next.tasks[j] == s.tasks[j];
      StepKeepsFlights(c, s, es[0]);
      AbandonedForGood(c, next, es[1..], t, j);
    }
  }

  /** Task `i` has not arrived, waits on the flight of task `j`, or is gone. */
  ghost predicate Stuck(s: State, j: nat, i: nat)
    requires j < |s.tasks| && i < |s.tasks|
  {
    var p := s.tasks[i].phase;
    p.Arrived? || p.Dropped? || (p.Waiting? && s.tasks[j].lead == Some(p.flight))
  }

  lemma StuckStep(c: Config, s: State, e: Step, j: nat, i: nat)
    requires FlightsOk(s) && Enabled(c, s, e)
    requires j < |s.tasks| && s.tasks[j].phase.Abandoned? && s.tasks[j].request.flight.Some?
    requires i < |s.tasks| && s.tasks[i].request.flight == s.tasks[j].request.flight && Stuck(s, j, i)
    ensures var r := Next(c, s, e); j < |r.tasks| && i < |r.tasks| && Stuck(r, j, i)
  {
    OneTaskMoves(c, s, e);
    assert LeaderOk(s, j) && WaiterOk(s, i);
  }

  lemma {:induction false} StuckBehindAbandoned(c: Config, s: State, es: seq<Step>, t: State, j: nat, i: nat)
    requires FlightsOk(s) && Runs(c, s, es, t)
    requires j < |s.tasks| && s.tasks[j].phase.Abandoned? && s.tasks[j].request.flight.Some?
    requires i < |s.tasks| && s.tasks[i].request.flight == s.tasks[j].request.flight && Stuck(s, j, i)
    ensures |t.tasks| == |s.tasks| && Stuck(t, j, i)
    decreases |es|
  {
    if es == [] {
    } else {
      var next := Next(c, s, es[0]);
      OneTaskMoves(c, s, es[0]);
      StuckStep(c, s, es[0], j, i);
      StepKeepsFlights(c, s, es[0]);
      StuckBehindAbandoned(c, next, es[1..], t, j, i);
    }
  }

  /** When a leader returns without completing its flight (the permit timed out,
      the call failed, the ledger did not open, or its client went away), then in
      every later state the flight is still open, and no request with its key
      that was waiting or came later has been answered or forwarded. */
  lemma AbandonedFlightStaysOpen(c: Config, s0: State, before: seq<Step>, s: State, es: seq<Step>, t: State, j: nat, i: nat)
    requires Initial(c, s0) && Runs(c, s0, before, s) && Runs(c, s, es, t)
    requires j < |s.tasks| && s.tasks[j].phase.Abandoned? && s.tasks[j].request.flight.Some?
    requires i < |s.tasks| && s.tasks[i].request.flight == s.tasks[j].request.flight && Stuck(s, j, i)
    ensures s.tasks[j].request.flight.value in t.flights.pending
    ensures j < |t.tasks| && i < |t.tasks| && Stuck(t, j, i)
  {
    ReachableFlights(c, s0, before, s);
    AbandonedForGood(c, s, es, t, j);
    RunKeepsFlights(c, s, es, t);
    assert LeaderOk(t, j);
    StuckBehindAbandoned(c, s, es, t, j, i);
  }

  lemma LeadAndWait(c: Config, s: State) returns (es: seq<Step>, t: State)
    requires Initial(c, s) && |s.tasks| >= 2
    requires s.tasks[0].request.flight.Some? && s.tasks[0].request.flight == s.tasks[1].request.flight
    ensures Runs(c, s, es, t)
    ensures |t.tasks| >= 2 && t.tasks[0].phase.Leading? && t.tasks[0].lead == Some(0)
    ensures t.tasks[1].phase == Waiting(0, 0) && t.permits == s.permits
    ensures t.tasks[0].request == s.tasks[0].request && t.tasks[1].request == s.tasks[1].request
  {
    AcquiredSound(s.flights, s.tasks[0].request.flight.value);
    var m := Next(c, s, Enter(0));
    RunOn(c, s, [], s, Enter(0));
    t := Next(c, m, Enter(1));
    es := [] + [Enter(0)] + [Enter(1)];
    RunOn(c, s, [] + [Enter(0)], m, Enter(1));
  }

  lemma CallAndFail(c: Config, s: State) returns (es: seq<Step>, t: State)
    requires |s.tasks| >= 2 && s.tasks[0].phase.Leading? && s.permits > 0
    ensures Runs(c, s, es, t)
    ensures |t.tasks| == |s.tasks| && t.tasks[1] == s.tasks[1]
    ensures t.tasks[0] == s.tasks[0].(phase := Abandoned, called := true)
  {
    var m := Next(c, s, Miss(0));
    RunOn(c, s, [], s, Miss(0));
    var n := Next(c, m, TakePermit(0));
    RunOn(c, s, [] + [Miss(0)], m, TakePermit(0));
    t := Next(c, n, CallFails(0));
    es := [] + [Miss(0)] + [TakePermit(0)] + [CallFails(0)];
    RunOn(c, s, [] + [Miss(0)] + [TakePermit(0)], n, CallFails(0));
  }

  /** This does happen: when the upstream call of a leader fails, a request that
      coalesced with it is stranded, whatever comes after. */
  lemma FailedCallStrandsWaiter(c: Config, s: State) returns (es: seq<Step>, t: State)
    requires Initial(c, s) && |s.tasks| >= 2
    requires s.tasks[0].request.flight.Some? && s.tasks[0].request.flight == s.tasks[1].request.flight
    ensures Runs(c, s, es, t)
    ensures |t.tasks| >= 2 && t.tasks[0].phase.Abandoned? && t.tasks[1].phase.Waiting?
    ensures forall more, u :: Runs(c, t, more, u) ==> |u.tasks| >= 2 && Stuck(u, 0, 1)
  {
    var first, m := LeadAndWait(c, s);
    var second;
    second, t := CallAndFail(c, m);
    es := first + second;
    RunsConcat(c, s, first, m, second, t);
    ReachableFlights(c, s, es, t);
    forall more, u | Runs(c, t, more, u)
      ensures |u.tasks| >= 2 && Stuck(u, 0, 1)
    {
      StuckBehindAbandoned(c, t, more, u, 0, 1);
    }
  }
}
