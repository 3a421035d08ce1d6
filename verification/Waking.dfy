/** Whether a coalesced request can still be answered (src/gateway/routes.rs,
    src/shield/coalesce.rs): from every reachable state some continuation
    answers a waiter, unless the leader of its flight has given up. */
module Waking {
  import opened Wrappers
  import opened ContentStore
  import opened SafeCache
  import opened Coalesce
  import opened Gateway
  import opened Permits
  import opened SingleFlight

  // ---- A task that forwards can always move, but for a permit ----

  predicate Movable(p: Phase) {
    Forwarding(p) && !p.Finished? && !p.Abandoned?
  }

  /** How far a forwarding task is from finishing. */
  function Distance(p: Phase): nat {
    match p
    case Leading => 10
    case Looking => 9
    case Reading(_, _) => 8
    case Touching(_) => 7
    case Queued => 6
    case Calling => 5
    case Fetched(_) => 4
    case AtLimit(_) => 4
    case Counted(_) => 4
    case Admitted(_) => 4
    case Written(_, _, _) => 4
    case Undoing(_, _) => 3
    case Kept(_) => 2
    case Settling(_) => 1
    case Replaying(_) => 1
    case _ => 0
  }

  const ANSWER := Response(200, "")

  /** One way for a forwarding task to go on: no failure but a refused row. */
  function Move(s: State, j: nat): Step
    requires j < |s.tasks| && Movable(s.tasks[j].phase)
  {
    var t := s.tasks[j];
    match t.phase
    case Leading => Miss(j)
    case Looking => Miss(j)
    case Reading(_, _) => FetchBlob(j)
    case Touching(_) => CountHit(j, "")
    case Replaying(_) => FinishReplay(j)
    case Queued => TakePermit(j)
    case Calling => Respond(j, ANSWER)
    case Written(r, _, _) => InsertRow(j, Write(t.request.cacheKey, "", "", r, 0, 0, "", false, NoFault))
    case Undoing(_, _) => DropBlob(j)
    case Kept(_) => Release(j)
    case Settling(_) => CompleteFlight(j)
    case _ => SkipWrite(j)
  }

  predicate NeedsPermit(p: Phase) {
    p.Leading? || p.Looking? || p.Reading? || p.Queued?
  }

  /** Nothing happened to other tasks, and this one leads what it led. */
  ghost predicate OnlyMoved(s: State, t: State, j: nat) {
    && j < |s.tasks| == |t.tasks| && t.tasks == s.tasks[j := t.tasks[j]] && t.tasks[j].lead == s.tasks[j].lead
  }

  lemma OnlyMovedTwice(s: State, m: State, t: State, j: nat)
    requires OnlyMoved(s, m, j) && OnlyMoved(m, t, j)
    ensures OnlyMoved(s, t, j)
  {
  }

  /** Under way or through, with a permit free if one is still needed. */
  ghost predicate CanGoOn(s: State, j: nat) {
    && s.flights.Sound() && j < |s.tasks|
    && (Movable(s.tasks[j].phase) || s.tasks[j].phase.Finished?)
    && (NeedsPermit(s.tasks[j].phase) ==> s.permits > 0)
  }

  lemma CompletedSound(s: State, j: nat, r: Response)
    requires s.flights.Sound() && j < |s.tasks|
    ensures Completed(s, j, r).flights.Sound()
  {
    var key := s.tasks[j].request.flight;
    if key.Some? {
      ResolvedSound(s.flights, key.value, Some(r));
    }
  }

  lemma CompletingMove(c: Config, s: State, j: nat)
    requires s.flights.Sound() && j < |s.tasks| && (s.tasks[j].phase.Replaying? || s.tasks[j].phase.Settling?)
    requires Enabled(c, s, Move(s, j))
    ensures Next(c, s, Move(s, j)) == Completed(s, j, s.tasks[j].phase.r)
  {
    if s.tasks[j].phase.Replaying? {
      assert Move(s, j) == FinishReplay(j);
    } else {
      assert Move(s, j) == CompleteFlight(j);
    }
  }

  lemma OtherMoveKeepsFlights(c: Config, s: State, j: nat)
    requires j < |s.tasks| && Movable(s.tasks[j].phase) && Enabled(c, s, Move(s, j))
    requires !s.tasks[j].phase.Replaying? && !s.tasks[j].phase.Settling?
    ensures Next(c, s, Move(s, j)).flights == s.flights
  {
  }

  lemma MoveKeepsSound(c: Config, s: State, j: nat)
    requires s.flights.Sound() && j < |s.tasks| && Movable(s.tasks[j].phase) && Enabled(c, s, Move(s, j))
    ensures Next(c, s, Move(s, j)).flights.Sound()
  {
    var p := s.tasks[j].phase;
    if p.Replaying? || p.Settling? {
      CompletingMove(c, s, j);
      CompletedSound(s, j, p.r);
    } else {
      OtherMoveKeepsFlights(c, s, j);
    }
  }

  lemma MoveEnabled(c: Config, s: State, j: nat)
    requires s.flights.Sound() && j < |s.tasks| && Movable(s.tasks[j].phase)
    requires s.tasks[j].phase.Queued? ==> s.permits > 0
    ensures Enabled(c, s, Move(s, j)) && !Move(s, j).Background? && Move(s, j).i == j
  {
  }

  ghost predicate Closer(s: State, t: State, j: nat)
    requires j < |s.tasks|
  {
    && |t.tasks| == |s.tasks| && t.tasks[j].lead == s.tasks[j].lead
    && (Movable(t.tasks[j].phase) || t.tasks[j].phase.Finished?)
    && Distance(t.tasks[j].phase) < Distance(s.tasks[j].phase)
    && (NeedsPermit(t.tasks[j].phase) ==> NeedsPermit(s.tasks[j].phase))
  }

  lemma EarlyMoveComesCloser(c: Config, s: State, j: nat)
    requires j < |s.tasks| && Movable(s.tasks[j].phase) && !HoldsPermit(s.tasks[j].phase) && Enabled(c, s, Move(s, j))
    ensures Closer(s, Next(c, s, Move(s, j)), j)
  {
  }

  predicate Storing(p: Phase) {
    p.Written? || p.Undoing?
  }

  lemma StoringMoveComesCloser(c: Config, s: State, j: nat)
    requires j < |s.tasks| && Storing(s.tasks[j].phase) && Enabled(c, s, Move(s, j))
    ensures Closer(s, Next(c, s, Move(s, j)), j)
  {
    if s.tasks[j].phase.Undoing? {
      assert Move(s, j) == DropBlob(j);
    } else {
      assert Move(s, j).InsertRow?;
    }
  }

  lemma CallComesCloser(c: Config, s: State, j: nat)
    requires j < |s.tasks| && s.tasks[j].phase.Calling? && Enabled(c, s, Move(s, j))
    ensures Closer(s, Next(c, s, Move(s, j)), j)
  {
    assert Move(s, j) == Respond(j, ANSWER);
  }

  predicate Checking(p: Phase) {
    p.Fetched? || p.AtLimit? || p.Counted? || p.Admitted?
  }

  lemma SkipComesCloser(c: Config, s: State, j: nat)
    requires j < |s.tasks| && Checking(s.tasks[j].phase)
    requires Enabled(c, s, Move(s, j))
    ensures Closer(s, Next(c, s, Move(s, j)), j)
  {
    assert Move(s, j) == SkipWrite(j);
  }

  lemma ReleaseComesCloser(c: Config, s: State, j: nat)
    requires j < |s.tasks| && s.tasks[j].phase.Kept? && Enabled(c, s, Move(s, j))
    ensures Closer(s, Next(c, s, Move(s, j)), j)
  {
    assert Move(s, j) == Release(j);
  }

  lemma MoveAdvances(c: Config, s: State, j: nat)
    requires s.flights.Sound() && j < |s.tasks| && Movable(s.tasks[j].phase)
    requires s.tasks[j].phase.Queued? ==> s.permits > 0
    ensures Enabled(c, s, Move(s, j))
    ensures var t := Next(c, s, Move(s, j));
            && OnlyMoved(s, t, j)
            && (Movable(t.tasks[j].phase) || t.tasks[j].phase.Finished?)
            && Distance(t.tasks[j].phase) < Distance(s.tasks[j].phase)
            && (NeedsPermit(t.tasks[j].phase) ==> NeedsPermit(s.tasks[j].phase))
            && t.permits + Holding(t.tasks[j]) == s.permits + Holding(s.tasks[j])
  {
    MoveEnabled(c, s, j);
    if Storing(s.tasks[j].phase) {
      StoringMoveComesCloser(c, s, j);
    } else if s.tasks[j].phase.Kept? {
      ReleaseComesCloser(c, s, j);
    } else if s.tasks[j].phase.Calling? {
      CallComesCloser(c, s, j);
    } else if Checking(s.tasks[j].phase) {
      SkipComesCloser(c, s, j);
    } else {
      EarlyMoveComesCloser(c, s, j);
    }
    OneTaskMoves(c, s, Move(s, j));
    PermitMoves(c, s, Move(s, j));
  }

  lemma {:induction false} DriveToRelease(c: Config, s: State, k: nat) returns (es: seq<Step>, t: State)
    requires s.flights.Sound() && k < |s.tasks| && HoldsPermit(s.tasks[k].phase)
    ensures Runs(c, s, es, t) && t.permits > 0 && OnlyMoved(s, t, k)
    decreases Distance(s.tasks[k].phase)
  {
    var e := Move(s, k);
    MoveAdvances(c, s, k);
    MoveKeepsSound(c, s, k);
    var m := Next(c, s, e);
    var rest := [];
    t := m;
    if m.permits == 0 {
      rest, t := DriveToRelease(c, m, k);
      OnlyMovedTwice(s, m, t, k);
    }
    es := [e] + rest;
    Prepended(c, s, e, rest, t);
  }

  lemma MoveGoesOn(c: Config, s: State, j: nat)
    requires CanGoOn(s, j) && !s.tasks[j].phase.Finished?
    ensures Enabled(c, s, Move(s, j))
    ensures var t := Next(c, s, Move(s, j));
            CanGoOn(t, j) && OnlyMoved(s, t, j) && Distance(t.tasks[j].phase) < Distance(s.tasks[j].phase)
  {
    MoveAdvances(c, s, j);
    MoveKeepsSound(c, s, j);
  }

  lemma {:induction false} DriveToFinish(c: Config, s: State, j: nat) returns (es: seq<Step>, t: State)
    requires CanGoOn(s, j)
    ensures Runs(c, s, es, t) && OnlyMoved(s, t, j) && t.tasks[j].phase.Finished?
    decreases Distance(s.tasks[j].phase)
  {
    if s.tasks[j].phase.Finished? {
      es, t := [], s;
    } else {
      var e := Move(s, j);
      MoveGoesOn(c, s, j);
      var m := Next(c, s, e);
      var rest;
      rest, t := DriveToFinish(c, m, j);
      OnlyMovedTwice(s, m, t, j);
      es := [e] + rest;
      Prepended(c, s, e, rest, t);
    }
  }

  /** When no permit is free, some task holds one. */
  lemma SomeHolder(c: Config, s: State) returns (k: nat)
    requires c.Valid() && PermitsBalance(c, s) && s.permits == 0
    ensures k < |s.tasks| && HoldsPermit(s.tasks[k].phase)
  {
    if forall i :: 0 <= i < |s.tasks| ==> !HoldsPermit(s.tasks[i].phase) {
      TotalZero(s.tasks, Holding);
      assert false;
    }
    k :| k < |s.tasks| && HoldsPermit(s.tasks[k].phase);
  }

  lemma FreePermit(c: Config, s: State, j: nat) returns (es: seq<Step>, t: State)
    requires c.Valid() && PermitsBalance(c, s) && FlightsOk(s)
    requires j < |s.tasks| && !HoldsPermit(s.tasks[j].phase)
    ensures Runs(c, s, es, t) && t.permits > 0
    ensures |t.tasks| == |s.tasks| && t.tasks[j] == s.tasks[j]
    ensures forall i :: 0 <= i < |s.tasks| && !HoldsPermit(s.tasks[i].phase) ==> t.tasks[i] == s.tasks[i]
  {
    if s.permits > 0 {
      es, t := [], s;
    } else {
      var k := SomeHolder(c, s);
      es, t := DriveToRelease(c, s, k);
    }
  }

  /** What a run towards finishing task `j` keeps of a waiter `i`. */
  ghost predicate Undisturbed(s: State, t: State, i: nat, j: nat)
    requires i < |s.tasks| && j < |s.tasks|
  {
    |t.tasks| == |s.tasks| && t.tasks[i] == s.tasks[i] && t.tasks[j].lead == s.tasks[j].lead
  }

  lemma FinishesNow(c: Config, s: State, i: nat, j: nat) returns (es: seq<Step>, t: State)
    requires i < |s.tasks| && i != j && CanGoOn(s, j)
    ensures Runs(c, s, es, t) && Undisturbed(s, t, i, j) && t.tasks[j].phase.Finished?
  {
    es, t := DriveToFinish(c, s, j);
  }

  /** First some other task gives its permit back. */
  lemma ReadyToGoOn(c: Config, s: State, i: nat, j: nat) returns (es: seq<Step>, t: State)
    requires c.Valid() && PermitsBalance(c, s) && FlightsOk(s)
    requires i < |s.tasks| && s.tasks[i].phase.Waiting? && j < |s.tasks| && i != j
    requires Movable(s.tasks[j].phase) || s.tasks[j].phase.Finished?
    ensures Runs(c, s, es, t) && Undisturbed(s, t, i, j) && CanGoOn(t, j)
  {
    if NeedsPermit(s.tasks[j].phase) {
      es, t := FreePermit(c, s, j);
      RunKeepsFlights(c, s, es, t);
    } else {
      es, t := [], s;
    }
  }

  /** A task that has not given up can finish, and waiters stay waiting. */
  lemma CanFinish(c: Config, s: State, i: nat, j: nat) returns (es: seq<Step>, t: State)
    requires c.Valid() && PermitsBalance(c, s) && FlightsOk(s)
    requires i < |s.tasks| && s.tasks[i].phase.Waiting? && j < |s.tasks| && i != j
    requires Movable(s.tasks[j].phase) || s.tasks[j].phase.Finished?
    ensures Runs(c, s, es, t) && Undisturbed(s, t, i, j) && t.tasks[j].phase.Finished?
  {
    var first, m := ReadyToGoOn(c, s, i, j);
    var second, u := FinishesNow(c, m, i, j);
    RunsConcat(c, s, first, m, second, u);
    es, t := first + second, u;
  }

  lemma WakesServed(c: Config, s: State, i: nat, j: nat)
    requires FlightsOk(s) && i < |s.tasks| && j < |s.tasks| && s.tasks[i].phase.Waiting?
    requires s.tasks[j].phase.Finished? && s.tasks[j].lead == Some(s.tasks[i].phase.flight)
    ensures Enabled(c, s, Wake(i)) && Next(c, s, Wake(i)).tasks[i].phase.Served?
  {
    assert WaiterOk(s, i) && LeaderOk(s, j);
  }

  lemma LeaderUnderWay(s: State, i: nat, j: nat)
    requires FlightsOk(s) && i < |s.tasks| && s.tasks[i].phase.Waiting? && j < |s.tasks|
    requires s.tasks[j].lead.Some? && !s.tasks[j].phase.Abandoned?
    ensures i != j && (Movable(s.tasks[j].phase) || s.tasks[j].phase.Finished?)
  {
    assert LeaderOk(s, i) && LeaderOk(s, j);
  }

  lemma CanBeServed(c: Config, s: State, i: nat, j: nat) returns (es: seq<Step>, t: State)
    requires c.Valid() && PermitsBalance(c, s) && FlightsOk(s)
    requires i < |s.tasks| && s.tasks[i].phase.Waiting? && j < |s.tasks|
    requires s.tasks[j].lead == Some(s.tasks[i].phase.flight) && !s.tasks[j].phase.Abandoned?
    ensures Runs(c, s, es, t) && i < |t.tasks| && t.tasks[i].phase.Served?
  {
    LeaderUnderWay(s, i, j);
    var first, m := CanFinish(c, s, i, j);
    RunKeepsFlights(c, s, first, m);
    WakesServed(c, m, i, j);
    OneTaskMoves(c, m, Wake(i));
    es, t := first + [Wake(i)], Next(c, m, Wake(i));
    RunOn(c, s, first, m, Wake(i));
  }

  /** The task that leads the flight a waiter waits on. */
  function LeaderOf(s: State, i: nat): nat
    requires i < |s.tasks| && s.tasks[i].phase.Waiting? && s.tasks[i].phase.flight < |s.leaders|
  {
    s.leaders[s.tasks[i].phase.flight]
  }

  ghost predicate ServedLater(c: Config, s: State, i: nat) {
    exists es, t :: Runs(c, s, es, t) && i < |t.tasks| && t.tasks[i].phase.Served?
  }

  /** In every reachable state a waiter can still be answered if and only if
      the leader of its flight has not given up. */
  lemma ServedLaterIff(c: Config, s0: State, before: seq<Step>, s: State, i: nat)
    requires Initial(c, s0) && Runs(c, s0, before, s)
    requires i < |s.tasks| && s.tasks[i].phase.Waiting?
    ensures s.tasks[i].phase.flight < |s.leaders| && LeaderOf(s, i) < |s.tasks|
    ensures ServedLater(c, s, i) <==> !s.tasks[LeaderOf(s, i)].phase.Abandoned?
  {
    InitialPermits(c, s0);
    RunKeepsPermits(c, s0, before, s);
    ReachableFlights(c, s0, before, s);
    assert WaiterOk(s, i);
    var j := LeaderOf(s, i);
    if s.tasks[j].phase.Abandoned? {
      forall es, t | Runs(c, s, es, t)
        ensures i < |t.tasks| && !t.tasks[i].phase.Served?
      {
        AbandonedFlightStaysOpen(c, s0, before, s, es, t, j, i);
      }
    } else {
      var es, t := CanBeServed(c, s, i, j);
    }
  }
}
