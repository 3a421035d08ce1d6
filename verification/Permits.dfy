/** Upstream permits (src/gateway/server.rs, src/gateway/routes.rs): whatever
    the interleaving, no permit is lost or made up, so at most as many upstream
    calls are in flight as there are permits. */
module Permits {
  import opened Gateway

  /** The sum of a weight over all tasks. */
  ghost function Total(ts: seq<Task>, w: Task -> nat): nat {
    if ts == [] then 0 else w(ts[0]) + Total(ts[1..], w)
  }

  lemma {:induction false} TotalUpdate(ts: seq<Task>, i: nat, t: Task, w: Task -> nat)
    requires i < |ts|
    ensures Total(ts[i := t], w) + w(ts[i]) == Total(ts, w) + w(t)
    decreases |ts|
  {
    if i == 0 {
      assert ts[0 := t][1..] == ts[1..];
    } else {
      assert ts[i := t][1..] == ts[1..][i - 1 := t];
      TotalUpdate(ts[1..], i - 1, t, w);
    }
  }

  lemma {:induction false} TotalZero(ts: seq<Task>, w: Task -> nat)
    requires forall i :: 0 <= i < |ts| ==> w(ts[i]) == 0
    ensures Total(ts, w) == 0
    decreases |ts|
  {
    if ts == [] {
    } else {
      TotalZero(ts[1..], w);
    }
  }

  /** A weight that is never larger has no larger sum. */
  lemma {:induction false} TotalMonotone(ts: seq<Task>, v: Task -> nat, w: Task -> nat, factor: nat)
    requires forall i :: 0 <= i < |ts| ==> v(ts[i]) <= factor * w(ts[i])
    ensures Total(ts, v) <= factor * Total(ts, w)
    decreases |ts|
  {
    if ts == [] {
    } else {
      TotalMonotone(ts[1..], v, w, factor);
    }
  }

  function Holding(t: Task): nat {
    if HoldsPermit(t.phase) then 1 else 0
  }

  function InCall(t: Task): nat {
    if t.phase.Calling? then 1 else 0
  }

  ghost predicate PermitsBalance(c: Config, s: State) {
    s.permits + Total(s.tasks, Holding) == c.maxConcurrent
  }

  /** A step gives or takes the permit that its task stops or starts holding. */
  lemma PermitMoves(c: Config, s: State, e: Step)
    requires Enabled(c, s, e) && !e.Background?
    ensures Next(c, s, e).permits + Holding(Next(c, s, e).tasks[e.i]) == s.permits + Holding(s.tasks[e.i])
  {
  }

  lemma StepKeepsPermits(c: Config, s: State, e: Step)
    requires PermitsBalance(c, s) && Enabled(c, s, e)
    ensures PermitsBalance(c, Next(c, s, e))
  {
    OneTaskMoves(c, s, e);
    if !e.Background? {
      PermitMoves(c, s, e);
      TotalUpdate(s.tasks, e.i, Next(c, s, e).tasks[e.i], Holding);
    }
  }

  lemma {:induction false} RunKeepsPermits(c: Config, s: State, es: seq<Step>, t: State)
    requires PermitsBalance(c, s) && Runs(c, s, es, t)
    ensures PermitsBalance(c, t)
    decreases |es|
  {
    if es == [] {
    } else {
      StepKeepsPermits(c, s, es[0]);
      RunKeepsPermits(c, Next(c, s, es[0]), es[1..], t);
    }
  }

  lemma InitialPermits(c: Config, s: State)
    requires Initial(c, s)
    ensures PermitsBalance(c, s)
  {
    TotalZero(s.tasks, Holding);
  }

  /** In every reachable state the permits held and the permits free are as many
      as configured, and no more calls are in flight than that. */
  lemma CallsWithinLimit(c: Config, s: State, es: seq<Step>, t: State)
    requires Initial(c, s) && Runs(c, s, es, t)
    ensures t.permits + Total(t.tasks, Holding) == c.maxConcurrent
    ensures Total(t.tasks, InCall) <= c.maxConcurrent
  {
    InitialPermits(c, s);
    RunKeepsPermits(c, s, es, t);
    TotalMonotone(t.tasks, InCall, Holding, 1);
  }
}
