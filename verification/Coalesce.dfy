/** The store of in-flight requests (src/shield/coalesce.rs).  A flight has a
    broadcast channel with room for one value.  The main result: whoever waits
    on a flight hears exactly the first resolution of its key, and the lagging
    and closed outcomes of the channel never occur. */
module Coalesce {
  import opened Wrappers
  import opened ContentStore

  /** The values sent, and whether the sender still exists. */
  datatype Channel = Channel(sent: seq<Option<Response>>, open: bool)

  datatype Received = NothingYet | Value(v: Option<Response>) | Lagged | Closed

  /** What a receiver sees that has read `cursor` values: the channel remembers
      one value only. */
  function Receive(c: Channel, cursor: nat): Received {
    if cursor + 1 < |c.sent| then Lagged
    else if cursor < |c.sent| then Value(c.sent[cursor])
    else if c.open then NothingYet
    else Closed
  }

  datatype Ticket = Leader(flight: nat) | Waiter(flight: nat, cursor: nat)

  /** Open flights by key, and the channels of all flights ever opened. */
  datatype Flights<K> = Flights(pending: map<K, nat>, channels: seq<Channel>) {

    ghost predicate Sound() {
      && (forall k :: k in pending ==> pending[k] < |channels| && channels[pending[k]] == Channel([], true))
      && (forall j, k :: j in pending && k in pending && pending[j] == pending[k] ==> j == k)
      && (forall f :: 0 <= f < |channels| && f !in pending.Values ==>
            |channels[f].sent| == 1 && !channels[f].open)
    }

    ghost function TicketFor(key: K): Ticket
      requires Sound()
    {
      if key in pending then Waiter(pending[key], |channels[pending[key]].sent|) else Leader(|channels|)
    }

    ghost function Acquired(key: K): Flights<K> {
      if key in pending then this
      else Flights(pending[key := |channels|], channels + [Channel([], true)])
    }

    ghost function Resolved(key: K, v: Option<Response>): Flights<K>
      requires Sound()
    {
      if key !in pending then this
      else
        var f := pending[key];
        Flights(pending - {key}, channels[f := Channel(channels[f].sent + [v], false)])
    }
  }

  class CoalesceStore<K(==)> {
    var pending: map<K, nat>
    var channels: seq<Channel>

    ghost function State(): Flights<K>
      reads this
    {
      Flights(pending, channels)
    }

    constructor ()
      ensures State() == Flights(map[], []) && State().Sound()
    {
      pending, channels := map[], [];
    }

    /** The locked part of acquiring: lead a new flight or subscribe to the open one. */
    method TryAcquire(key: K) returns (t: Ticket)
      requires State().Sound()
      modifies this
      ensures t == old(State()).TicketFor(key)
      ensures State() == old(State()).Acquired(key) && State().Sound()
    {
      if key in pending {
        var f := pending[key];
        t := Waiter(f, |channels[f].sent|);
      } else {
        t := Leader(|channels|);
        pending := pending[key := |channels|];
        channels := channels + [Channel([], true)];
      }
      AcquiredSound(old(State()), key);
    }

    method Complete(key: K, response: Response)
      requires State().Sound()
      modifies this
      ensures State() == old(State()).Resolved(key, Some(response)) && State().Sound()
    {
      if key in pending {
        var f := pending[key];
        pending := pending - {key};
        channels := channels[f := Channel(channels[f].sent + [Some(response)], false)];
      }
      ResolvedSound(old(State()), key, Some(response));
    }

    method Cancel(key: K)
      requires State().Sound()
      modifies this
      ensures State() == old(State()).Resolved(key, None) && State().Sound()
    {
      if key in pending {
        var f := pending[key];
        pending := pending - {key};
        channels := channels[f := Channel(channels[f].sent + [None], false)];
      }
      ResolvedSound(old(State()), key, None);
    }
  }

  lemma AcquiredSound<K>(s: Flights<K>, key: K)
    requires s.Sound()
    ensures s.Acquired(key).Sound()
  {
    var t := s.Acquired(key);
    if key !in s.pending {
      forall f | f in s.pending.Values
        ensures f in t.pending.Values
      {
        var k :| k in s.pending && s.pending[k] == f;
        assert t.pending[k] == f;
      }
      assert t.pending[key] in t.pending.Values;
    }
  }

  lemma ResolvedSound<K>(s: Flights<K>, key: K, v: Option<Response>)
    requires s.Sound()
    ensures s.Resolved(key, v).Sound()
  {
    var t := s.Resolved(key, v);
    if key in s.pending {
      forall f | f in s.pending.Values && f != s.pending[key]
        ensures f in t.pending.Values
      {
        var k :| k in s.pending && s.pending[k] == f;
        assert t.pending[k] == f;
      }
    }
  }

  // ---- Any sequence of store operations ----

  datatype StoreOp<K> = Acquire(key: K) | Complete(key: K, response: Response) | Cancel(key: K)

  ghost function After<K>(s: Flights<K>, ops: seq<StoreOp<K>>): Flights<K>
    requires s.Sound()
    decreases |ops|
  {
    if ops == [] then s
    else match ops[0]
      case Acquire(k) => AcquiredSound(s, k); After(s.Acquired(k), ops[1..])
      case Complete(k, r) => ResolvedSound(s, k, Some(r)); After(s.Resolved(k, Some(r)), ops[1..])
      case Cancel(k) => ResolvedSound(s, k, None); After(s.Resolved(k, None), ops[1..])
  }

  /** The first value sent for a key. */
  ghost function FirstResolution<K>(key: K, ops: seq<StoreOp<K>>): Received {
    if ops == [] then NothingYet
    else match ops[0]
      case Complete(k, r) => if k == key then Value(Some(r)) else FirstResolution(key, ops[1..])
      case Cancel(k) => if k == key then Value(None) else FirstResolution(key, ops[1..])
      case Acquire(_) => FirstResolution(key, ops[1..])
  }

  lemma {:induction false} ResolvedFlightIsFinal<K>(s: Flights<K>, f: nat, ops: seq<StoreOp<K>>)
    requires s.Sound() && f < |s.channels| && f !in s.pending.Values
    ensures f < |After(s, ops).channels| && After(s, ops).channels[f] == s.channels[f]
    decreases |ops|
  {
    if ops == [] {
    } else {
      var next := match ops[0]
        case Acquire(k) => s.Acquired(k)
        case Complete(k, r) => s.Resolved(k, Some(r))
        case Cancel(k) => s.Resolved(k, None);
      match ops[0] {
        case Acquire(k) => AcquiredSound(s, k);
        case Complete(k, r) => ResolvedSound(s, k, Some(r));
        case Cancel(k) => ResolvedSound(s, k, None);
      }
      forall g | g in next.pending.Values && g != |s.channels|
        ensures g in s.pending.Values
      {
        var k :| k in next.pending && next.pending[k] == g;
        assert s.pending[k] == g;
      }
      ResolvedFlightIsFinal(next, f, ops[1..]);
    }
  }

  /** A receiver that joined an open flight hears the first resolution of its
      key after that, however long it takes to read it; later flights with the
      same key do not reach it, and it neither lags nor finds the channel closed. */
  lemma {:induction false} WaiterHearsFirstResolution<K>(s: Flights<K>, key: K, ops: seq<StoreOp<K>>)
    requires s.Sound() && key in s.pending
    ensures s.TicketFor(key) == Waiter(s.pending[key], 0)
    ensures s.pending[key] < |After(s, ops).channels|
    ensures Receive(After(s, ops).channels[s.pending[key]], 0) == FirstResolution(key, ops)
    decreases |ops|
  {
    if ops == [] {
    } else {
      var f := s.pending[key];
      match ops[0] {
        case Acquire(k) =>
          AcquiredSound(s, k);
          WaiterHearsFirstResolution(s.Acquired(k), key, ops[1..]);
        case Complete(k, r) =>
          ResolvedSound(s, k, Some(r));
          if k == key {
            ResolvedFlightIsFinal(s.Resolved(k, Some(r)), f, ops[1..]);
          } else {
            WaiterHearsFirstResolution(s.Resolved(k, Some(r)), key, ops[1..]);
          }
        case Cancel(k) =>
          ResolvedSound(s, k, None);
          if k == key {
            ResolvedFlightIsFinal(s.Resolved(k, None), f, ops[1..]);
          } else {
            WaiterHearsFirstResolution(s.Resolved(k, None), key, ops[1..]);
          }
      }
    }
  }
}
