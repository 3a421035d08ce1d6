/** Where the responses that requests are answered with come from
    (src/gateway/routes.rs), end to end over all interleavings: through flights,
    cache rows and blobs, every one was returned by an upstream call for a request
    of the same meaning, or comes from a row that was there at the start. */
module Provenance {
  import opened JsonTree
  import opened Fingerprints
  import opened ContentStore
  import opened SafeCache
  import opened Gateway
  import opened SingleFlight

  /** The response came in at a step of a task with that cache key. */
  ghost predicate Called(s0: State, es: seq<Step>, key: CacheKey, r: Response) {
    exists j :: 0 <= j < |s0.tasks| && Respond(j, r) in es && s0.tasks[j].request.cacheKey == key
  }

  /** A row with that key held it at the start. */
  predicate InFirstRow(s0: State, key: CacheKey, r: Response) {
    key in s0.storage.tables.rows && RowResponse(s0.storage.tables.rows[key]) == r
  }

  ghost predicate Origin(s0: State, es: seq<Step>, key: CacheKey, r: Response) {
    Called(s0, es, key, r) || InFirstRow(s0, key, r)
  }

  /** The response that a row stands for. */
  function RowResponse(row: Row): Response {
    Response(row.status, row.responseHash.preimage)
  }

  predicate HasResponse(p: Phase) {
    p.Touching? || p.Replaying? || p.Fetched? || p.AtLimit? || p.Counted? || p.Admitted? || p.Written? || p.Undoing?
    || p.Kept? || p.Settling? || p.Finished?
  }

  ghost predicate TaskSourced(s0: State, es: seq<Step>, t: Task) {
    && t.request.Valid()
    && (HasResponse(t.phase) ==> Origin(s0, es, t.request.cacheKey, t.phase.r))
    && (t.phase.Reading? ==> Origin(s0, es, t.request.cacheKey, Response(t.phase.status, t.phase.h.preimage)))
  }

  ghost predicate RowSourced(s0: State, es: seq<Step>, s: State, k: CacheKey) {
    k in s.storage.tables.rows ==> Origin(s0, es, k, RowResponse(s.storage.tables.rows[k]))
  }

  ghost predicate Sourced(s0: State, es: seq<Step>, s: State) {
    && Addressed(s.storage.blobs)
    && |s.tasks| == |s0.tasks|
    && (forall i :: 0 <= i < |s.tasks| ==>
          s.tasks[i].request == s0.tasks[i].request && TaskSourced(s0, es, s.tasks[i]))
    && (forall k :: RowSourced(s0, es, s, k))
  }

  lemma OriginMore(s0: State, es: seq<Step>, e: Step, key: CacheKey, r: Response)
    requires Origin(s0, es, key, r)
    ensures Origin(s0, es + [e], key, r)
  {
    if Called(s0, es, key, r) {
      var j :| 0 <= j < |s0.tasks| && Respond(j, r) in es && s0.tasks[j].request.cacheKey == key;
      assert Respond(j, r) in es + [e];
    }
  }

  // ---- One step ----

  /** A task gets a response from upstream, or from the blob of its row. */
  lemma NewResponse(c: Config, s: State, e: Step)
    requires Enabled(c, s, e) && !e.Background? && HasResponse(Next(c, s, e).tasks[e.i].phase)
    ensures var r := Next(c, s, e).tasks[e.i].phase.r;
            var p := s.tasks[e.i].phase;
            || (HasResponse(p) && p.r == r)
            || e == Respond(e.i, r)
            || (p.Reading? && p.h in s.storage.blobs && r == Response(p.status, s.storage.blobs[p.h]))
  {
  }

  lemma OnlyReadRowReads(c: Config, s: State, e: Step)
    requires Enabled(c, s, e) && !e.Background? && !e.ReadRow?
    ensures !Next(c, s, e).tasks[e.i].phase.Reading?
  {
    if CacheStep(e) {
      CacheStepNeverReads(c, s, e);
    }
  }

  lemma CacheStepNeverReads(c: Config, s: State, e: Step)
    requires Enabled(c, s, e) && CacheStep(e) && !e.ReadRow?
    ensures !Next(c, s, e).tasks[e.i].phase.Reading?
  {
  }

  lemma NewReading(c: Config, s: State, e: Step)
    requires Enabled(c, s, e) && e.ReadRow?
    ensures var p := Next(c, s, e).tasks[e.i].phase;
            var key := s.tasks[e.i].request.cacheKey;
            && key in s.storage.tables.rows
            && Response(p.status, p.h.preimage) == RowResponse(s.storage.tables.rows[key])
  {
  }

  lemma NewRow(c: Config, s: State, e: Step, k: CacheKey)
    requires Enabled(c, s, e) && k in Next(c, s, e).storage.tables.rows
    ensures var row := Next(c, s, e).storage.tables.rows[k];
            || (k in s.storage.tables.rows && RowResponse(s.storage.tables.rows[k]) == RowResponse(row))
            || (e.InsertRow? && k == s.tasks[e.i].request.cacheKey && RowResponse(row) == s.tasks[e.i].phase.r)
  {
    if !e.Background? && !e.EvictFirst? && !e.CountHit? && !e.InsertRow? {
      StorageMoves(c, s, e);
    }
  }

  lemma StepKeepsAddressed(c: Config, s: State, e: Step)
    requires Addressed(s.storage.blobs) && Enabled(c, s, e)
    ensures Addressed(Next(c, s, e).storage.blobs)
  {
    if !e.Background? && !e.WriteBlob? && !e.DropBlob? {
      StorageMoves(c, s, e);
    }
  }

  lemma TaskStaysSourced(c: Config, s0: State, es: seq<Step>, s: State, e: Step)
    requires Sourced(s0, es, s) && Enabled(c, s, e) && !e.Background?
    ensures TaskSourced(s0, es + [e], Next(c, s, e).tasks[e.i])
  {
    OneTaskMoves(c, s, e);
    var t := Next(c, s, e).tasks[e.i];
    var key := t.request.cacheKey;
    assert TaskSourced(s0, es, s.tasks[e.i]);
    if HasResponse(t.phase) {
      NewResponse(c, s, e);
      if e == Respond(e.i, t.phase.r) {
        assert Called(s0, es + [e], key, t.phase.r);
      } else {
        OriginMore(s0, es, e, key, t.phase.r);
      }
    } else if t.phase.Reading? {
      if !e.ReadRow? {
        OnlyReadRowReads(c, s, e);
      }
      NewReading(c, s, e);
      assert RowSourced(s0, es, s, key);
      OriginMore(s0, es, e, key, Response(t.phase.status, t.phase.h.preimage));
    }
  }

  lemma OtherTaskStaysSourced(s0: State, es: seq<Step>, e: Step, t: Task)
    requires TaskSourced(s0, es, t)
    ensures TaskSourced(s0, es + [e], t)
  {
    var key := t.request.cacheKey;
    if HasResponse(t.phase) {
      OriginMore(s0, es, e, key, t.phase.r);
    } else if t.phase.Reading? {
      OriginMore(s0, es, e, key, Response(t.phase.status, t.phase.h.preimage));
    }
  }

  lemma RowStaysSourced(c: Config, s0: State, es: seq<Step>, s: State, e: Step, k: CacheKey)
    requires Sourced(s0, es, s) && Enabled(c, s, e)
    ensures RowSourced(s0, es + [e], Next(c, s, e), k)
  {
    if k in Next(c, s, e).storage.tables.rows {
      NewRow(c, s, e, k);
      assert RowSourced(s0, es, s, k);
      if e.InsertRow? {
        assert TaskSourced(s0, es, s.tasks[e.i]);
      }
      OriginMore(s0, es, e, k, RowResponse(Next(c, s, e).storage.tables.rows[k]));
    }
  }

  lemma StepKeepsSourced(c: Config, s0: State, es: seq<Step>, s: State, e: Step)
    requires Sourced(s0, es, s) && Enabled(c, s, e)
    ensures Sourced(s0, es + [e], Next(c, s, e))
  {
    var t := Next(c, s, e);
    OneTaskMoves(c, s, e);
    StepKeepsAddressed(c, s, e);
    forall i | 0 <= i < |t.tasks|
      ensures t.tasks[i].request == s0.tasks[i].request && TaskSourced(s0, es + [e], t.tasks[i])
    {
      assert s.tasks[i].request == s0.tasks[i].request && TaskSourced(s0, es, s.tasks[i]);
      if !e.Background? && i == e.i {
        TaskStaysSourced(c, s0, es, s, e);
      } else {
        assert t.tasks[i] == s.tasks[i];
        OtherTaskStaysSourced(s0, es, e, s.tasks[i]);
      }
    }
    forall k
      ensures RowSourced(s0, es + [e], t, k)
    {
      RowStaysSourced(c, s0, es, s, e, k);
    }
  }

  lemma {:induction false} RunKeepsSourced(c: Config, s0: State, done: seq<Step>, s: State, es: seq<Step>, t: State)
    requires Sourced(s0, done, s) && Runs(c, s, es, t)
    ensures Sourced(s0, done + es, t)
    decreases |es|
  {
    if es == [] {
      assert done + es == done;
    } else {
      StepKeepsSourced(c, s0, done, s, es[0]);
      RunKeepsSourced(c, s0, done + [es[0]], Next(c, s, es[0]), es[1..], t);
      assert done + [es[0]] + es[1..] == done + es;
    }
  }

  lemma InitiallySourced(c: Config, s: State)
    requires Initial(c, s)
    ensures Sourced(s, [], s)
  {
    forall k
      ensures RowSourced(s, [], s, k)
    {
      if k in s.storage.tables.rows {
        assert InFirstRow(s, k, RowResponse(s.storage.tables.rows[k]));
      }
    }
  }

  // ---- Main result ----

  /** Bodies of one meaning: they differ at most in the stream flag and in cache
      marks, or are the same text. */
  ghost predicate SameMeaning(a: Body, b: Body) {
    match (a, b)
    case (Document(x), Document(y)) => ConnectedByEdits(x, y)
    case _ => a == b
  }

  lemma SameFingerprintSameMeaning(a: Body, b: Body)
    ensures FingerprintOf(a) == FingerprintOf(b) <==> SameMeaning(a, b)
  {
    if a.Document? && b.Document? {
      SameFingerprintIffEdited(a.root, b.root);
    }
  }

  /** A task that has been answered, and with what. */
  predicate AnsweredWith(t: Task, r: Response) {
    (t.phase.Served? || t.phase.Replaying? || t.phase.Finished?) && t.phase.r == r
  }

  /** The task whose own call or cached row gave the answer: the leader for a
      coalesced request, otherwise the task itself. */
  lemma AnswerHasOrigin(c: Config, s: State, es: seq<Step>, t: State, i: nat, r: Response) returns (l: nat)
    requires Initial(c, s) && Runs(c, s, es, t) && i < |t.tasks| && AnsweredWith(t.tasks[i], r)
    ensures i < |s.tasks| && l < |s.tasks| && (!t.tasks[i].phase.Served? ==> l == i)
    ensures t.tasks[i].phase.Served? ==>
              s.tasks[l].request.flight.Some? && s.tasks[l].request.flight == s.tasks[i].request.flight
    ensures FingerprintOf(s.tasks[l].request.body) == FingerprintOf(s.tasks[i].request.body)
    ensures Origin(s, es, s.tasks[l].request.cacheKey, r)
  {
    InitiallySourced(c, s);
    RunKeepsSourced(c, s, [], s, es, t);
    assert [] + es == es;
    assert TaskSourced(s, es, t.tasks[i]);
    l := i;
    if t.tasks[i].phase.Served? {
      l := ServedTheLeadersResponse(c, s, es, t, i);
      assert TaskSourced(s, es, t.tasks[l]);
    }
  }

  /** Whatever a request is answered with, from another's flight, from the cache or
      from upstream, has a source: itself, or for a coalesced request one of the
      same flight and meaning.  It is what an upstream call returned for a request
      with the cache key of the source, so for its project and of the same meaning,
      or what the row with that key held at the start. */
  lemma AnswersAreGenuine(c: Config, s: State, es: seq<Step>, t: State, i: nat, r: Response) returns (l: nat)
    requires Initial(c, s) && Runs(c, s, es, t) && i < |t.tasks| && AnsweredWith(t.tasks[i], r)
    ensures i < |s.tasks| && l < |s.tasks| && (!t.tasks[i].phase.Served? ==> l == i)
    ensures t.tasks[i].phase.Served? ==>
              s.tasks[l].request.flight.Some? && s.tasks[l].request.flight == s.tasks[i].request.flight
    ensures SameMeaning(s.tasks[l].request.body, s.tasks[i].request.body)
    ensures (exists j :: 0 <= j < |s.tasks| && Respond(j, r) in es
                && s.tasks[j].request.cacheKey == s.tasks[l].request.cacheKey
                && SameMeaning(s.tasks[j].request.body, s.tasks[i].request.body))
            || InFirstRow(s, s.tasks[l].request.cacheKey, r)
  {
    l := AnswerHasOrigin(c, s, es, t, i, r);
    SameFingerprintSameMeaning(s.tasks[l].request.body, s.tasks[i].request.body);
    var key := s.tasks[l].request.cacheKey;
    if !InFirstRow(s, key, r) {
      var j :| 0 <= j < |s.tasks| && Respond(j, r) in es && s.tasks[j].request.cacheKey == key;
      assert s.tasks[j].request.Valid() && s.tasks[l].request.Valid();
      SameFingerprintSameMeaning(s.tasks[j].request.body, s.tasks[i].request.body);
    }
  }
}
