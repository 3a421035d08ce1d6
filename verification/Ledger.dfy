/** The request ledger and its summaries (src/meter/db.rs).  Every record the
    handlers write is a local hit, a coalesced request or an upstream request,
    so the three counts add up to the total in every view; the per-model figures
    add up to the overall ones under an exact condition on empty model names. */
module Ledger {
  import opened Wrappers

  datatype Record = Record(
    model: string, project: string, inputTokens: nat, outputTokens: nat,
    cacheReadTokens: nat, cacheCreationTokens: nat, coalesced: nat,
    reductionInput: nat, reductionOutput: nat, reductions: nat, localHit: bool)

  // ---- What the handlers write ----

  /** How a request was answered. */
  datatype Outcome =
    | LocalHit
    | Coalesced
    | Forwarded(cacheRead: nat, cacheCreated: nat, reductionInput: nat, reductionOutput: nat, reductions: nat)

  function HandlerRecord(model: string, project: string, inputTokens: nat, outputTokens: nat, o: Outcome): Record {
    match o
    case LocalHit => Record(model, project, inputTokens, outputTokens, 0, 0, 0, 0, 0, 0, true)
    case Coalesced => Record(model, project, inputTokens, outputTokens, 0, 0, 1, 0, 0, 0, false)
    case Forwarded(read, created, rin, rout, n) =>
      Record(model, project, inputTokens, outputTokens, read, created, 0, rin, rout, n, false)
  }

  /** An answered request: what its record says about it, and how it was answered. */
  datatype Answer = Answer(model: string, project: string, inputTokens: nat, outputTokens: nat, outcome: Outcome)

  function RecordOf(a: Answer): Record {
    HandlerRecord(a.model, a.project, a.inputTokens, a.outputTokens, a.outcome)
  }

  /** The ledger that the handlers write. */
  function RecordsOf(answers: seq<Answer>): (rows: seq<Record>)
    ensures |rows| == |answers|
  {
    if answers == [] then [] else [RecordOf(answers[0])] + RecordsOf(answers[1..])
  }

  // ---- Summaries ----

  /** One integer column of a usage breakdown: what a row adds to it. */
  type Column = Record -> nat

  const REQUESTS: Column := (r: Record) => 1
  const COALESCED: Column := (r: Record) => r.coalesced
  const LOCAL_HITS: Column := (r: Record) => if r.localHit then 1 else 0
  const UPSTREAM: Column := (r: Record) => if !r.localHit && r.coalesced == 0 then 1 else 0
  const INPUT_TOKENS: Column := (r: Record) => r.inputTokens
  const OUTPUT_TOKENS: Column := (r: Record) => r.outputTokens
  const CACHE_READ_TOKENS: Column := (r: Record) => r.cacheReadTokens
  const CACHE_CREATION_TOKENS: Column := (r: Record) => r.cacheCreationTokens
  const REDUCTION_INPUT: Column := (r: Record) => r.reductionInput
  const REDUCTION_OUTPUT: Column := (r: Record) => r.reductionOutput
  const REDUCTIONS: Column := (r: Record) => r.reductions
  const SAVED_TOKENS: Column := (r: Record) => if r.localHit then r.inputTokens + r.outputTokens else 0

  function Sum(rows: seq<Record>, col: Column): nat {
    if rows == [] then 0 else col(rows[0]) + Sum(rows[1..], col)
  }

  /** Which project paths a filter shows; without a filter, all. */
  type View = string -> bool

  function InView(rows: seq<Record>, view: View): seq<Record> {
    if rows == [] then []
    else (if view(rows[0].project) then [rows[0]] else []) + InView(rows[1..], view)
  }

  function OfModel(rows: seq<Record>, model: string): seq<Record> {
    if rows == [] then []
    else (if rows[0].model == model then [rows[0]] else []) + OfModel(rows[1..], model)
  }

  /** The rows a breakdown is built from: an empty model filter selects all. */
  function Selected(rows: seq<Record>, model: string, view: View): seq<Record> {
    if model == "" then InView(rows, view) else OfModel(InView(rows, view), model)
  }

  /** The models of a view, each once, in any order. */
  ghost predicate ModelsOf(rows: seq<Record>, models: seq<string>) {
    && Distinct(models)
    && (forall m :: m in models <==> exists i :: 0 <= i < |rows| && rows[i].model == m)
  }

  /** A column added up over the per-model breakdowns. */
  function SumByModel(rows: seq<Record>, view: View, models: seq<string>, col: Column): nat {
    if models == [] then 0
    else Sum(Selected(rows, models[0], view), col) + SumByModel(rows, view, models[1..], col)
  }

  // ---- Columns count outcomes ----

  /** Whether a filter by model and project shows an answer. */
  predicate Shown(a: Answer, model: string, view: View) {
    view(a.project) && (model == "" || a.model == model)
  }

  /** What a filter shows of the answers, weighed one by one. */
  function Weigh(answers: seq<Answer>, model: string, view: View, weight: Answer -> nat): nat {
    if answers == [] then 0
    else (if Shown(answers[0], model, view) then weight(answers[0]) else 0) + Weigh(answers[1..], model, view, weight)
  }

  lemma SelectedOneMore(row: Record, rows: seq<Record>, model: string, view: View)
    ensures Selected([row] + rows, model, view)
         == (if view(row.project) && (model == "" || row.model == model) then [row] else []) + Selected(rows, model, view)
  {
    assert ([row] + rows)[1..] == rows;
    var v := InView(rows, view);
    if view(row.project) {
      assert ([row] + v)[1..] == v;
    } else {
      assert [] + v == v;
    }
    assert [] + OfModel(v, model) == OfModel(v, model);
  }

  lemma SumOneMore(row: Record, rows: seq<Record>, col: Column)
    ensures Sum([row] + rows, col) == col(row) + Sum(rows, col)
  {
    assert ([row] + rows)[1..] == rows;
  }

  /** A column that says of each record what a weight says of its answer adds up
      to the weight of the answers shown. */
  lemma {:induction false} ColumnWeighs(answers: seq<Answer>, model: string, view: View, col: Column, weight: Answer -> nat)
    requires forall a :: col(RecordOf(a)) == weight(a)
    ensures Sum(Selected(RecordsOf(answers), model, view), col) == Weigh(answers, model, view, weight)
    decreases |answers|
  {
    if answers == [] {
    } else {
      var row, rows := RecordOf(answers[0]), RecordsOf(answers[1..]);
      SelectedOneMore(row, rows, model, view);
      ColumnWeighs(answers[1..], model, view, col, weight);
      if Shown(answers[0], model, view) {
        SumOneMore(row, Selected(rows, model, view), col);
      } else {
        assert [] + Selected(rows, model, view) == Selected(rows, model, view);
      }
    }
  }

  const ONE: Answer -> nat := (a: Answer) => 1
  const IF_FORWARDED: Answer -> nat := (a: Answer) => if a.outcome.Forwarded? then 1 else 0
  const IF_LOCAL_HIT: Answer -> nat := (a: Answer) => if a.outcome.LocalHit? then 1 else 0
  const IF_COALESCED: Answer -> nat := (a: Answer) => if a.outcome.Coalesced? then 1 else 0
  const TOKENS_IF_LOCAL_HIT: Answer -> nat :=
    (a: Answer) => if a.outcome.LocalHit? then a.inputTokens + a.outputTokens else 0

  const INPUT: Answer -> nat := (a: Answer) => a.inputTokens
  const OUTPUT: Answer -> nat := (a: Answer) => a.outputTokens
  const READ_IF_FORWARDED: Answer -> nat := (a: Answer) => if a.outcome.Forwarded? then a.outcome.cacheRead else 0
  const CREATED_IF_FORWARDED: Answer -> nat := (a: Answer) => if a.outcome.Forwarded? then a.outcome.cacheCreated else 0
  const RAW_IF_FORWARDED: Answer -> nat := (a: Answer) => if a.outcome.Forwarded? then a.outcome.reductionInput else 0
  const REDUCED_IF_FORWARDED: Answer -> nat :=
    (a: Answer) => if a.outcome.Forwarded? then a.outcome.reductionOutput else 0
  const REDUCTIONS_IF_FORWARDED: Answer -> nat :=
    (a: Answer) => if a.outcome.Forwarded? then a.outcome.reductions else 0

  /** The token and reduction columns of every view are the sums over the answers
      shown: tokens in and out of all of them, the rest of the forwarded ones. */
  lemma ViewTokensAddUp(answers: seq<Answer>, model: string, view: View)
    ensures var v := Selected(RecordsOf(answers), model, view);
            && Sum(v, INPUT_TOKENS) == Weigh(answers, model, view, INPUT)
            && Sum(v, OUTPUT_TOKENS) == Weigh(answers, model, view, OUTPUT)
            && Sum(v, CACHE_READ_TOKENS) == Weigh(answers, model, view, READ_IF_FORWARDED)
            && Sum(v, CACHE_CREATION_TOKENS) == Weigh(answers, model, view, CREATED_IF_FORWARDED)
            && Sum(v, REDUCTION_INPUT) == Weigh(answers, model, view, RAW_IF_FORWARDED)
            && Sum(v, REDUCTION_OUTPUT) == Weigh(answers, model, view, REDUCED_IF_FORWARDED)
            && Sum(v, REDUCTIONS) == Weigh(answers, model, view, REDUCTIONS_IF_FORWARDED)
  {
    ColumnWeighs(answers, model, view, INPUT_TOKENS, INPUT);
    ColumnWeighs(answers, model, view, OUTPUT_TOKENS, OUTPUT);
    ColumnWeighs(answers, model, view, CACHE_READ_TOKENS, READ_IF_FORWARDED);
    ColumnWeighs(answers, model, view, CACHE_CREATION_TOKENS, CREATED_IF_FORWARDED);
    ColumnWeighs(answers, model, view, REDUCTION_INPUT, RAW_IF_FORWARDED);
    ColumnWeighs(answers, model, view, REDUCTION_OUTPUT, REDUCED_IF_FORWARDED);
    ColumnWeighs(answers, model, view, REDUCTIONS, REDUCTIONS_IF_FORWARDED);
  }

  lemma {:induction false} OutcomesAddUp(answers: seq<Answer>, model: string, view: View)
    ensures Weigh(answers, model, view, ONE) == Weigh(answers, model, view, IF_FORWARDED)
              + Weigh(answers, model, view, IF_LOCAL_HIT) + Weigh(answers, model, view, IF_COALESCED)
    decreases |answers|
  {
    if answers == [] {
    } else {
      OutcomesAddUp(answers[1..], model, view);
    }
  }

  /** For every ledger the handlers write and every filter, by project and by
      model: the columns are the numbers of answers shown, and of forwarded,
      local-hit and coalesced ones among them, which add up; and the tokens saved
      are those of the local hits shown. */
  lemma ViewCountsAddUp(answers: seq<Answer>, model: string, view: View)
    ensures var v := Selected(RecordsOf(answers), model, view);
            && Sum(v, REQUESTS) == Weigh(answers, model, view, ONE)
            && Sum(v, UPSTREAM) == Weigh(answers, model, view, IF_FORWARDED)
            && Sum(v, LOCAL_HITS) == Weigh(answers, model, view, IF_LOCAL_HIT)
            && Sum(v, COALESCED) == Weigh(answers, model, view, IF_COALESCED)
            && Sum(v, SAVED_TOKENS) == Weigh(answers, model, view, TOKENS_IF_LOCAL_HIT)
            && Sum(v, REQUESTS) == Sum(v, UPSTREAM) + Sum(v, LOCAL_HITS) + Sum(v, COALESCED)
  {
    ColumnWeighs(answers, model, view, REQUESTS, ONE);
    ColumnWeighs(answers, model, view, UPSTREAM, IF_FORWARDED);
    ColumnWeighs(answers, model, view, LOCAL_HITS, IF_LOCAL_HIT);
    ColumnWeighs(answers, model, view, COALESCED, IF_COALESCED);
    ColumnWeighs(answers, model, view, SAVED_TOKENS, TOKENS_IF_LOCAL_HIT);
    OutcomesAddUp(answers, model, view);
  }

  // ---- Per-model figures against the overall ones ----

  /** The sum over models of what each model's own rows add. */
  function Grouped(rows: seq<Record>, models: seq<string>, col: Column): nat {
    if models == [] then 0 else Sum(OfModel(rows, models[0]), col) + Grouped(rows, models[1..], col)
  }

  lemma {:induction false} GroupedNone(models: seq<string>, col: Column)
    ensures Grouped([], models, col) == 0
    decreases |models|
  {
    if models == [] {
    } else {
      GroupedNone(models[1..], col);
    }
  }

  /** One more row adds its figure to exactly one of the groups. */
  lemma {:induction false} GroupedRow(rows: seq<Record>, models: seq<string>, col: Column)
    requires rows != [] && Distinct(models)
    ensures Grouped(rows, models, col) ==
            (if rows[0].model in models then col(rows[0]) else 0) + Grouped(rows[1..], models, col)
    decreases |models|
  {
    if models == [] {
    } else {
      GroupedRow(rows, models[1..], col);
      assert models == [models[0]] + models[1..];
      if rows[0].model == models[0] {
        assert ([rows[0]] + OfModel(rows[1..], models[0]))[1..] == OfModel(rows[1..], models[0]);
        assert rows[0].model !in models[1..];
      } else {
        assert [] + OfModel(rows[1..], models[0]) == OfModel(rows[1..], models[0]);
      }
    }
  }

  lemma {:induction false} GroupedIsSum(rows: seq<Record>, models: seq<string>, col: Column)
    requires Distinct(models)
    requires forall i :: 0 <= i < |rows| ==> rows[i].model in models
    ensures Grouped(rows, models, col) == Sum(rows, col)
    decreases |rows|
  {
    if rows == [] {
      GroupedNone(models, col);
    } else {
      GroupedRow(rows, models, col);
      GroupedIsSum(rows[1..], models, col);
    }
  }

  lemma {:induction false} WithoutEmptyName(rows: seq<Record>, view: View, models: seq<string>, col: Column)
    requires "" !in models
    ensures SumByModel(rows, view, models, col) == Grouped(InView(rows, view), models, col)
    decreases |models|
  {
    if models == [] {
    } else {
      WithoutEmptyName(rows, view, models[1..], col);
    }
  }

  /** The group of the empty name holds the figures of the whole view instead. */
  lemma {:induction false} WithEmptyName(rows: seq<Record>, view: View, models: seq<string>, col: Column)
    requires "" in models && Distinct(models)
    ensures var v := InView(rows, view);
            SumByModel(rows, view, models, col) + Sum(OfModel(v, ""), col) == Grouped(v, models, col) + Sum(v, col)
    decreases |models|
  {
    assert models == [models[0]] + models[1..];
    if models[0] == "" {
      WithoutEmptyName(rows, view, models[1..], col);
    } else {
      WithEmptyName(rows, view, models[1..], col);
    }
  }

  lemma {:induction false} SumCounts(rows: seq<Record>)
    ensures Sum(rows, REQUESTS) == |rows|
    decreases |rows|
  {
    if rows == [] {
    } else {
      SumCounts(rows[1..]);
    }
  }

  lemma {:induction false} OfModelAll(rows: seq<Record>, model: string)
    ensures |OfModel(rows, model)| <= |rows|
    ensures |OfModel(rows, model)| == |rows| <==> forall i :: 0 <= i < |rows| ==> rows[i].model == model
    ensures |OfModel(rows, model)| == |rows| ==> OfModel(rows, model) == rows
    decreases |rows|
  {
    if rows == [] {
    } else {
      OfModelAll(rows[1..], model);
      assert rows == [rows[0]] + rows[1..];
    }
  }

  /** A summary's per-model figures add up to its overall figures, in every
      column, exactly when the view has no row with an empty model name, or no
      other row: an empty name asks for every row. */
  lemma ByModelAddsUpIff(rows: seq<Record>, view: View, models: seq<string>)
    requires ModelsOf(InView(rows, view), models)
    ensures (forall col: Column :: SumByModel(rows, view, models, col) == Sum(Selected(rows, "", view), col))
            <==> "" !in models || forall m :: m in models ==> m == ""
  {
    var v := InView(rows, view);
    forall i | 0 <= i < |v|
      ensures v[i].model in models
    {
    }
    if "" !in models {
      forall col: Column
        ensures SumByModel(rows, view, models, col) == Sum(v, col)
      {
        GroupedIsSum(v, models, col);
        WithoutEmptyName(rows, view, models, col);
      }
    } else {
      OfModelAll(v, "");
      forall col: Column
        ensures SumByModel(rows, view, models, col) + Sum(OfModel(v, ""), col) == Sum(v, col) + Sum(v, col)
      {
        GroupedIsSum(v, models, col);
        WithEmptyName(rows, view, models, col);
      }
      SumCounts(v);
      SumCounts(OfModel(v, ""));
      assert SumByModel(rows, view, models, REQUESTS) == Sum(v, REQUESTS) <==> |OfModel(v, "")| == |v|;
    }
  }
}
