/** Usage rows as the database holds them, and the rows one call has in the log. */
module UsageLog {
  import opened Wrappers
  import opened Budget
  import opened Metering
  import opened MeteringProperties
  import Schema
  import SingleInsert

  function UsageColumns(r: UsageRow): Schema.Columns {
    map[
      "conversation_id" := if r.conversation == None then Schema.Null else Schema.Text(r.conversation.value),
      "attempt" := Schema.Number(r.attempt as real),
      "model" := Schema.Text(r.model),
      "input_tokens" := Schema.Number(r.inputTokens as real),
      "output_tokens" := Schema.Number(r.outputTokens as real),
      "cost_estimate" := Schema.Number(r.cost)]
  }

  function DbRow(r: UsageRow): Schema.Row {
    Schema.Row(r.user, map[Schema.Users := r.user], UsageColumns(r))
  }

  lemma DbRowFits(r: UsageRow)
    ensures SingleInsert.Fits(Schema.LlmUsageLogs, DbRow(r), r.user, {})
  {
  }

  /** A reply's row, read back column by column, holds the reply's own token counts
      and what the call asked for, and a cost that is the price of exactly these
      tokens: one micro-dollar each for those read, five for those written. */
  lemma RowReadsBack(s: State, call: nat, f: Flight, reply: Reply)
    ensures
      var row := DbRow(RowOf(s, call, f, reply));
      && row.owner == f.request.user && row.parents == map[Schema.Users := f.request.user]
      && Schema.NumberIn(row, "input_tokens") == reply.inputTokens as real
      && Schema.NumberIn(row, "output_tokens") == reply.outputTokens as real
      && Schema.NumberIn(row, "attempt") == f.attempt as real
      && Schema.ValueIn(row, "model") == Schema.Text(f.request.model)
      && Schema.ValueIn(row, "conversation_id") ==
           (if f.request.conversation == None then Schema.Null else Schema.Text(f.request.conversation.value))
      && (Price(f.request.model).Some? ==>
            Schema.NumberIn(row, "cost_estimate") * MILLION ==
              Schema.NumberIn(row, "input_tokens") + 5.0 * Schema.NumberIn(row, "output_tokens"))
  {
    var columns := UsageColumns(RowOf(s, call, f, reply));
    assert columns["cost_estimate"] == Schema.Number(RowOf(s, call, f, reply).cost);
    RowCostsItsReply(s, call, f, reply);
    if Price(f.request.model).Some? {
      CostInMicroDollars(f.request.model, reply.inputTokens, reply.outputTokens);
      MicroTimesMillion(reply.inputTokens, reply.outputTokens);
    }
  }

  lemma MicroTimesMillion(inputTokens: nat, outputTokens: nat)
    ensures (inputTokens + 5 * outputTokens) as real / MILLION * MILLION ==
            inputTokens as real + 5.0 * outputTokens as real
  {
  }

  /** The call's rows in the log, as the database holds them. */
  function RowsOfCall(log: seq<UsageRow>, call: nat): seq<Schema.Row> {
    if log == [] then []
    else
      var r := log[|log| - 1];
      var init := RowsOfCall(log[..|log| - 1], call);
      if r.call == call then init + [DbRow(r)] else init
  }

  lemma RowsOfOneMore(log: seq<UsageRow>, row: UsageRow, call: nat)
    ensures RowsOfCall(log + [row], call) ==
            if row.call == call then RowsOfCall(log, call) + [DbRow(row)] else RowsOfCall(log, call)
  {
    var log' := log + [row];
    assert log'[..|log'| - 1] == log && log'[|log'| - 1] == row;
  }

  lemma {:induction false} NoRowsOfCall(log: seq<UsageRow>, call: nat)
    requires forall i :: 0 <= i < |log| ==> log[i].call != call
    ensures RowsOfCall(log, call) == []
  {
    if log != [] {
      NoRowsOfCall(log[..|log| - 1], call);
    }
  }

  lemma {:induction false} LiveKeepsRowsOfCall(log: seq<UsageRow>, erased: set<string>, call: nat)
    requires forall i :: 0 <= i < |log| && log[i].call == call ==> log[i].user !in erased
    ensures RowsOfCall(Live(log, erased), call) == RowsOfCall(log, call)
  {
    if log != [] {
      var init, last := log[..|log| - 1], log[|log| - 1];
      LiveKeepsRowsOfCall(init, erased, call);
      RowsOfOneMore(Live(init, erased), last, call);
    }
  }

  /** Another's step leaves the call's rows, unless it erases the call's user. */
  lemma OthersKeepRowsNow(w: Setting, s: State, step: Step, call: nat)
    requires Sound(w, s) && !IsOf(step, call) && call in s.flights
    requires s.flights[call].request.user !in Apply(w, s, step).erased
    ensures RowsOfCall(Apply(w, s, step).log, call) == RowsOfCall(s.log, call)
  {
    if step.EraseAccount? {
      forall i | 0 <= i < |s.log| && s.log[i].call == call ensures s.log[i].user !in {step.user} {
        assert RowBelongs(s, s.log[i]);
      }
      LiveKeepsRowsOfCall(s.log, {step.user}, call);
    } else if step.Insert? && Enabled(s, step) {
      var f := s.flights[step.call];
      RowsOfOneMore(s.log, RowOf(s, step.call, f, f.phase.reply), call);
    }
  }

  lemma {:induction false} OthersKeepRows(w: Setting, s: State, steps: seq<Step>, call: nat)
    requires Sound(w, s) && call in s.flights && forall i :: 0 <= i < |steps| ==> !IsOf(steps[i], call)
    requires s.flights[call].request.user !in Exec(w, s, steps).erased
    ensures RowsOfCall(Exec(w, s, steps).log, call) == RowsOfCall(s.log, call)
    decreases |steps|
  {
    if steps != [] {
      ErasedGrows(w, Apply(w, s, steps[0]), steps[1..]);
      OthersKeepRowsNow(w, s, steps[0], call);
      RequestsStay(w, s, steps[0]);
      SoundStep(w, s, steps[0]);
      OthersKeepRows(w, Apply(w, s, steps[0]), steps[1..], call);
    }
  }

  /** The call's own step: its insert adds its row, if it is not refused. */
  lemma OwnStepOnRows(w: Setting, s: State, step: Step)
    requires Enabled(s, step) && !step.MonthTick? && !step.EraseAccount?
    ensures
      var f := if step.Begin? then Flight(step.request, 1, "", 0.0, CheckTurns) else s.flights[step.call];
      RowsOfCall(Apply(w, s, step).log, step.call) ==
        if step.Insert? && !Refused(s, step.call, step.fails)
        then RowsOfCall(s.log, step.call) + [DbRow(RowOf(s, step.call, f, f.phase.reply))]
        else RowsOfCall(s.log, step.call)
    ensures Apply(w, s, step).erased == s.erased
  {
    if step.Insert? {
      var f := s.flights[step.call];
      RowsOfOneMore(s.log, RowOf(s, step.call, f, f.phase.reply), step.call);
    }
  }

  /** A call that has not begun has no row anywhere. */
  lemma NewCallHasNoRows(s: State, call: nat)
    requires RowsOk(s) && call !in s.flights
    ensures RowsOfCall(s.log, call) == []
    ensures CallCost(s.log, call) == 0.0 && CallCost(s.gone, call) == 0.0 && CallCost(s.lost, call) == 0.0
  {
    assert forall i :: 0 <= i < |s.log| ==> RowBelongs(s, s.log[i]);
    assert forall i :: 0 <= i < |s.gone| ==> RowBelongs(s, s.gone[i]);
    assert forall i :: 0 <= i < |s.lost| ==> RowBelongs(s, s.lost[i]);
    NoRowsOfCall(s.log, call);
    NoRowsNoCost(s.log, call);
    NoRowsNoCost(s.gone, call);
    NoRowsNoCost(s.lost, call);
  }
}
