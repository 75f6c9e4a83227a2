/** Prices, token estimates and the spending guards, in exact dollars. */
module Budget {
  import opened Wrappers

  datatype Pricing = Pricing(inputPerMTok: real, outputPerMTok: real)

  function Price(model: string): Option<Pricing> {
    if model == "claude-haiku-4-5" then Some(Pricing(1.0, 5.0)) else None
  }

  const MILLION := 1000000.0

  /** None: no pricing entry for the model. */
  function EstimateCost(model: string, inputTokens: nat, outputTokens: nat): Option<real> {
    match Price(model)
    case None => None
    case Some(p) =>
      Some(inputTokens as real / MILLION * p.inputPerMTok + outputTokens as real / MILLION * p.outputPerMTok)
  }

  /** ceil(length / 4) */
  function EstimateTokens(text: string): (n: nat)
    ensures |text| <= 4 * n < |text| + 4
  {
    (|text| + 3) / 4
  }

  function WorstCaseAttemptCost(model: string, prompt: string, maxTokens: nat): Option<real> {
    EstimateCost(model, EstimateTokens(prompt), maxTokens)
  }

  /** `toFixed(8)`: what the usage row stores of a cost. */
  function ToFixed8(cost: real): real {
    (cost * 100000000.0 + 0.5).Floor as real / 100000000.0
  }

  datatype EnvNumber = Unset | NotFinite | Finite(n: real)

  function PositiveEnvNumber(raw: EnvNumber, fallback: real): (r: real)
    requires fallback > 0.0
    ensures r > 0.0
    ensures (raw.Finite? && raw.n > 0.0 ==>
              raw == Finite(r)) && (raw == Unset || raw == NotFinite || raw.n <= 0.0 ==> r == fallback)
  {
    match raw
    case Finite(n) => if n > 0.0 then n else fallback
    case _ => fallback
  }

  /** Costs are whole micro-dollars: each token costs one, five if generated. */
  lemma CostInMicroDollars(model: string, inputTokens: nat, outputTokens: nat)
    requires Price(model).Some?
    ensures EstimateCost(model, inputTokens, outputTokens) == Some((inputTokens + 5 * outputTokens) as real / MILLION)
  {
  }

  /** So storing eight decimals loses nothing. */
  lemma StoredCostIsExact(model: string, inputTokens: nat, outputTokens: nat)
    requires Price(model).Some?
    ensures
      var cost := EstimateCost(model, inputTokens, outputTokens).value;
      ToFixed8(cost) == cost
  {
    CostInMicroDollars(model, inputTokens, outputTokens);
    var k := inputTokens + 5 * outputTokens;
    assert k as real / MILLION * 100000000.0 == (100 * k) as real;
    assert ((100 * k) as real + 0.5).Floor == 100 * k;
  }

  /** Costs grow with both token counts: a reply within its estimates costs at
      most the worst case. */
  lemma WithinWorstCase(model: string, prompt: string, maxTokens: nat, inputTokens: nat, outputTokens: nat)
    requires Price(model).Some? && inputTokens <= EstimateTokens(prompt) && outputTokens <= maxTokens
    ensures
      var cost, worst := EstimateCost(model, inputTokens, outputTokens), WorstCaseAttemptCost(model, prompt, maxTokens);
      0.0 <= cost.value <= worst.value
  {
    CostInMicroDollars(model, inputTokens, outputTokens);
    CostInMicroDollars(model, EstimateTokens(prompt), maxTokens);
  }

  // ---- The usage log ----

  /** `call` tells in the model which call wrote the row. */
  datatype UsageRow = UsageRow(
    call: nat, user: string, month: nat, conversation: Option<string>, attempt: nat,
    model: string, inputTokens: nat, outputTokens: nat, cost: real)

  predicate InMonth(row: UsageRow, user: string, month: nat) {
    row.user == user && row.month == month
  }

  function MonthSpend(log: seq<UsageRow>, user: string, month: nat): real {
    if log == [] then 0.0
    else
      var r := log[|log| - 1];
      MonthSpend(log[..|log| - 1], user, month) + if InMonth(r, user, month) then r.cost else 0.0
  }

  /** What the guard sums: every row from the start of the current month on. */
  function SpentSince(log: seq<UsageRow>, user: string, month: nat): real {
    if log == [] then 0.0
    else
      var r := log[|log| - 1];
      SpentSince(log[..|log| - 1], user, month) + if r.user == user && r.month >= month then r.cost else 0.0
  }

  predicate IsTurn(row: UsageRow, user: string, conversation: string) {
    row.user == user && row.conversation == Some(conversation) && row.attempt == 1
  }

  function Turns(log: seq<UsageRow>, user: string, conversation: string): nat {
    if log == [] then 0
    else Turns(log[..|log| - 1], user, conversation) + if IsTurn(log[|log| - 1], user, conversation) then 1 else 0
  }

  /** Turns recorded by one call. */
  function CallTurns(log: seq<UsageRow>, call: nat): nat {
    if log == [] then 0
    else CallTurns(log[..|log| - 1], call) + if log[|log| - 1].call == call && log[|log| - 1].attempt == 1 then 1 else 0
  }

  /** Cost of the rows one call wrote. */
  function CallCost(log: seq<UsageRow>, call: nat): real {
    if log == [] then 0.0
    else
      var r := log[|log| - 1];
      CallCost(log[..|log| - 1], call) + if r.call == call then r.cost else 0.0
  }

  /** While no row lies in the future, the guard's sum is the current month's. */
  lemma {:induction false} SpentIsMonthSpend(log: seq<UsageRow>, user: string, month: nat)
    requires forall i :: 0 <= i < |log| ==> log[i].month <= month
    ensures SpentSince(log, user, month) == MonthSpend(log, user, month)
  {
    if log != [] {
      SpentIsMonthSpend(log[..|log| - 1], user, month);
    }
  }

  /** Effect of one more row on every account. */
  lemma OneMoreRow(log: seq<UsageRow>, row: UsageRow)
    ensures forall u, m ::
              MonthSpend(log + [row], u, m) == MonthSpend(log, u, m) + if InMonth(row, u, m) then row.cost else 0.0
    ensures forall u, c :: Turns(log + [row], u, c) == Turns(log, u, c) + if IsTurn(row, u, c) then 1 else 0
    ensures forall k ::
              CallTurns(log + [row], k) == CallTurns(log, k) + if row.call == k && row.attempt == 1 then 1 else 0
    ensures forall k :: CallCost(log + [row], k) == CallCost(log, k) + if row.call == k then row.cost else 0.0
  {
    var log' := log + [row];
    assert log'[..|log'| - 1] == log && log'[|log'| - 1] == row;
  }

  lemma {:induction false} NoFutureSpend(log: seq<UsageRow>, user: string, month: nat)
    requires forall i :: 0 <= i < |log| ==> log[i].month < month
    ensures MonthSpend(log, user, month) == 0.0
  {
    if log != [] {
      NoFutureSpend(log[..|log| - 1], user, month);
    }
  }

  // ---- Erased accounts ----

  /** The rows whose owner is not erased. */
  function Live(log: seq<UsageRow>, erased: set<string>): seq<UsageRow> {
    if log == [] then []
    else
      var r := log[|log| - 1];
      var init := Live(log[..|log| - 1], erased);
      if r.user in erased then init else init + [r]
  }

  /** The rows whose owner is. */
  function Dead(log: seq<UsageRow>, erased: set<string>): seq<UsageRow> {
    if log == [] then []
    else
      var r := log[|log| - 1];
      var init := Dead(log[..|log| - 1], erased);
      if r.user in erased then init + [r] else init
  }

  lemma LiveOneMore(log: seq<UsageRow>, row: UsageRow, erased: set<string>)
    ensures Live(log + [row], erased) == if row.user in erased then Live(log, erased) else Live(log, erased) + [row]
  {
    var log' := log + [row];
    assert log'[..|log'| - 1] == log && log'[|log'| - 1] == row;
  }

  lemma {:induction false} LiveRows(log: seq<UsageRow>, erased: set<string>)
    ensures forall r :: r in Live(log, erased) <==> r in log && r.user !in erased
    ensures forall r :: r in Dead(log, erased) <==> r in log && r.user in erased
  {
    if log != [] {
      var init, last := log[..|log| - 1], log[|log| - 1];
      LiveRows(init, erased);
      assert log == init + [last];
    }
  }

  lemma {:induction false} LiveTwice(log: seq<UsageRow>, a: set<string>, b: set<string>)
    ensures Live(Live(log, a), b) == Live(log, a + b)
  {
    if log != [] {
      var init, last := log[..|log| - 1], log[|log| - 1];
      LiveTwice(init, a, b);
      if last.user !in a {
        LiveOneMore(Live(init, a), last, b);
      }
    }
  }

  lemma {:induction false} LiveOfLive(log: seq<UsageRow>, erased: set<string>)
    requires forall i :: 0 <= i < |log| ==> log[i].user !in erased
    ensures Live(log, erased) == log
  {
    if log != [] {
      LiveOfLive(log[..|log| - 1], erased);
    }
  }

  lemma OneMoreAccount(log: seq<UsageRow>, row: UsageRow, u: string, m: nat, c: string)
    ensures MonthSpend(log + [row], u, m) == MonthSpend(log, u, m) + if InMonth(row, u, m) then row.cost else 0.0
    ensures Turns(log + [row], u, c) == Turns(log, u, c) + if IsTurn(row, u, c) then 1 else 0
  {
    OneMoreRow(log, row);
  }

  /** An erasure takes the erased users' spending and turns and nobody else's. */
  lemma {:induction false} LiveAccounts(log: seq<UsageRow>, erased: set<string>, u: string, m: nat, c: string)
    ensures MonthSpend(Live(log, erased), u, m) == if u in erased then 0.0 else MonthSpend(log, u, m)
    ensures Turns(Live(log, erased), u, c) == if u in erased then 0 else Turns(log, u, c)
  {
    if log != [] {
      var init, last := log[..|log| - 1], log[|log| - 1];
      LiveAccounts(init, erased, u, m, c);
      OneMoreAccount(Live(init, erased), last, u, m, c);
    }
  }

  /** What one call cost and counted is split between what stays and what goes. */
  lemma {:induction false} LiveSplitsCalls(log: seq<UsageRow>, erased: set<string>, k: nat)
    ensures CallCost(log, k) == CallCost(Live(log, erased), k) + CallCost(Dead(log, erased), k)
    ensures CallTurns(log, k) == CallTurns(Live(log, erased), k) + CallTurns(Dead(log, erased), k)
  {
    if log != [] {
      var init, last := log[..|log| - 1], log[|log| - 1];
      LiveSplitsCalls(init, erased, k);
      OneMoreRow(Live(init, erased), last);
      OneMoreRow(Dead(init, erased), last);
    }
  }

  lemma {:induction false} CostsAddUp(a: seq<UsageRow>, b: seq<UsageRow>, k: nat)
    ensures CallCost(a + b, k) == CallCost(a, k) + CallCost(b, k)
    ensures CallTurns(a + b, k) == CallTurns(a, k) + CallTurns(b, k)
  {
    if b == [] {
      assert a + b == a;
    } else {
      var init, last := b[..|b| - 1], b[|b| - 1];
      CostsAddUp(a, init, k);
      OneMoreRow(a + init, last);
      assert a + b == a + init + [last];
    }
  }

  lemma {:induction false} NoRowsNoCost(log: seq<UsageRow>, k: nat)
    requires forall i :: 0 <= i < |log| ==> log[i].call != k
    ensures CallCost(log, k) == 0.0 && CallTurns(log, k) == 0
  {
    if log != [] {
      NoRowsNoCost(log[..|log| - 1], k);
    }
  }
}
