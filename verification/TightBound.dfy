/** The bound on overshoot cannot be improved: up to what is lost in rounding to
    micro-dollars, some run of calls reaches it. */
module TightBound {
  import opened Wrappers
  import opened Budget
  import opened Metering
  import opened MeteringProperties

  const MODEL := "claude-haiku-4-5"

  function Micro(k: nat): real {
    k as real / MILLION
  }

  function Chars(k: nat): string {
    seq(k, _ => 'x')
  }

  /** A request whose attempt may cost exactly `k` micro-dollars, and the reply that does. */
  function Ask(user: string, k: nat): Request {
    Request(user, None, None, MODEL, "", Chars(4 * (k % 5)), k / 5, false)
  }

  function Answer(k: nat): Reply {
    Reply("", k % 5, k / 5, false)
  }

  lemma AskCosts(user: string, k: nat)
    ensures "" + Chars(4 * (k % 5)) == Chars(4 * (k % 5)) && EstimateTokens(Chars(4 * (k % 5))) == k % 5
    ensures WorstCaseAttemptCost(MODEL, Chars(4 * (k % 5)), k / 5) == Some(Micro(k))
    ensures ReplyCost(MODEL, Answer(k)) == Micro(k)
  {
    CostInMicroDollars(MODEL, k % 5, k / 5);
    assert k % 5 + 5 * (k / 5) == k;
  }

  // ---- Calls that wait for their replies ----

  predicate Waits(s: State, user: string, c: nat, k: nat) {
    && c in s.flights && s.flights[c].request == Ask(user, k) && s.flights[c].system == ""
    && s.flights[c].attempt == 1 && s.flights[c].phase == AwaitReply
  }

  /** Pending are at most the calls from `from` up to `to`. */
  predicate PendingWithin(s: State, user: string, from: nat, to: nat) {
    from <= to && forall c :: c in s.flights && Pending(s.flights[c], user) ==> from <= c < to
  }

  /** So much is spent in the month, and the calls from `from` up to `to` wait. */
  predicate Stage(s: State, user: string, month: nat, spent: nat, k: nat, from: nat, to: nat) {
    && s.erased == {} && s.month == month && (forall i :: 0 <= i < |s.log| ==> s.log[i].month <= month)
    && MonthSpend(s.log, user, month) == Micro(spent)
    && (forall c :: c in s.flights ==> c < to)
    && (forall c :: from <= c < to ==> Waits(s, user, c, k))
    && PendingWithin(s, user, from, to)
  }

  lemma FewPending(s: State, user: string, from: nat, to: nat)
    requires PendingWithin(s, user, from, to)
    ensures |PendingCalls(s, user)| <= to - from
  {
    SubsetSize(PendingCalls(s, user), Calls(from, to - from));
  }

  // ---- Putting calm runs together ----

  lemma CalmStep(w: Setting, s: State, step: Step, rest: seq<Step>, user: string, n: nat)
    requires |PendingCalls(s, user)| <= n && HonestReply(s, step, user) && Calm(w, Apply(w, s, step), rest, user, n)
    ensures Calm(w, s, [step] + rest, user, n) && Exec(w, s, [step] + rest) == Exec(w, Apply(w, s, step), rest)
  {
    assert ([step] + rest)[1..] == rest;
  }

  lemma {:induction false} CalmAppend(w: Setting, s: State, a: seq<Step>, b: seq<Step>, user: string, n: nat)
    requires Calm(w, s, a, user, n) && Calm(w, Exec(w, s, a), b, user, n)
    ensures Calm(w, s, a + b, user, n) && Exec(w, s, a + b) == Exec(w, Exec(w, s, a), b)
    decreases |a|
  {
    if a == [] {
      assert a + b == b;
    } else {
      assert (a + b)[0] == a[0] && (a + b)[1..] == a[1..] + b;
      CalmAppend(w, Apply(w, s, a[0]), a[1..], b, user, n);
    }
  }

  /** A step that moves one call without a reply, few being pending. */
  lemma CalmMove(w: Setting, s: State, step: Step, rest: seq<Step>, user: string, from: nat, to: nat, n: nat)
    requires PendingWithin(s, user, from, to) && to - from <= n && !step.ProviderReply?
    requires Calm(w, Apply(w, s, step), rest, user, n)
    ensures Calm(w, s, [step] + rest, user, n) && Exec(w, s, [step] + rest) == Exec(w, Apply(w, s, step), rest)
  {
    FewPending(s, user, from, to);
    CalmStep(w, s, step, rest, user, n);
  }

  // ---- One call opens ----

  function At(s: State, call: nat, f: Flight): State {
    s.(flights := s.flights[call := f])
  }

  lemma OneMoreWithin(s: State, user: string, from: nat, to: nat, f: Flight)
    requires PendingWithin(s, user, from, to)
    ensures PendingWithin(At(s, to, f), user, from, to + 1)
  {
  }

  lemma GuardsPass(w: Setting, s: State, user: string, spent: nat, k: nat, from: nat, to: nat) returns (f: Flight)
    requires Stage(s, user, s.month, spent, k, from, to) && Micro(spent) < w.cap && Micro(k) <= w.ceiling
    ensures f == Flight(Ask(user, k), 1, "", f.spent, PriceAttempt)
    ensures Apply(w, s, Begin(to, Ask(user, k))) == At(s, to, Flight(Ask(user, k), 1, "", 0.0, CheckTurns))
    ensures
      Apply(w, At(s, to, Flight(Ask(user, k), 1, "", 0.0, CheckTurns)), TurnCheck(to, false))
      == At(s, to, Flight(Ask(user, k), 1, "", 0.0, CheckBudget))
    ensures Apply(w, At(s, to, Flight(Ask(user, k), 1, "", 0.0, CheckBudget)), BudgetCheck(to, false)) == At(s, to, f)
    ensures Apply(w, At(s, to, f), PriceCheck(to)) == At(s, to, f.(phase := AwaitReply))
  {
    SpentIsMonthSpend(s.log, user, s.month);
    AskCosts(user, k);
    f := Flight(Ask(user, k), 1, "", SpentSince(s.log, user, s.month), PriceAttempt);
  }

  lemma CallOpens(w: Setting, s: State, user: string, spent: nat, k: nat, from: nat, to: nat, n: nat)
    returns (steps: seq<Step>)
    requires Stage(s, user, s.month, spent, k, from, to) && to - from < n
    requires Micro(spent) < w.cap && Micro(k) <= w.ceiling
    ensures Calm(w, s, steps, user, n) && Stage(Exec(w, s, steps), user, s.month, spent, k, from, to + 1)
  {
    var f := GuardsPass(w, s, user, spent, k, from, to);
    var f0 := Flight(Ask(user, k), 1, "", 0.0, CheckTurns);
    var f1, f3 := f0.(phase := CheckBudget), f.(phase := AwaitReply);
    OneMoreWithin(s, user, from, to, f0);
    OneMoreWithin(s, user, from, to, f1);
    OneMoreWithin(s, user, from, to, f);
    OneMoreWithin(s, user, from, to, f3);
    FewPending(At(s, to, f3), user, from, to + 1);
    CalmMove(w, At(s, to, f), PriceCheck(to), [], user, from, to + 1, n);
    CalmMove(w, At(s, to, f1), BudgetCheck(to, false), [PriceCheck(to)] + [], user, from, to + 1, n);
    steps := [BudgetCheck(to, false)] + ([PriceCheck(to)] + []);
    CalmMove(w, At(s, to, f0), TurnCheck(to, false), steps, user, from, to + 1, n);
    steps := [TurnCheck(to, false)] + steps;
    CalmMove(w, s, Begin(to, Ask(user, k)), steps, user, from, to, n);
    steps := [Begin(to, Ask(user, k))] + steps;
    assert Exec(w, s, steps) == At(s, to, f3);
    OpenedStage(s, user, s.month, spent, k, from, to, f3);
  }

  lemma OpenedStage(s: State, user: string, month: nat, spent: nat, k: nat, from: nat, to: nat, f: Flight)
    requires Stage(s, user, month, spent, k, from, to) && f == Flight(Ask(user, k), 1, "", f.spent, AwaitReply)
    ensures Stage(At(s, to, f), user, month, spent, k, from, to + 1)
  {
    OneMoreWithin(s, user, from, to, f);
    forall c | from <= c < to + 1 ensures Waits(At(s, to, f), user, c, k) {
      if c < to { assert Waits(s, user, c, k); }
    }
  }

  // ---- One call is answered and logged ----

  lemma CallCloses(w: Setting, s: State, user: string, spent: nat, k: nat, from: nat, to: nat, n: nat)
    returns (steps: seq<Step>)
    requires Stage(s, user, s.month, spent, k, from, to) && from < to <= from + n
    ensures Calm(w, s, steps, user, n) && Stage(Exec(w, s, steps), user, s.month, spent + k, k, from + 1, to)
  {
    var reply, insert := ProviderReply(from, Answer(k)), Insert(from, false);
    var s1 := Apply(w, s, reply);
    var s2 := Apply(w, s1, insert);
    ReplyComes(w, s, user, spent, k, from, to);
    RowIsLogged(w, s, s1, user, spent, k, from, to);
    FewPending(s, user, from, to);
    FewPending(s2, user, from + 1, to);
    CalmMove(w, s1, insert, [], user, from, to, n);
    CalmStep(w, s, reply, [insert] + [], user, n);
    steps := [reply] + ([insert] + []);
  }

  lemma ReplyComes(w: Setting, s: State, user: string, spent: nat, k: nat, from: nat, to: nat)
    requires Stage(s, user, s.month, spent, k, from, to) && from < to
    ensures from in s.flights
    ensures
      var s1 := Apply(w, s, ProviderReply(from, Answer(k)));
      && HonestReply(s, ProviderReply(from, Answer(k)), user) && PendingWithin(s1, user, from, to)
      && s1 == At(s, from, s.flights[from].(phase := Phase.LogUsage(Answer(k)))).(exchanges := s1.exchanges)
  {
    AskCosts(user, k);
    assert Waits(s, user, from, k);
  }

  lemma RowIsLogged(w: Setting, s: State, s1: State, user: string, spent: nat, k: nat, from: nat, to: nat)
    requires Stage(s, user, s.month, spent, k, from, to) && from < to && from in s.flights
    requires s1 == At(s, from, s.flights[from].(phase := Phase.LogUsage(Answer(k)))).(exchanges := s1.exchanges)
    ensures Stage(Apply(w, s1, Insert(from, false)), user, s.month, spent + k, k, from + 1, to)
  {
    assert Waits(s, user, from, k);
    LoggedSpend(w, s1, user, spent, k, from);
    InsertMoves(w, s1, from, Answer(k));
    ClosedStage(s, Apply(w, s1, Insert(from, false)), user, spent, k, from, to);
  }

  lemma InsertMoves(w: Setting, s: State, call: nat, reply: Reply)
    requires call in s.flights && s.flights[call].phase == Phase.LogUsage(reply) && s.erased == {}
    ensures
      var s', f := Apply(w, s, Insert(call, false)), s.flights[call];
      && s'.flights == s.flights[call := f.(phase := Judge(reply))] && s'.erased == {} && s'.month == s.month
      && |s'.log| == |s.log| + 1 && s'.log[..|s.log|] == s.log && s'.log[|s.log|].month == s.month
  {
  }

  /** The first waiting call is past its log entry, the others still wait. */
  lemma ClosedStage(s: State, s': State, user: string, spent: nat, k: nat, from: nat, to: nat)
    requires Stage(s, user, s.month, spent, k, from, to) && from < to && s'.erased == {} && s'.month == s.month
    requires from in s.flights && s'.flights.Keys == s.flights.Keys && s'.flights[from].phase.Judge?
    requires forall c :: c in s.flights && c != from ==> s'.flights[c] == s.flights[c]
    requires |s'.log| == |s.log| + 1 && s'.log[..|s.log|] == s.log && s'.log[|s.log|].month == s.month
    requires MonthSpend(s'.log, user, s.month) == Micro(spent + k)
    ensures Stage(s', user, s.month, spent + k, k, from + 1, to)
  {
    forall c | from + 1 <= c < to ensures Waits(s', user, c, k) {
      assert Waits(s, user, c, k);
    }
    forall i | 0 <= i < |s'.log| ensures s'.log[i].month <= s.month {
      if i < |s.log| { assert s'.log[i] == s'.log[..|s.log|][i]; }
    }
  }

  lemma LoggedSpend(w: Setting, s: State, user: string, spent: nat, k: nat, call: nat)
    requires call in s.flights && s.flights[call].request == Ask(user, k)
    requires s.flights[call].phase == Phase.LogUsage(Answer(k)) && s.erased == {}
    requires MonthSpend(s.log, user, s.month) == Micro(spent)
    ensures MonthSpend(Apply(w, s, Insert(call, false)).log, user, s.month) == Micro(spent + k)
  {
    var f := s.flights[call];
    AskCosts(user, k);
    RowCostsItsReply(s, call, f, Answer(k));
    OneMoreRow(s.log, RowOf(s, call, f, Answer(k)));
  }

  // ---- A month that ends just below the bound ----

  /** One call after another, each of one micro-dollar. */
  lemma {:induction false} SpendSlowly(w: Setting, s: State, user: string, spent: nat, more: nat, k: nat, next: nat,
                                       n: nat)
    returns (steps: seq<Step>, next': nat)
    requires Stage(s, user, s.month, spent, k, next, next) && n >= 1 && Micro(1) <= w.ceiling
    requires more > 0 ==> Micro(spent + more - 1) < w.cap
    ensures Calm(w, s, steps, user, n)
    ensures Stage(Exec(w, s, steps), user, s.month, spent + more, k, next', next')
    decreases more
  {
    if more == 0 {
      FewPending(s, user, next, next);
      steps, next' := [], next;
    } else {
      MicroGrows(spent, spent + more - 1);
      AnyReserve(s, user, s.month, spent, k, 1, next);
      var opening := CallOpens(w, s, user, spent, 1, next, next, n);
      var s1 := Exec(w, s, opening);
      var closing := CallCloses(w, s1, user, spent, 1, next, next + 1, n);
      CalmAppend(w, s, opening, closing, user, n);
      var s2 := Exec(w, s1, closing);
      AnyReserve(s2, user, s.month, spent + 1, 1, k, next + 1);
      var rest;
      rest, next' := SpendSlowly(w, s2, user, spent + 1, more - 1, k, next + 1, n);
      CalmAppend(w, s, opening + closing, rest, user, n);
      steps := opening + closing + rest;
    }
  }

  /** While no call waits, nothing depends on what a waiting call asked for. */
  lemma AnyReserve(s: State, user: string, month: nat, spent: nat, k: nat, k': nat, next: nat)
    requires Stage(s, user, month, spent, k, next, next)
    ensures Stage(s, user, month, spent, k', next, next)
  {
  }

  lemma MicroGrows(a: nat, b: nat)
    requires a <= b
    ensures Micro(a) <= Micro(b)
  {
  }

  /** Many calls pass the guards before any of them is answered. */
  lemma {:induction false} OpenMany(w: Setting, s: State, user: string, spent: nat, k: nat, from: nat, to: nat,
                                    more: nat, n: nat)
    returns (steps: seq<Step>)
    requires Stage(s, user, s.month, spent, k, from, to) && to - from + more <= n
    requires Micro(spent) < w.cap && Micro(k) <= w.ceiling
    ensures Calm(w, s, steps, user, n)
    ensures Stage(Exec(w, s, steps), user, s.month, spent, k, from, to + more)
    decreases more
  {
    if more == 0 {
      FewPending(s, user, from, to);
      steps := [];
    } else {
      var first := CallOpens(w, s, user, spent, k, from, to, n);
      var rest := OpenMany(w, Exec(w, s, first), user, spent, k, from, to + 1, more - 1, n);
      CalmAppend(w, s, first, rest, user, n);
      steps := first + rest;
    }
  }

  /** Then they are answered and logged in turn. */
  lemma {:induction false} CloseMany(w: Setting, s: State, user: string, spent: nat, k: nat, from: nat, count: nat,
                                     n: nat)
    returns (steps: seq<Step>)
    requires Stage(s, user, s.month, spent, k, from, from + count) && count <= n
    ensures Calm(w, s, steps, user, n)
    ensures Stage(Exec(w, s, steps), user, s.month, spent + count * k, k, from + count, from + count)
    decreases count
  {
    if count == 0 {
      FewPending(s, user, from, from);
      steps := [];
    } else {
      var first := CallCloses(w, s, user, spent, k, from, from + count, n);
      var rest := CloseMany(w, Exec(w, s, first), user, spent + k, k, from + 1, count - 1, n);
      CalmAppend(w, s, first, rest, user, n);
      assert k + (count - 1) * k == count * k;
      steps := first + rest;
    }
  }

  /** The most whole micro-dollars below an amount, and at most an amount. */
  lemma MostBelow(x: real) returns (c: nat)
    requires x > 0.0
    ensures Micro(c) < x <= Micro(c + 1)
  {
    var y := x * MILLION;
    c := if y.Floor as real == y then y.Floor - 1 else y.Floor;
    assert c as real < y <= (c + 1) as real;
  }

  lemma MostWithin(x: real) returns (k: nat)
    requires x >= 0.0
    ensures Micro(k) <= x < Micro(k + 1)
  {
    var y := x * MILLION;
    k := y.Floor;
    assert k as real <= y < (k + 1) as real;
  }

  lemma {:induction false} TimesInMicro(n: nat, k: nat, ceiling: real)
    requires ceiling < Micro(k + 1)
    ensures Times(n, ceiling) <= Micro(n * k + n)
    ensures n >= 1 ==> Times(n, ceiling) < Micro(n * k + n)
  {
    if n > 0 {
      TimesInMicro(n - 1, k, ceiling);
      assert n * k + n == (n - 1) * k + (n - 1) + (k + 1);
      MicroAdds((n - 1) * k + (n - 1), k + 1);
    }
  }

  lemma MicroAdds(a: nat, b: nat)
    ensures Micro(a + b) == Micro(a) + Micro(b)
  {
  }

  /** The bound is tight: whatever the cap, the ceiling from one micro-dollar up, and
      the number of attempts in flight, some calm run's spending comes within n + 1
      micro-dollars of the cap plus n ceilings. */
  lemma OvershootIsReached(w: Setting, month: nat, user: string, n: nat) returns (steps: seq<Step>)
    requires w.cap > 0.0 && w.ceiling >= Micro(1) && n >= 1
    ensures Calm(w, Initial(month), steps, user, n)
    ensures MonthSpend(Exec(w, Initial(month), steps).log, user, month) > w.cap + Times(n, w.ceiling) - Micro(n + 1)
  {
    var s0 := Initial(month);
    var c := MostBelow(w.cap);
    var k := MostWithin(w.ceiling);
    assert Stage(s0, user, month, 0, k, 0, 0);
    if c > 0 { MicroGrows(c - 1, c); }
    var slow, next := SpendSlowly(w, s0, user, 0, c, k, 0, n);
    var s1 := Exec(w, s0, slow);
    var opening := OpenMany(w, s1, user, c, k, next, next, n, n);
    var s2 := Exec(w, s1, opening);
    var closing := CloseMany(w, s2, user, c, k, next, n, n);
    CalmAppend(w, s0, slow, opening, user, n);
    CalmAppend(w, s0, slow + opening, closing, user, n);
    steps := slow + opening + closing;
    JustBelow(w.cap, w.ceiling, c, k, n);
  }

  lemma JustBelow(cap: real, ceiling: real, c: nat, k: nat, n: nat)
    requires cap <= Micro(c + 1) && ceiling < Micro(k + 1) && n >= 1
    ensures Micro(c + n * k) > cap + Times(n, ceiling) - Micro(n + 1)
  {
    TimesInMicro(n, k, ceiling);
    MicroAdds(n * k, n);
    MicroAdds(c, n * k);
    MicroAdds(c, 1);
    MicroAdds(n, 1);
  }

  /** So the cap alone is not kept, even by one call at a time: whatever it is, and
      whatever the ceiling from two micro-dollars up. */
  lemma CapAloneIsOvershot(w: Setting, month: nat, user: string) returns (steps: seq<Step>)
    requires w.cap > 0.0 && w.ceiling >= Micro(2)
    ensures Calm(w, Initial(month), steps, user, 1)
    ensures MonthSpend(Exec(w, Initial(month), steps).log, user, month) > w.cap
  {
    steps := OvershootIsReached(w, month, user, 1);
    assert Times(1, w.ceiling) == w.ceiling + Times(0, w.ceiling);
  }
}
