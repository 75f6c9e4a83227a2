/** The bound on a conversation's turns is reached: every number of turns up to it is
    some run's. */
module TightTurns {
  import opened Wrappers
  import opened Budget
  import opened Metering
  import opened MeteringProperties
  import opened TurnCap

  /** The call has passed its guards and waits for its reply. */
  predicate Waits(s: State, x: nat, user: string, c: string, m: nat) {
    && x in s.flights && s.flights[x].request == FreeRequest(user, c, m) && s.flights[x].system == ""
    && s.flights[x].attempt == 1 && s.flights[x].phase == AwaitReply
  }

  /** Open in the conversation are at most the calls from `from` up to `to`. */
  predicate OpenWithin(s: State, user: string, c: string, m: nat, from: nat, to: nat) {
    && from <= to && SameTurnCap(s, user, c, m)
    && forall x :: x in s.flights && Talks(s.flights[x].request, user, c) && !s.flights[x].phase.Ended? ==>
         from <= x < to
  }

  /** So many turns are recorded, nothing is spent, and the calls from `from` up to
      `to` wait. */
  predicate Stage(s: State, user: string, c: string, m: nat, turns: nat, from: nat, to: nat) {
    && s.erased == {} && Turns(s.log, user, c) == turns && SpentSince(s.log, user, s.month) == 0.0
    && (forall x :: x in s.flights ==> x < to)
    && (forall x :: from <= x < to ==> Waits(s, x, user, c, m))
    && OpenWithin(s, user, c, m, from, to)
  }

  lemma FewOpen(s: State, user: string, c: string, m: nat, from: nat, to: nat)
    requires OpenWithin(s, user, c, m, from, to)
    ensures |OpenCalls(s, user, c)| <= to - from
  {
    SubsetSize(OpenCalls(s, user, c), Calls(from, to - from));
  }

  lemma OrderlyStep(w: Setting, s: State, step: Step, rest: seq<Step>, user: string, c: string, m: nat, k: nat,
                    from: nat, to: nat)
    requires OpenWithin(s, user, c, m, from, to) && to - from <= k
    requires Orderly(w, Apply(w, s, step), rest, user, c, m, k)
    ensures Orderly(w, s, [step] + rest, user, c, m, k)
    ensures Exec(w, s, [step] + rest) == Exec(w, Apply(w, s, step), rest)
  {
    FewOpen(s, user, c, m, from, to);
    assert ([step] + rest)[1..] == rest;
  }

  lemma {:induction false} OrderlyAppend(w: Setting, s: State, a: seq<Step>, b: seq<Step>, user: string, c: string,
                                         m: nat, k: nat)
    requires Orderly(w, s, a, user, c, m, k) && Orderly(w, Exec(w, s, a), b, user, c, m, k)
    ensures Orderly(w, s, a + b, user, c, m, k) && Exec(w, s, a + b) == Exec(w, Exec(w, s, a), b)
    decreases |a|
  {
    if a == [] {
      assert a + b == b;
    } else {
      assert (a + b)[0] == a[0] && (a + b)[1..] == a[1..] + b;
      OrderlyAppend(w, Apply(w, s, a[0]), a[1..], b, user, c, m, k);
    }
  }

  // ---- One call opens ----

  function At(s: State, call: nat, f: Flight): State {
    s.(flights := s.flights[call := f])
  }

  lemma OneMoreWithin(s: State, user: string, c: string, m: nat, from: nat, to: nat, f: Flight)
    requires OpenWithin(s, user, c, m, from, to) && f.request == FreeRequest(user, c, m)
    ensures OpenWithin(At(s, to, f), user, c, m, from, to + 1)
  {
  }

  lemma GuardsPass(w: Setting, s: State, user: string, c: string, m: nat, turns: nat, from: nat, to: nat)
    requires Stage(s, user, c, m, turns, from, to) && turns < m && w.cap > 0.0 && w.ceiling >= 0.0
    ensures
      var f := Flight(FreeRequest(user, c, m), 1, "", 0.0, CheckTurns);
      && Apply(w, s, Begin(to, FreeRequest(user, c, m))) == At(s, to, f)
      && Apply(w, At(s, to, f), TurnCheck(to, false)) == At(s, to, f.(phase := CheckBudget))
      && Apply(w, At(s, to, f.(phase := CheckBudget)), BudgetCheck(to, false)) == At(s, to, f.(phase := PriceAttempt))
      && Apply(w, At(s, to, f.(phase := PriceAttempt)), PriceCheck(to)) == At(s, to, f.(phase := AwaitReply))
  {
    FreeCosts("claude-haiku-4-5");
    assert "" + "" == "";
  }

  lemma OpenedStage(s: State, user: string, c: string, m: nat, turns: nat, from: nat, to: nat)
    requires Stage(s, user, c, m, turns, from, to)
    ensures Stage(At(s, to, Flight(FreeRequest(user, c, m), 1, "", 0.0, AwaitReply)), user, c, m, turns, from, to + 1)
  {
    var f := Flight(FreeRequest(user, c, m), 1, "", 0.0, AwaitReply);
    OneMoreWithin(s, user, c, m, from, to, f);
    forall x | from <= x < to + 1 ensures Waits(At(s, to, f), x, user, c, m) {
      if x < to { assert Waits(s, x, user, c, m); }
    }
  }

  lemma CallOpens(w: Setting, s: State, user: string, c: string, m: nat, k: nat, turns: nat, from: nat, to: nat)
    returns (steps: seq<Step>)
    requires Stage(s, user, c, m, turns, from, to) && turns < m && to - from < k && w.cap > 0.0 && w.ceiling >= 0.0
    ensures Orderly(w, s, steps, user, c, m, k) && Stage(Exec(w, s, steps), user, c, m, turns, from, to + 1)
  {
    var f := Flight(FreeRequest(user, c, m), 1, "", 0.0, CheckTurns);
    var f1, f2, f3 := f.(phase := CheckBudget), f.(phase := PriceAttempt), f.(phase := AwaitReply);
    GuardsPass(w, s, user, c, m, turns, from, to);
    OpenedStage(s, user, c, m, turns, from, to);
    OneMoreWithin(s, user, c, m, from, to, f);
    OneMoreWithin(s, user, c, m, from, to, f1);
    OneMoreWithin(s, user, c, m, from, to, f2);
    FewOpen(At(s, to, f3), user, c, m, from, to + 1);
    OrderlyStep(w, At(s, to, f2), PriceCheck(to), [], user, c, m, k, from, to + 1);
    steps := [PriceCheck(to)] + [];
    OrderlyStep(w, At(s, to, f1), BudgetCheck(to, false), steps, user, c, m, k, from, to + 1);
    steps := [BudgetCheck(to, false)] + steps;
    OrderlyStep(w, At(s, to, f), TurnCheck(to, false), steps, user, c, m, k, from, to + 1);
    steps := [TurnCheck(to, false)] + steps;
    OrderlyStep(w, s, Begin(to, FreeRequest(user, c, m)), steps, user, c, m, k, from, to);
    steps := [Begin(to, FreeRequest(user, c, m))] + steps;
  }

  // ---- One call is answered, logged and over ----

  /** What the three steps that end a waiting call make of the state. */
  lemma ReplyLogged(w: Setting, s: State, call: nat, user: string, c: string, m: nat)
    returns (s1: State, s2: State, s3: State)
    requires Waits(s, call, user, c, m) && s.erased == {}
    ensures s1 == Apply(w, s, ProviderReply(call, NOTHING)) && s2 == Apply(w, s1, Insert(call, false))
    ensures s3 == Apply(w, s2, Verify(call))
    ensures
      var f := s.flights[call];
      && s1.flights == s.flights[call := f.(phase := LogUsage(NOTHING))]
      && s2.flights == s.flights[call := f.(phase := Judge(NOTHING))]
      && s3.flights == s.flights[call := f.(phase := Ended(Done(1, NOTHING, None)))]
    ensures s3.month == s.month && s3.erased == {}
    ensures s3.log == s.log + [UsageRow(call, user, s.month, Some(c), 1, "claude-haiku-4-5", 0, 0, 0.0)]
  {
    FreeCosts("claude-haiku-4-5");
    s1 := Apply(w, s, ProviderReply(call, NOTHING));
    s2 := Apply(w, s1, Insert(call, false));
    s3 := Apply(w, s2, Verify(call));
  }

  lemma OneMoreTurn(log: seq<UsageRow>, row: UsageRow, user: string, c: string, month: nat)
    requires IsTurn(row, user, c) && row.cost == 0.0
    ensures Turns(log + [row], user, c) == Turns(log, user, c) + 1
    ensures SpentSince(log + [row], user, month) == SpentSince(log, user, month)
  {
    assert (log + [row])[..|log|] == log;
  }

  lemma StillWithin(s: State, s': State, user: string, c: string, m: nat, from: nat, to: nat, f: Flight)
    requires Stage(s, user, c, m, Turns(s.log, user, c), from, to) && from < to
    requires s'.flights == s.flights[from := f] && f.request == FreeRequest(user, c, m)
    ensures OpenWithin(s', user, c, m, from, to)
    ensures f.phase.Ended? ==> OpenWithin(s', user, c, m, from + 1, to)
  {
    assert Waits(s, from, user, c, m);
  }

  lemma ClosedStage(s: State, s': State, user: string, c: string, m: nat, turns: nat, from: nat, to: nat, f: Flight)
    requires Stage(s, user, c, m, turns, from, to) && from < to && OpenWithin(s', user, c, m, from + 1, to)
    requires s'.flights == s.flights[from := f] && s'.erased == {} && s'.month == s.month
    requires Turns(s'.log, user, c) == turns + 1 && SpentSince(s'.log, user, s.month) == 0.0
    ensures Stage(s', user, c, m, turns + 1, from + 1, to)
  {
    assert Waits(s, from, user, c, m);
    forall x | from + 1 <= x < to ensures Waits(s', x, user, c, m) {
      assert Waits(s, x, user, c, m);
    }
  }

  lemma CallCloses(w: Setting, s: State, user: string, c: string, m: nat, k: nat, turns: nat, from: nat, to: nat)
    returns (steps: seq<Step>)
    requires Stage(s, user, c, m, turns, from, to) && from < to <= from + k
    ensures Orderly(w, s, steps, user, c, m, k) && Stage(Exec(w, s, steps), user, c, m, turns + 1, from + 1, to)
  {
    assert Waits(s, from, user, c, m);
    var f := s.flights[from];
    var s1, s2, s3 := ReplyLogged(w, s, from, user, c, m);
    StillWithin(s, s1, user, c, m, from, to, f.(phase := LogUsage(NOTHING)));
    StillWithin(s, s2, user, c, m, from, to, f.(phase := Judge(NOTHING)));
    StillWithin(s, s3, user, c, m, from, to, f.(phase := Ended(Done(1, NOTHING, None))));
    OneMoreTurn(s.log, UsageRow(from, user, s.month, Some(c), 1, "claude-haiku-4-5", 0, 0, 0.0), user, c, s.month);
    ClosedStage(s, s3, user, c, m, turns, from, to, f.(phase := Ended(Done(1, NOTHING, None))));
    FewOpen(s3, user, c, m, from + 1, to);
    OrderlyStep(w, s2, Verify(from), [], user, c, m, k, from, to);
    steps := [Verify(from)] + [];
    OrderlyStep(w, s1, Insert(from, false), steps, user, c, m, k, from, to);
    steps := [Insert(from, false)] + steps;
    OrderlyStep(w, s, ProviderReply(from, NOTHING), steps, user, c, m, k, from, to);
    steps := [ProviderReply(from, NOTHING)] + steps;
  }

  // ---- Runs ----

  /** One call after the other, each a turn. */
  lemma {:induction false} OneByOne(w: Setting, s: State, user: string, c: string, m: nat, k: nat, turns: nat,
                                    more: nat, next: nat)
    returns (steps: seq<Step>)
    requires Stage(s, user, c, m, turns, next, next) && k >= 1 && turns + more <= m
    requires w.cap > 0.0 && w.ceiling >= 0.0
    ensures Orderly(w, s, steps, user, c, m, k)
    ensures Stage(Exec(w, s, steps), user, c, m, turns + more, next + more, next + more)
    decreases more
  {
    if more == 0 {
      FewOpen(s, user, c, m, next, next);
      steps := [];
    } else {
      var opening := CallOpens(w, s, user, c, m, k, turns, next, next);
      var s1 := Exec(w, s, opening);
      var closing := CallCloses(w, s1, user, c, m, k, turns, next, next + 1);
      OrderlyAppend(w, s, opening, closing, user, c, m, k);
      var rest := OneByOne(w, Exec(w, s1, closing), user, c, m, k, turns + 1, more - 1, next + 1);
      OrderlyAppend(w, s, opening + closing, rest, user, c, m, k);
      steps := opening + closing + rest;
    }
  }

  /** Many calls pass the turn guard before any of them is logged. */
  lemma {:induction false} OpenMany(w: Setting, s: State, user: string, c: string, m: nat, k: nat, turns: nat,
                                    from: nat, to: nat, more: nat)
    returns (steps: seq<Step>)
    requires Stage(s, user, c, m, turns, from, to) && turns < m && to - from + more <= k
    requires w.cap > 0.0 && w.ceiling >= 0.0
    ensures Orderly(w, s, steps, user, c, m, k)
    ensures Stage(Exec(w, s, steps), user, c, m, turns, from, to + more)
    decreases more
  {
    if more == 0 {
      FewOpen(s, user, c, m, from, to);
      steps := [];
    } else {
      var first := CallOpens(w, s, user, c, m, k, turns, from, to);
      var rest := OpenMany(w, Exec(w, s, first), user, c, m, k, turns, from, to + 1, more - 1);
      OrderlyAppend(w, s, first, rest, user, c, m, k);
      steps := first + rest;
    }
  }

  lemma {:induction false} CloseMany(w: Setting, s: State, user: string, c: string, m: nat, k: nat, turns: nat,
                                     from: nat, count: nat)
    returns (steps: seq<Step>)
    requires Stage(s, user, c, m, turns, from, from + count) && count <= k
    ensures Orderly(w, s, steps, user, c, m, k)
    ensures Stage(Exec(w, s, steps), user, c, m, turns + count, from + count, from + count)
    decreases count
  {
    if count == 0 {
      FewOpen(s, user, c, m, from, from);
      steps := [];
    } else {
      var first := CallCloses(w, s, user, c, m, k, turns, from, from + count);
      var rest := CloseMany(w, Exec(w, s, first), user, c, m, k, turns + 1, from + 1, count - 1);
      OrderlyAppend(w, s, first, rest, user, c, m, k);
      steps := first + rest;
    }
  }

  /** The bound is exact: whatever the conversation, the cap m >= 1 and the overlap
      k >= 1, and whatever the limits on spending, some orderly run records exactly
      m + k - 1 turns. No call below its cap is refused. */
  lemma TurnsAreReached(w: Setting, start: nat, user: string, c: string, m: nat, k: nat) returns (steps: seq<Step>)
    requires m >= 1 && k >= 1 && w.cap > 0.0 && w.ceiling >= 0.0
    ensures Orderly(w, Initial(start), steps, user, c, m, k)
    ensures Turns(Exec(w, Initial(start), steps).log, user, c) == m + k - 1
  {
    var s := Initial(start);
    assert Stage(s, user, c, m, 0, 0, 0);
    var slow := OneByOne(w, s, user, c, m, k, 0, m - 1, 0);
    var s1 := Exec(w, s, slow);
    var opening := OpenMany(w, s1, user, c, m, k, m - 1, m - 1, m - 1, k);
    var s2 := Exec(w, s1, opening);
    var closing := CloseMany(w, s2, user, c, m, k, m - 1, m - 1, k);
    OrderlyAppend(w, s, slow, opening, user, c, m, k);
    OrderlyAppend(w, s, slow + opening, closing, user, c, m, k);
    steps := slow + opening + closing;
  }
}
