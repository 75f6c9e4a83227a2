/** When the turn cap of a conversation holds: exactly if its id is not empty. */
module TurnCap {
  import opened Wrappers
  import opened Budget
  import opened Metering
  import opened MeteringProperties

  /** A call that costs nothing. */
  function FreeRequest(user: string, c: string, m: nat): Request {
    Request(user, Some(c), Some(m), "claude-haiku-4-5", "", "", 0, false)
  }

  const NOTHING := Reply("", 0, 0, false)

  /** The conversation is quiet, has cost nothing and passes one cap. */
  predicate AtRest(s: State, user: string, c: string, m: nat) {
    OpenCalls(s, user, c) == {} && SameTurnCap(s, user, c, m) && SpentSince(s.log, user, s.month) == 0.0
    && user !in s.erased
  }

  /** One call of the conversation may be under way. */
  predicate OneOpen(s: State, call: nat, user: string, c: string, m: nat) {
    OpenCalls(s, user, c) <= {call} && SameTurnCap(s, user, c, m)
  }

  lemma PrependOrderly(w: Setting, s: State, step: Step, rest: seq<Step>, call: nat, user: string, c: string,
                       m: nat, k: nat)
    requires k >= 1 && OneOpen(s, call, user, c, m) && Orderly(w, Apply(w, s, step), rest, user, c, m, k)
    ensures Orderly(w, s, [step] + rest, user, c, m, k)
    ensures Exec(w, s, [step] + rest) == Exec(w, Apply(w, s, step), rest)
  {
    assert ([step] + rest)[1..] == rest;
    SubsetSize(OpenCalls(s, user, c), {call});
  }

  lemma OneFlight(s: State, s': State, call: nat, f: Flight, user: string, c: string, m: nat)
    requires AtRest(s, user, c, m) && s'.flights == s.flights[call := f] && f.request == FreeRequest(user, c, m)
    ensures OneOpen(s', call, user, c, m)
    ensures f.phase.Ended? ==> OpenCalls(s', user, c) == {}
  {
    assert OpenCalls(s', user, c) <= OpenCalls(s, user, c) + {call};
  }

  lemma FreeCosts(model: string)
    requires model == "claude-haiku-4-5"
    ensures WorstCaseAttemptCost(model, "", 0) == Some(0.0) && ReplyCost(model, NOTHING) == 0.0 && ToFixed8(0.0) == 0.0
  {
    CostInMicroDollars(model, 0, 0);
    StoredCostIsExact(model, 0, 0);
  }

  /** The call's checks let it through. */
  lemma FreeChecks(w: Setting, s: State, call: nat, user: string, m: nat) returns (s1: State, s2: State, s3: State)
    requires w.cap > 0.0 && call !in s.flights && SpentSince(s.log, user, s.month) == 0.0
    ensures
      var request := FreeRequest(user, "", m);
      && s1 == Apply(w, s, Begin(call, request)) && s2 == Apply(w, s1, TurnCheck(call, false))
      && s3 == Apply(w, s2, BudgetCheck(call, false))
      && s1 == s.(flights := s.flights[call := Flight(request, 1, "", 0.0, CheckTurns)])
      && s2 == s.(flights := s.flights[call := Flight(request, 1, "", 0.0, CheckBudget)])
      && s3 == s.(flights := s.flights[call := Flight(request, 1, "", 0.0, PriceAttempt)])
  {
    var request := FreeRequest(user, "", m);
    var f := Flight(request, 1, "", 0.0, CheckTurns);
    s1 := Apply(w, s, Begin(call, request));
    s2 := Apply(w, s1, TurnCheck(call, false));
    assert s2.flights == s.flights[call := f.(phase := CheckBudget)];
    s3 := Apply(w, s2, BudgetCheck(call, false));
    assert s3.flights == s.flights[call := f.(phase := PriceAttempt)];
  }

  /** Its reply comes, costs nothing and is logged. */
  lemma FreeReply(w: Setting, s: State, call: nat, f: Flight) returns (s1: State, s2: State, s3: State, s4: State)
    requires w.ceiling >= 0.0 && call in s.flights && s.flights[call] == f && f.request.maxTurns.Some?
    requires f.request.user !in s.erased
    requires f == Flight(FreeRequest(f.request.user, "", f.request.maxTurns.value), 1, "", 0.0, PriceAttempt)
    ensures s1 == Apply(w, s, PriceCheck(call)) && s2 == Apply(w, s1, ProviderReply(call, NOTHING))
    ensures s3 == Apply(w, s2, Insert(call, false)) && s4 == Apply(w, s3, Verify(call))
    ensures s1.flights == s.flights[call := f.(phase := AwaitReply)]
    ensures s2.flights == s.flights[call := f.(phase := LogUsage(NOTHING))]
    ensures s3.flights == s.flights[call := f.(phase := Judge(NOTHING))]
    ensures s4.flights == s.flights[call := f.(phase := Ended(Done(1, NOTHING, None)))] && s4.month == s.month
    ensures s4.erased == s.erased
    ensures s4.log == s.log + [UsageRow(call, f.request.user, s.month, Some(""), 1, f.request.model, 0, 0, 0.0)]
  {
    FreeCosts(f.request.model);
    assert Prompt(f) == "";
    s1 := Apply(w, s, PriceCheck(call));
    s2 := Apply(w, s1, ProviderReply(call, NOTHING));
    s3 := Apply(w, s2, Insert(call, false));
    s4 := Apply(w, s3, Verify(call));
  }

  /** After one free call the conversation has one turn more and is at rest again;
      a run from there is a run from here with the call in front. */
  lemma FreeCallAddsTurn(w: Setting, s: State, call: nat, user: string, m: nat, k: nat) returns (steps: seq<Step>)
    requires w.cap > 0.0 && w.ceiling >= 0.0 && k >= 1 && AtRest(s, user, "", m) && forall i ::
              0 <= i <= call ==> i !in s.flights
    ensures Orderly(w, s, steps, user, "", m, k)
    ensures Turns(Exec(w, s, steps).log, user, "") == Turns(s.log, user, "") + call + 1
    decreases call, 1
  {
    var request := FreeRequest(user, "", m);
    var s1, s2, s3 := FreeChecks(w, s, call, user, m);
    var s4, s5, s6, s7 := FreeReply(w, s3, call, Flight(request, 1, "", 0.0, PriceAttempt));
    OneFlight(s, s1, call, s1.flights[call], user, "", m);
    OneFlight(s, s2, call, s2.flights[call], user, "", m);
    OneFlight(s, s3, call, s3.flights[call], user, "", m);
    OneFlight(s, s4, call, s4.flights[call], user, "", m);
    OneFlight(s, s5, call, s5.flights[call], user, "", m);
    OneFlight(s, s6, call, s6.flights[call], user, "", m);
    OneFlight(s, s7, call, s7.flights[call], user, "", m);
    FreeRow(s, s7, call, user, request);
    steps := EmptyIdRecordsAnyNumber(w, s7, call, user, m, k);
    steps := Before(w, s6, s7, Verify(call), steps, call, user, m, k);
    steps := Before(w, s5, s6, Insert(call, false), steps, call, user, m, k);
    steps := Before(w, s4, s5, ProviderReply(call, NOTHING), steps, call, user, m, k);
    steps := Before(w, s3, s4, PriceCheck(call), steps, call, user, m, k);
    steps := Before(w, s2, s3, BudgetCheck(call, false), steps, call, user, m, k);
    steps := Before(w, s1, s2, TurnCheck(call, false), steps, call, user, m, k);
    steps := Before(w, s, s1, Begin(call, request), steps, call, user, m, k);
  }

  lemma FreeRow(s: State, s': State, call: nat, user: string, request: Request)
    requires s'.month == s.month
    requires s'.log == s.log + [UsageRow(call, user, s.month, Some(""), 1, request.model, 0, 0, 0.0)]
    ensures Turns(s'.log, user, "") == Turns(s.log, user, "") + 1
    ensures SpentSince(s'.log, user, s'.month) == SpentSince(s.log, user, s.month)
  {
    var row := UsageRow(call, user, s.month, Some(""), 1, request.model, 0, 0, 0.0);
    OneMoreRow(s.log, row);
    assert (s.log + [row])[..|s.log|] == s.log;
  }

  lemma Before(w: Setting, s: State, s': State, step: Step, rest: seq<Step>, call: nat, user: string, m: nat, k: nat)
    returns (steps: seq<Step>)
    requires k >= 1 && OneOpen(s, call, user, "", m) && s' == Apply(w, s, step) && Orderly(w, s', rest, user, "", m, k)
    ensures Orderly(w, s, steps, user, "", m, k) && Exec(w, s, steps) == Exec(w, s', rest)
  {
    PrependOrderly(w, s, step, rest, call, user, "", m, k);
    steps := [step] + rest;
  }

  /** With an empty id any number of turns is recorded, whatever the cap. */
  lemma EmptyIdRecordsAnyNumber(w: Setting, s: State, n: nat, user: string, m: nat, k: nat) returns (steps: seq<Step>)
    requires w.cap > 0.0 && w.ceiling >= 0.0 && k >= 1 && AtRest(s, user, "", m) && forall i :: 0 <= i < n ==>
              i !in s.flights
    ensures Orderly(w, s, steps, user, "", m, k)
    ensures Turns(Exec(w, s, steps).log, user, "") == Turns(s.log, user, "") + n
    decreases n, 0
  {
    if n == 0 {
      steps := [];
    } else {
      steps := FreeCallAddsTurn(w, s, n - 1, user, m, k);
    }
  }

  /** The turn cap, with its exact condition: in every run in which a conversation's
      calls pass the cap `m` and overlap at most `k` at a time, it records at most
      m + k - 1 turns, if and only if its id is not the empty string, which the
      check takes for no id. */
  lemma TurnCapHoldsIffIdIsNotEmpty(user: string, c: string, m: nat, k: nat)
    requires k >= 1
    ensures
      (forall w, start, steps ::
         Orderly(w, Initial(start), steps, user, c, m, k) ==>
             Turns(Exec(w, Initial(start), steps).log, user, c) <= m + k - 1)
      <==> c != ""
  {
    if c != "" {
      forall w, start, steps | Orderly(w, Initial(start), steps, user, c, m, k)
        ensures Turns(Exec(w, Initial(start), steps).log, user, c) <= m + k - 1
      {
        TurnsAreBounded(w, start, steps, user, c, m, k);
      }
    } else {
      var w := Setting(1.0, 1.0, (_, _) => Valid(""));
      var steps := EmptyIdRecordsAnyNumber(w, Initial(0), m + k, user, m, k);
      assert Orderly(w, Initial(0), steps, user, c, m, k);
    }
  }
}
