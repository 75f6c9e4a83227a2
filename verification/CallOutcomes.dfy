/** What the result of one metered call says about the exchanges it paid for. */
module CallOutcomes {
  import opened Wrappers
  import opened Budget
  import opened Metering
  import MeteringProperties
  import PromptRender

  function ExchangesOf(exchanges: seq<Exchange>, call: nat): seq<Exchange> {
    if exchanges == [] then []
    else
      var e := exchanges[|exchanges| - 1];
      ExchangesOf(exchanges[..|exchanges| - 1], call) + if e.call == call then [e] else []
  }

  lemma OneMoreExchange(exchanges: seq<Exchange>, e: Exchange, call: nat)
    ensures ExchangesOf(exchanges + [e], call) == ExchangesOf(exchanges, call) + if e.call == call then [e] else []
  {
    var after := exchanges + [e];
    assert after[..|after| - 1] == exchanges && after[|after| - 1] == e;
  }

  function Judgement(w: Setting, call: nat, e: Exchange): Verdict {
    w.validate(call, e.reply.text)
  }

  /** The reply failed validation for a reason a retry may repair. */
  predicate Retryable(w: Setting, call: nat, e: Exchange) {
    Judgement(w, call, e).Invalid? && !e.reply.cutOff
  }

  /** The exchange was sent only after both guards had passed for it. */
  predicate Guarded(w: Setting, r: Request, e: Exchange) {
    var worst := WorstCaseAttemptCost(r.model, e.system + r.userMessage, r.maxTokens);
    e.spent < w.cap && worst.Some? && worst.value <= w.ceiling
  }

  /** What the k-th attempt's system prompt is: the template's, and from the
      second on the correction for the issues of the reply before. */
  predicate PromptedBy(w: Setting, call: nat, r: Request, sent: seq<Exchange>, system: string) {
    if sent == [] then system == r.baseSystem
    else
      var verdict := Judgement(w, call, sent[|sent| - 1]);
      verdict.Invalid? && system == r.baseSystem + PromptRender.RenderRetryCorrection(verdict.issues)
  }

  predicate AllGuarded(w: Setting, r: Request, sent: seq<Exchange>) {
    forall i :: 0 <= i < |sent| ==> Guarded(w, r, sent[i])
  }

  predicate AllPrompted(w: Setting, call: nat, r: Request, sent: seq<Exchange>) {
    forall i :: 0 <= i < |sent| ==> PromptedBy(w, call, r, sent[..i], sent[i].system)
  }

  predicate AllRetried(w: Setting, call: nat, r: Request, sent: seq<Exchange>) {
    forall i :: 0 <= i < |sent| - 1 ==> r.structured && Retryable(w, call, sent[i])
  }

  /** Every exchange was guarded and prompted as it should be; a later one exists
      only because structured output was asked for and the one before was retryable. */
  predicate History(w: Setting, call: nat, r: Request, sent: seq<Exchange>) {
    AllGuarded(w, r, sent) && AllPrompted(w, call, r, sent) && AllRetried(w, call, r, sent)
  }

  /** What each outcome means. */
  predicate OutcomeHolds(w: Setting, call: nat, r: Request, sent: seq<Exchange>, outcome: Outcome) {
    match outcome
    case Done(attempt, reply, data) =>
      && attempt >= 1 && |sent| == attempt && sent[attempt - 1].reply == reply
      && (if r.structured then data.Some? && Judgement(w, call, sent[attempt - 1]) == Valid(data.value)
          else attempt == 1 && data == None)
    case SchemaError(issues, attempts) =>
      && r.structured && attempts == 2 && |sent| == 2
      && Retryable(w, call, sent[0]) && Retryable(w, call, sent[1])
      && Judgement(w, call, sent[1]) == Invalid(issues)
    case Truncated(maxTokens, attempts) =>
      && r.structured && attempts >= 1 && |sent| == attempts && maxTokens == r.maxTokens
      && Judgement(w, call, sent[attempts - 1]).Invalid? && sent[attempts - 1].reply.cutOff
    case ConversationLimit(turns, maxTurns) =>
      sent == [] && HasTurnCap(r) && maxTurns == r.maxTurns.value && turns >= maxTurns
    case BudgetExceeded(spent, cap) => |sent| < MaxAttempts(r) && cap == w.cap && spent >= cap
    case AttemptCostExceeded(worst, ceiling) => |sent| < MaxAttempts(r) && ceiling == w.ceiling && worst > ceiling
    case UnknownModel => sent == [] && Price(r.model) == None
    case _ => |sent| < MaxAttempts(r)
  }

  /** A call that is still under way. */
  predicate Underway(w: Setting, call: nat, f: Flight, sent: seq<Exchange>) {
    && |sent| == f.attempt - 1 && PromptedBy(w, call, f.request, sent, f.system)
    && (|sent| > 0 ==> f.request.structured && Retryable(w, call, sent[|sent| - 1]))
    && (f.phase.CheckTurns? ==> f.attempt == 1)
    && (f.phase.PriceAttempt? || f.phase.AwaitReply? ==> f.spent < w.cap)
    && (f.phase.AwaitReply? ==> MeteringProperties.Affordable(w, f))
  }

  /** A call that is over: its outcome fits its exchanges; a failure after an
      exchange other than a verdict on it comes from a permitted retry. */
  predicate Over(w: Setting, call: nat, r: Request, sent: seq<Exchange>, outcome: Outcome) {
    && |sent| <= MaxAttempts(r) && OutcomeHolds(w, call, r, sent, outcome)
    && (|sent| > 0 && !outcome.Done? && !outcome.SchemaError? && !outcome.Truncated? ==>
          r.structured && Retryable(w, call, sent[|sent| - 1]))
  }

  predicate StoryOf(w: Setting, call: nat, f: Flight, sent: seq<Exchange>) {
    && 1 <= f.attempt <= MaxAttempts(f.request)
    && History(w, call, f.request, sent)
    && match f.phase
       case Ended(outcome) => Over(w, call, f.request, sent, outcome)
       case LogUsage(reply) => |sent| == f.attempt && sent[f.attempt - 1].reply == reply
       case Judge(reply) => |sent| == f.attempt && sent[f.attempt - 1].reply == reply
       case _ => Underway(w, call, f, sent)
  }

  predicate Story(w: Setting, s: State, call: nat) {
    var sent := ExchangesOf(s.exchanges, call);
    if call in s.flights then StoryOf(w, call, s.flights[call], sent) else sent == []
  }

  lemma OthersLeaveACallAlone(w: Setting, s: State, step: Step, call: nat)
    requires !IsOf(step, call)
    ensures ExchangesOf(Apply(w, s, step).exchanges, call) == ExchangesOf(s.exchanges, call)
    ensures call in Apply(w, s, step).flights <==> call in s.flights
    ensures call in s.flights ==> Apply(w, s, step).flights[call] == s.flights[call]
  {
    if step.ProviderReply? && Enabled(s, step) {
      var f := s.flights[step.call];
      var cost := ReplyCost(f.request.model, step.reply);
      OneMoreExchange(s.exchanges, Exchange(step.call, f.system, f.spent, step.reply, cost), call);
    }
  }

  lemma PromptsGrow(w: Setting, call: nat, r: Request, sent: seq<Exchange>, e: Exchange, i: nat)
    requires i <= |sent| && PromptedBy(w, call, r, sent, e.system)
    requires i < |sent| ==> PromptedBy(w, call, r, sent[..i], sent[i].system)
    ensures PromptedBy(w, call, r, (sent + [e])[..i], (sent + [e])[i].system)
  {
    assert (sent + [e])[..i] == sent[..i];
    assert sent[..|sent|] == sent;
  }

  lemma HistoryGrows(w: Setting, call: nat, r: Request, sent: seq<Exchange>, e: Exchange)
    requires History(w, call, r, sent) && Guarded(w, r, e) && PromptedBy(w, call, r, sent, e.system)
    requires sent != [] ==> r.structured && Retryable(w, call, sent[|sent| - 1])
    ensures History(w, call, r, sent + [e])
  {
    AllGuardedGrows(w, r, sent, e);
    AllPromptedGrows(w, call, r, sent, e);
    AllRetriedGrows(w, call, r, sent, e);
  }

  lemma AllGuardedGrows(w: Setting, r: Request, sent: seq<Exchange>, e: Exchange)
    requires AllGuarded(w, r, sent) && Guarded(w, r, e)
    ensures AllGuarded(w, r, sent + [e])
  {
  }

  lemma AllPromptedGrows(w: Setting, call: nat, r: Request, sent: seq<Exchange>, e: Exchange)
    requires AllPrompted(w, call, r, sent) && PromptedBy(w, call, r, sent, e.system)
    ensures AllPrompted(w, call, r, sent + [e])
  {
    forall i | 0 <= i < |sent + [e]| ensures PromptedBy(w, call, r, (sent + [e])[..i], (sent + [e])[i].system) {
      PromptsGrow(w, call, r, sent, e, i);
    }
  }

  lemma AllRetriedGrows(w: Setting, call: nat, r: Request, sent: seq<Exchange>, e: Exchange)
    requires AllRetried(w, call, r, sent)
    requires sent != [] ==> r.structured && Retryable(w, call, sent[|sent| - 1])
    ensures AllRetried(w, call, r, sent + [e])
  {
  }

  lemma StoryOfReply(w: Setting, s: State, call: nat, reply: Reply)
    requires Story(w, s, call) && Enabled(s, ProviderReply(call, reply))
    ensures Story(w, Apply(w, s, ProviderReply(call, reply)), call)
  {
    var f := s.flights[call];
    var e := Exchange(call, f.system, f.spent, reply, ReplyCost(f.request.model, reply));
    var sent := ExchangesOf(s.exchanges, call);
    OneMoreExchange(s.exchanges, e, call);
    assert Guarded(w, f.request, e) by {
      assert Underway(w, call, f, sent);
    }
    HistoryGrows(w, call, f.request, sent, e);
  }

  /** What the last reply's verdict, where it ends the call, says of the exchanges. */
  lemma VerdictHolds(w: Setting, call: nat, r: Request, sent: seq<Exchange>, outcome: Outcome)
    requires 1 <= |sent| <= MaxAttempts(r) && (|sent| > 1 ==> Retryable(w, call, sent[0]))
    requires
      var last := sent[|sent| - 1];
      var verdict := Judgement(w, call, last);
      if !r.structured then outcome == Done(|sent|, last.reply, None)
      else match verdict
        case Valid(data) => outcome == Done(|sent|, last.reply, Some(data))
        case Invalid(issues) =>
          if last.reply.cutOff then outcome == Truncated(r.maxTokens, |sent|)
          else |sent| == MaxAttempts(r) && outcome == SchemaError(issues, MaxAttempts(r))
    ensures Over(w, call, r, sent, outcome)
  {
  }

  lemma StoryOfAnswer(w: Setting, call: nat, f: Flight, sent: seq<Exchange>)
    requires StoryOf(w, call, f, sent) && f.phase.Judge?
    requires AfterVerdict(f, f.phase.reply, w.validate(call, f.phase.reply.text)).phase.Ended?
    ensures StoryOf(w, call, AfterVerdict(f, f.phase.reply, w.validate(call, f.phase.reply.text)), sent)
  {
    assert Judgement(w, call, sent[|sent| - 1]) == w.validate(call, f.phase.reply.text);
    var judged := AfterVerdict(f, f.phase.reply, w.validate(call, f.phase.reply.text));
    VerdictHolds(w, call, f.request, sent, judged.phase.outcome);
  }

  lemma StoryOfRetry(w: Setting, call: nat, f: Flight, sent: seq<Exchange>)
    requires StoryOf(w, call, f, sent) && f.phase.Judge?
    requires !AfterVerdict(f, f.phase.reply, w.validate(call, f.phase.reply.text)).phase.Ended?
    ensures StoryOf(w, call, AfterVerdict(f, f.phase.reply, w.validate(call, f.phase.reply.text)), sent)
  {
    assert sent[..|sent|] == sent;
  }

  lemma StoryOfVerdict(w: Setting, call: nat, f: Flight, sent: seq<Exchange>)
    requires StoryOf(w, call, f, sent) && f.phase.Judge?
    ensures StoryOf(w, call, AfterVerdict(f, f.phase.reply, w.validate(call, f.phase.reply.text)), sent)
  {
    if AfterVerdict(f, f.phase.reply, w.validate(call, f.phase.reply.text)).phase.Ended? {
      StoryOfAnswer(w, call, f, sent);
    } else {
      StoryOfRetry(w, call, f, sent);
    }
  }

  lemma StoryStep(w: Setting, s: State, step: Step, call: nat)
    requires Story(w, s, call)
    ensures Story(w, Apply(w, s, step), call)
  {
    if !IsOf(step, call) {
      OthersLeaveACallAlone(w, s, step, call);
    } else if Enabled(s, step) {
      if step.ProviderReply? {
        StoryOfReply(w, s, call, step.reply);
      } else if !step.Begin? {
        OwnStep(w, s, step);
        StoryOfFlight(w, s, step);
      }
    }
  }

  /** Between its replies a call's step moves only its flight. */
  lemma OwnStep(w: Setting, s: State, step: Step)
    requires !step.MonthTick? && !step.EraseAccount? && !step.Begin? && !step.ProviderReply? && Enabled(s, step)
    ensures
      var s' := Apply(w, s, step);
      && step.call in s'.flights && s'.flights[step.call] == FlightAfter(w, s, s.flights[step.call], step)
      && s'.exchanges == s.exchanges
  {
  }

  lemma StoryOfFlight(w: Setting, s: State, step: Step)
    requires !step.MonthTick? && !step.EraseAccount? && !step.Begin? && !step.ProviderReply? && Enabled(s, step)
    requires Story(w, s, step.call)
    ensures StoryOf(w, step.call, FlightAfter(w, s, s.flights[step.call], step), ExchangesOf(s.exchanges, step.call))
  {
    if step.Verify? {
      StoryOfVerdict(w, step.call, s.flights[step.call], ExchangesOf(s.exchanges, step.call));
    } else {
      StoryOfGuards(w, s, step, s.flights[step.call], ExchangesOf(s.exchanges, step.call));
    }
  }

  lemma StoryOfGuards(w: Setting, s: State, step: Step, f: Flight, sent: seq<Exchange>)
    requires !step.MonthTick? && !step.EraseAccount? && !step.Begin? && !step.ProviderReply? && !step.Verify?
    requires Enabled(s, step) && s.flights[step.call] == f && StoryOf(w, step.call, f, sent)
    ensures StoryOf(w, step.call, FlightAfter(w, s, f, step), sent)
  {
  }

  /** In every run, interleaved with any others, the result of a call and the
      exchanges paid for by it fit each other exactly. */
  lemma {:induction false} EveryOutcomeHolds(w: Setting, s: State, steps: seq<Step>, call: nat)
    requires Story(w, s, call)
    ensures Story(w, Exec(w, s, steps), call)
    decreases |steps|
  {
    if steps != [] {
      StoryStep(w, s, steps[0], call);
      EveryOutcomeHolds(w, Apply(w, s, steps[0]), steps[1..], call);
    }
  }

  // ---- Nothing fails of itself ----

  /** A step of the call that lets it end with a failure not its own. */
  predicate Causes(step: Step, call: nat, outcome: Outcome) {
    match outcome
    case ProviderError => step == ProviderFails(call)
    case DatabaseError => step == TurnCheck(call, true) || step == BudgetCheck(call, true)
    case _ => true
  }

  lemma EndsWithCause(w: Setting, s: State, step: Step, call: nat)
    requires call in s.flights ==> !s.flights[call].phase.Ended?
    requires call in Apply(w, s, step).flights && Apply(w, s, step).flights[call].phase.Ended?
    ensures Causes(step, call, Apply(w, s, step).flights[call].phase.outcome)
  {
  }

  lemma {:induction false} OverIsOver(w: Setting, s: State, steps: seq<Step>, call: nat)
    requires call in s.flights && s.flights[call].phase.Ended?
    ensures call in Exec(w, s, steps).flights && Exec(w, s, steps).flights[call] == s.flights[call]
    decreases |steps|
  {
    if steps != [] {
      OverStays(w, s, steps[0], call);
      OverIsOver(w, Apply(w, s, steps[0]), steps[1..], call);
    }
  }

  lemma OverStays(w: Setting, s: State, step: Step, call: nat)
    requires call in s.flights && s.flights[call].phase.Ended?
    ensures call in Apply(w, s, step).flights && Apply(w, s, step).flights[call] == s.flights[call]
  {
    if !IsOf(step, call) { OthersLeaveACallAlone(w, s, step, call); }
  }

  /** A call ends with a provider's failure only if the provider failed it, and with
      the database's only if one of its reads failed, in every run. */
  lemma {:induction false} FailuresHaveCauses(w: Setting, s: State, steps: seq<Step>, call: nat)
    requires call in s.flights ==> !s.flights[call].phase.Ended?
    ensures
      var e := Exec(w, s, steps);
      call in e.flights && e.flights[call].phase.Ended? ==>
        exists i :: 0 <= i < |steps| && Causes(steps[i], call, e.flights[call].phase.outcome)
    decreases |steps|
  {
    if steps != [] {
      var s' := Apply(w, s, steps[0]);
      if call in s'.flights && s'.flights[call].phase.Ended? {
        EndsWithCause(w, s, steps[0], call);
        OverIsOver(w, s', steps[1..], call);
        assert Causes(steps[0], call, Exec(w, s, steps).flights[call].phase.outcome);
      } else {
        FailuresHaveCauses(w, s', steps[1..], call);
        var e := Exec(w, s, steps);
        if call in e.flights && e.flights[call].phase.Ended? {
          var i :| 0 <= i < |steps[1..]| && Causes(steps[1..][i], call, e.flights[call].phase.outcome);
          assert Causes(steps[i + 1], call, e.flights[call].phase.outcome);
        }
      }
    }
  }

  /** An attempt is refused for its price if and only if there is none, or the
      estimated input and the allowed output, at one and five micro-dollars a token,
      come to more than the ceiling; otherwise it is sent. */
  lemma PriceDecides(w: Setting, s: State, call: nat)
    requires Enabled(s, PriceCheck(call))
    ensures call in Apply(w, s, PriceCheck(call)).flights
    ensures
      var f, phase := s.flights[call], Apply(w, s, PriceCheck(call)).flights[call].phase;
      var worst := (EstimateTokens(f.system + f.request.userMessage) + 5 * f.request.maxTokens) as real / MILLION;
      && (phase == Ended(UnknownModel) <==> Price(f.request.model) == None)
      && (phase.AwaitReply? <==> Price(f.request.model).Some? && worst <= w.ceiling)
      && (phase.AwaitReply? || phase == Ended(UnknownModel) || phase == Ended(AttemptCostExceeded(worst, w.ceiling)))
  {
    var f := s.flights[call];
    if Price(f.request.model).Some? {
      CostInMicroDollars(f.request.model, EstimateTokens(f.system + f.request.userMessage), f.request.maxTokens);
    }
  }

  /** A reply that is judged is retried if and only if structured output was asked
      for, the schema rejects the reply, it was not cut off, and no attempt but the
      first has been made; otherwise the call is over. */
  lemma RetriedIff(w: Setting, s: State, call: nat)
    requires Enabled(s, Verify(call)) && 1 <= s.flights[call].attempt <= MaxAttempts(s.flights[call].request)
    ensures call in Apply(w, s, Verify(call)).flights
    ensures
      var f, f' := s.flights[call], Apply(w, s, Verify(call)).flights[call];
      var verdict := w.validate(call, f.phase.reply.text);
      var again := f.request.structured && verdict.Invalid? && !f.phase.reply.cutOff && f.attempt == 1;
      && (!again <==> f'.phase.Ended?)
      && (again ==>
            f' == Flight(f.request, 2, f.request.baseSystem + PromptRender.RenderRetryCorrection(verdict.issues),
              f.spent, CheckBudget))
  {
  }

  /** How many steps a call has left at most. */
  function Remaining(f: Flight): nat
    requires f.attempt <= MAX_STRUCTURED_ATTEMPTS
  {
    var later := 5 * (MAX_STRUCTURED_ATTEMPTS - f.attempt);
    match f.phase
    case CheckTurns => later + 6
    case CheckBudget => later + 5
    case PriceAttempt => later + 4
    case AwaitReply => later + 3
    case LogUsage(_) => later + 2
    case Judge(_) => later + 1
    case Ended(_) => 0
  }

  /** A call ends: each of its steps leaves it strictly fewer. */
  lemma CallsTerminate(w: Setting, s: State, step: Step)
    requires MeteringProperties.Sound(w, s) && !step.MonthTick? && !step.EraseAccount? && !step.Begin?
    requires Enabled(s, step)
    ensures Remaining(Apply(w, s, step).flights[step.call]) < Remaining(s.flights[step.call])
  {
  }
}
