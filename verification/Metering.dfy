/** Every LLM call of the system as one state machine: the steps of
    `LlmService.run`, in any interleaving of any number of calls. */
module Metering {
  import opened Wrappers
  import opened Budget
  import PromptRender

  datatype Request = Request(
    user: string, conversation: Option<string>, maxTurns: Option<nat>,
    model: string, baseSystem: string, userMessage: string, maxTokens: nat, structured: bool)

  datatype Reply = Reply(text: string, inputTokens: nat, outputTokens: nat, cutOff: bool)

  /** `outputSchema.safeParse(...)` of a reply. */
  datatype Verdict = Valid(data: string) | Invalid(issues: seq<string>)

  /** The two limits read from the environment, and what each call's schema says
      of a text. */
  datatype Setting = Setting(cap: real, ceiling: real, validate: (nat, string) -> Verdict)

  datatype Outcome =
    | Done(attempt: nat, reply: Reply, data: Option<string>)
    | ConversationLimit(turns: nat, maxTurns: nat)
    | BudgetExceeded(spent: real, cap: real)
    | AttemptCostExceeded(worst: real, ceiling: real)
    | UnknownModel
    | ProviderError
    | DatabaseError
    | Truncated(maxTokens: nat, attempts: nat)
    | SchemaError(issues: seq<string>, attempts: nat)

  /** Where a call stands: the next thing it does. */
  datatype Phase =
    | CheckTurns
    | CheckBudget
    | PriceAttempt
    | AwaitReply
    | LogUsage(reply: Reply)
    | Judge(reply: Reply)
    | Ended(outcome: Outcome)

  /** `spent` is what the last budget check of the call read. */
  datatype Flight = Flight(request: Request, attempt: nat, system: string, spent: real, phase: Phase)

  /** One paid exchange with the provider. */
  datatype Exchange = Exchange(call: nat, system: string, spent: real, reply: Reply, cost: real)

  datatype State = State(
    log: seq<UsageRow>,          // committed usage rows
    lost: seq<UsageRow>,         // rows whose insert failed, reported as untracked
    gone: seq<UsageRow>,         // rows deleted with their owner's account
    erased: set<string>,
    exchanges: seq<Exchange>,
    month: nat,
    flights: map<nat, Flight>)

  /** What happens next: an action of one call, with what its surroundings
      answer, the deletion of an account, or the calendar. */
  datatype Step =
    | Begin(call: nat, request: Request)
    | TurnCheck(call: nat, readFails: bool)
    | BudgetCheck(call: nat, readFails: bool)
    | PriceCheck(call: nat)
    | ProviderReply(call: nat, reply: Reply)
    | ProviderFails(call: nat)
    | Insert(call: nat, fails: bool)
    | Verify(call: nat)
    | EraseAccount(user: string)
    | MonthTick

  /** The step is the call's own. */
  predicate IsOf(step: Step, call: nat) {
    !step.MonthTick? && !step.EraseAccount? && step.call == call
  }

  const MAX_STRUCTURED_ATTEMPTS := 2

  function MaxAttempts(r: Request): nat {
    if r.structured then MAX_STRUCTURED_ATTEMPTS else 1
  }

  /** `request.conversationId && request.maxTurns !== undefined`: an empty id is falsy. */
  predicate HasTurnCap(r: Request) {
    r.conversation.Some? && r.conversation.value != "" && r.maxTurns.Some?
  }

  function Prompt(f: Flight): string {
    f.system + f.request.userMessage
  }

  function AfterTurnCheck(s: State, f: Flight, readFails: bool): Phase {
    if !HasTurnCap(f.request) then CheckBudget
    else if readFails then Ended(DatabaseError)
    else
      var turns := Turns(s.log, f.request.user, f.request.conversation.value);
      if turns >= f.request.maxTurns.value then Ended(ConversationLimit(turns, f.request.maxTurns.value))
      else CheckBudget
  }

  function AfterBudgetCheck(w: Setting, s: State, f: Flight, readFails: bool): Phase {
    if readFails then Ended(DatabaseError)
    else
      var spent := SpentSince(s.log, f.request.user, s.month);
      if spent >= w.cap then Ended(BudgetExceeded(spent, w.cap)) else PriceAttempt
  }

  function AfterPricing(w: Setting, f: Flight): Phase {
    match WorstCaseAttemptCost(f.request.model, Prompt(f), f.request.maxTokens)
    case None => Ended(UnknownModel)
    case Some(worst) => if worst > w.ceiling then Ended(AttemptCostExceeded(worst, w.ceiling)) else AwaitReply
  }

  function AfterVerdict(f: Flight, reply: Reply, verdict: Verdict): Flight {
    if !f.request.structured then f.(phase := Ended(Done(f.attempt, reply, None)))
    else match verdict
      case Valid(data) => f.(phase := Ended(Done(f.attempt, reply, Some(data))))
      case Invalid(issues) =>
        if reply.cutOff then f.(phase := Ended(Truncated(f.request.maxTokens, f.attempt)))
        else if f.attempt >= MaxAttempts(f.request) then f.(phase := Ended(SchemaError(issues, MaxAttempts(f.request))))
        else
          f.(attempt := f.attempt + 1,
             system := f.request.baseSystem + PromptRender.RenderRetryCorrection(issues),
             phase := CheckBudget)
  }

  function ReplyCost(model: string, reply: Reply): real {
    match EstimateCost(model, reply.inputTokens, reply.outputTokens)
    case Some(cost) => cost
    case None => 0.0
  }

  function RowOf(s: State, call: nat, f: Flight, reply: Reply): UsageRow {
    UsageRow(call, f.request.user, s.month, f.request.conversation, f.attempt, f.request.model,
      reply.inputTokens, reply.outputTokens, ToFixed8(ReplyCost(f.request.model, reply)))
  }

  /** Is the step the next thing its call does? */
  predicate Enabled(s: State, step: Step) {
    match step
    case Begin(call, _) => call !in s.flights
    case TurnCheck(call, _) => call in s.flights && s.flights[call].phase == CheckTurns
    case BudgetCheck(call, _) => call in s.flights && s.flights[call].phase == CheckBudget
    case PriceCheck(call) => call in s.flights && s.flights[call].phase == PriceAttempt
    case ProviderReply(call, _) => call in s.flights && s.flights[call].phase == AwaitReply
    case ProviderFails(call) => call in s.flights && s.flights[call].phase == AwaitReply
    case Insert(call, _) => call in s.flights && s.flights[call].phase.LogUsage?
    case Verify(call) => call in s.flights && s.flights[call].phase.Judge?
    case EraseAccount(_) => true
    case MonthTick => true
  }

  function SetPhase(s: State, call: nat, phase: Phase): State
    requires call in s.flights
  {
    s.(flights := s.flights[call := s.flights[call].(phase := phase)])
  }

  /** A usage row refers to its user: without the account it cannot be inserted. */
  predicate Refused(s: State, call: nat, fails: bool)
    requires call in s.flights
  {
    fails || s.flights[call].request.user in s.erased
  }

  /** The state after the step; a step out of turn changes nothing. */
  function Apply(w: Setting, s: State, step: Step): State {
    if !Enabled(s, step) then s
    else match step
      case Begin(call, request) =>
        s.(flights := s.flights[call := Flight(request, 1, request.baseSystem, 0.0, CheckTurns)])
      case TurnCheck(call, readFails) => SetPhase(s, call, AfterTurnCheck(s, s.flights[call], readFails))
      case BudgetCheck(call, readFails) =>
        var f := s.flights[call];
        var spent := SpentSince(s.log, f.request.user, s.month);
        var checked := f.(spent := spent, phase := AfterBudgetCheck(w, s, f, readFails));
        s.(flights := s.flights[call := checked])
      case PriceCheck(call) => SetPhase(s, call, AfterPricing(w, s.flights[call]))
      case ProviderReply(call, reply) =>
        var f := s.flights[call];
        SetPhase(s, call, LogUsage(reply))
          .(exchanges := s.exchanges + [Exchange(call, f.system, f.spent, reply, ReplyCost(f.request.model, reply))])
      case ProviderFails(call) => SetPhase(s, call, Ended(ProviderError))
      case Insert(call, fails) =>
        var f := s.flights[call];
        var row := RowOf(s, call, f, f.phase.reply);
        var s' := SetPhase(s, call, Judge(f.phase.reply));
        if Refused(s, call, fails) then s'.(lost := s.lost + [row]) else s'.(log := s.log + [row])
      case Verify(call) =>
        var f := s.flights[call];
        s.(flights := s.flights[call := AfterVerdict(f, f.phase.reply, w.validate(call, f.phase.reply.text))])
      case EraseAccount(u) =>
        s.(log := Live(s.log, {u}), gone := s.gone + Dead(s.log, {u}), erased := s.erased + {u})
      case MonthTick => s.(month := s.month + 1)
  }

  /** What a step makes of the flight that takes it. */
  function FlightAfter(w: Setting, s: State, f: Flight, step: Step): Flight {
    match step
    case TurnCheck(_, readFails) => f.(phase := AfterTurnCheck(s, f, readFails))
    case BudgetCheck(_, readFails) =>
      f.(spent := SpentSince(s.log, f.request.user, s.month), phase := AfterBudgetCheck(w, s, f, readFails))
    case PriceCheck(_) => f.(phase := AfterPricing(w, f))
    case ProviderReply(_, reply) => f.(phase := LogUsage(reply))
    case ProviderFails(_) => f.(phase := Ended(ProviderError))
    case Insert(_, _) => if f.phase.LogUsage? then f.(phase := Judge(f.phase.reply)) else f
    case Verify(call) =>
      if f.phase.Judge? then AfterVerdict(f, f.phase.reply, w.validate(call, f.phase.reply.text)) else f
    case _ => f
  }

  function Exec(w: Setting, s: State, steps: seq<Step>): State
    decreases |steps|
  {
    if steps == [] then s else Exec(w, Apply(w, s, steps[0]), steps[1..])
  }

  function Initial(month: nat): State {
    State([], [], [], {}, [], month, map[])
  }
}
