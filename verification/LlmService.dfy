/** `LlmService.run` as the loop the source writes, over the shared state of the
    metering machine, with other calls acting whenever it waits, and each usage row
    written in a transaction of its own. */
module LlmService {
  import opened Wrappers
  import opened Budget
  import opened Metering
  import opened MeteringProperties
  import opened CallOutcomes
  import opened UsageLog
  import PromptRender
  import Schema
  import RowSecurity
  import UserContext
  import SingleInsert

  /** What surrounds one call: what other calls do while it waits for the k-th
      time, how the database and the provider answer its attempts, and what
      surrounds the transactions that log them. */
  datatype Environment = Environment(
    others: nat -> seq<Step>,
    turnReadFails: bool,
    budgetReadFails: nat -> bool,
    answer: nat -> Option<Reply>,
    logging: nat -> UserContext.Environment)

  /** No other transaction of the user about while a usage row is written. */
  ghost predicate Quiet(env: Environment) {
    forall i :: env.logging(i).alone
  }

  /** The steps that are not the given call's own. */
  function NotOf(call: nat, steps: seq<Step>): (r: seq<Step>)
    ensures forall i :: 0 <= i < |r| ==> !IsOf(r[i], call)
  {
    if steps == [] then []
    else (if IsOf(steps[0], call) then [] else [steps[0]]) + NotOf(call, steps[1..])
  }

  lemma {:induction false} ExecAppend(w: Setting, s: State, a: seq<Step>, b: seq<Step>)
    ensures Exec(w, s, a + b) == Exec(w, Exec(w, s, a), b)
    decreases |a|
  {
    if a == [] {
      assert a + b == b;
    } else {
      assert (a + b)[1..] == a[1..] + b;
      ExecAppend(w, Apply(w, s, a[0]), a[1..], b);
    }
  }

  lemma {:induction false} OthersOnly(w: Setting, s: State, steps: seq<Step>, call: nat)
    requires forall i :: 0 <= i < |steps| ==> !IsOf(steps[i], call)
    ensures call in Exec(w, s, steps).flights <==> call in s.flights
    ensures call in s.flights ==> Exec(w, s, steps).flights[call] == s.flights[call]
    decreases |steps|
  {
    if steps != [] {
      OthersLeaveACallAlone(w, s, steps[0], call);
      OthersOnly(w, Apply(w, s, steps[0]), steps[1..], call);
    }
  }

  /** Unless the call's user has been erased, its rows in the log are these. */
  predicate LogHolds(s: State, call: nat, rows: seq<Schema.Row>)
    requires call in s.flights
  {
    s.flights[call].request.user !in s.erased ==> RowsOfCall(s.log, call) == rows
  }

  /** What a step of the call makes of its rows, others having acted before. */
  lemma RowsAfterAct(w: Setting, s: State, theirs: seq<Step>, call: nat, step: Step, rows: seq<Schema.Row>)
    requires Sound(w, s) && call in s.flights && LogHolds(s, call, rows) && IsOf(step, call)
    requires forall i :: 0 <= i < |theirs| ==> !IsOf(theirs[i], call)
    ensures
      var seen := Exec(w, s, theirs);
      var after := Apply(w, seen, step);
      && call in seen.flights && call in after.flights && seen.flights[call] == s.flights[call]
      && (!step.Insert? ==> LogHolds(after, call, rows))
      && (step.Insert? && Enabled(seen, step) ==>
            var row := RowOf(seen, call, s.flights[call], s.flights[call].phase.reply);
            LogHolds(after, call, if step.fails then rows else rows + [DbRow(row)]))
  {
    var seen := Exec(w, s, theirs);
    OthersOnly(w, s, theirs, call);
    ErasedGrows(w, s, theirs);
    RequestsStay(w, seen, step);
    if s.flights[call].request.user !in seen.erased {
      OthersKeepRows(w, s, theirs, call);
      if Enabled(seen, step) {
        OwnStepOnRows(w, seen, step);
      }
    } else if Enabled(seen, step) {
      OwnStepOnRows(w, seen, step);
    }
  }

  /** What one pass of the loop comes to. */
  datatype AttemptResult = Finished(outcome: Outcome) | Rejected(issues: seq<string>)

  /** Where a call stands after one pass of the loop. */
  predicate Judged(f: Flight, request: Request, attempt: nat, r: AttemptResult) {
    match r
    case Finished(outcome) => f.request == request && f.phase == Ended(outcome)
    case Rejected(issues) =>
      && f.request == request
      && (attempt >= MaxAttempts(request) ==> f.phase == Ended(SchemaError(issues, MaxAttempts(request))))
      && (attempt < MaxAttempts(request) ==>
            f == Flight(request, attempt + 1, request.baseSystem + PromptRender.RenderRetryCorrection(issues),
                f.spent, CheckBudget))
  }

  /** The outcome is what the surroundings made of this attempt: a failure of the
      provider or of the database is theirs, and a reply is the provider's. */
  predicate ExplainedAt(env: Environment, w: Setting, call: nat, attempt: nat, outcome: Outcome) {
    match outcome
    case Done(a, reply, _) => a == attempt && env.answer(attempt) == Some(reply)
    case SchemaError(issues, a) =>
      a == attempt && env.answer(attempt).Some? && w.validate(call, env.answer(attempt).value.text) == Invalid(issues)
    case Truncated(_, a) => a == attempt && env.answer(attempt).Some? && env.answer(attempt).value.cutOff
    case ProviderError => env.answer(attempt) == None
    case DatabaseError => env.budgetReadFails(attempt)
    case ConversationLimit(_, _) => false
    case _ => true
  }

  /** The call ended with its turn guard or with one of its attempts. */
  predicate Explained(env: Environment, w: Setting, call: nat, request: Request, outcome: Outcome) {
    || (HasTurnCap(request) && (outcome.ConversationLimit? || (outcome.DatabaseError? && env.turnReadFails)))
    || ExplainedAt(env, w, call, 1, outcome)
    || (request.structured && ExplainedAt(env, w, call, 2, outcome))
  }

  /** The reply's row is the last of the log, or the last of those lost: it is lost
      if it was not inserted, or if the user has been erased. */
  predicate Recorded(s: State, call: nat, reply: Reply, before: seq<Schema.Row>, after: seq<Schema.Row>)
    requires call in s.flights
  {
    var row := RowOf(s, call, s.flights[call], reply);
    && (after == before || after == before + [DbRow(row)])
    && (if after == before || row.user in s.erased then s.lost != [] && s.lost[|s.lost| - 1] == row
        else s.log != [] && s.log[|s.log| - 1] == row)
  }

  /** The insert puts the call's row where it belongs; the month apart, it is the row
      that was sent to the database. */
  lemma InsertRecords(w: Setting, s: State, call: nat, reply: Reply, fails: bool, rows: seq<Schema.Row>, sent: UsageRow)
    requires Enabled(s, Insert(call, fails)) && s.flights[call].phase == Phase.LogUsage(reply)
    requires sent.(month := s.month) == RowOf(s, call, s.flights[call], reply)
    ensures DbRow(sent) == DbRow(RowOf(s, call, s.flights[call], reply))
    ensures Recorded(Apply(w, s, Insert(call, fails)), call, reply, rows, if fails then rows else rows + [DbRow(sent)])
  {
  }

  class LlmService {
    const setting: Setting
    const pool: UserContext.Pool
    var world: State

    ghost predicate Valid()
      reads this, pool
    {
      Sound(setting, world) && pool.Valid()
    }

    /** The call has left no trace yet. */
    ghost predicate Fresh(call: nat)
      reads this
    {
      call !in world.flights && ExchangesOf(world.exchanges, call) == [] && Charged(world.exchanges, call) == 0.0
    }

    constructor (setting: Setting, pool: UserContext.Pool, world: State)
      requires Sound(setting, world) && pool.Valid()
      ensures Valid() && this.setting == setting && this.pool == pool && this.world == world
    {
      this.setting := setting;
      this.pool := pool;
      this.world := world;
    }

    /** The next action of `call`, after whatever others did meanwhile; `seen` is
        the state it acts in. */
    method Act(ghost start: State, ghost before: seq<Step>, call: nat, others: seq<Step>, step: Step,
               ghost rows: seq<Schema.Row>)
      returns (ghost trace: seq<Step>, seen: State)
      requires Sound(setting, world) && world == Exec(setting, start, before)
      requires IsOf(step, call) && call in world.flights && LogHolds(world, call, rows)
      modifies this
      ensures trace == before + NotOf(call, others) + [step] && world == Exec(setting, start, trace)
      ensures Sound(setting, world) && call in seen.flights && seen.flights[call] == old(world).flights[call]
      ensures call in world.flights && world == Apply(setting, seen, step)
      ensures Enabled(seen, step) ==> world.flights[call] == FlightAfter(setting, seen, old(world).flights[call], step)
      ensures !step.Insert? ==> LogHolds(world, call, rows)
      ensures step.Insert? && Enabled(seen, step) ==>
                var row := RowOf(seen, call, seen.flights[call], seen.flights[call].phase.reply);
                LogHolds(world, call, if step.fails then rows else rows + [DbRow(row)])
    {
      var theirs := NotOf(call, others);
      RowsAfterAct(setting, world, theirs, call, step, rows);
      SoundRun(setting, world, theirs);
      seen := Exec(setting, world, theirs);
      SoundStep(setting, seen, step);
      world := Apply(setting, seen, step);
      trace := before + theirs + [step];
      ExecAppend(setting, start, before, theirs);
      ExecAppend(setting, start, before + theirs, [step]);
      assert [step][1..] == [];
    }

    /** The call's steps, taken in the order of the source's loop, are a run of
        the metering machine that ends with the returned outcome. Unless its user's
        account is erased meanwhile, every row the call has in the log is one that a
        transaction of its own committed, and stays in the database whatever other
        transactions do that are rolled back. */
    method Run(call: nat, request: Request, env: Environment)
      returns (r: Outcome, ghost trace: seq<Step>, ghost keys: seq<Schema.Key>, ghost rows: seq<Schema.Row>)
      requires Valid() && Fresh(call) && request.user != ""
      modifies this, pool
      ensures Valid() && world == Exec(setting, old(world), trace)
      ensures call in world.flights && world.flights[call].request == request && world.flights[call].phase == Ended(r)
      ensures Over(setting, call, request, ExchangesOf(world.exchanges, call), r)
      ensures History(setting, call, request, ExchangesOf(world.exchanges, call))
      ensures Explained(env, setting, call, request, r)
      ensures Charged(world.exchanges, call)
              == CallCost(world.log, call) + CallCost(world.gone, call) + CallCost(world.lost, call)
      ensures request.user !in world.erased ==> CallCost(world.gone, call) == 0.0
      ensures Live(old(world).log, world.erased) <= world.log
      ensures old(world).lost <= world.lost && old(world).exchanges <= world.exchanges
      ensures old(pool.history) <= pool.history
      ensures SingleInsert.Accounted(pool, Quiet(env), request.user, old(RowSecurity.Part(pool.state.db, request.user)),
                keys, rows)
      ensures LogHolds(world, call, rows)
    {
      NewCallHasNoRows(world, call);
      r, trace, keys, rows := Loop(call, request, env);
      EveryOutcomeHolds(setting, old(world), trace, call);
      MoneyIsConserved(setting, old(world), trace, call);
      RowsStayUntilErased(setting, old(world), trace);
      if request.user !in world.erased {
        NothingGone(world, call);
      }
    }

    method Loop(call: nat, request: Request, env: Environment)
      returns (r: Outcome, ghost trace: seq<Step>, ghost keys: seq<Schema.Key>, ghost rows: seq<Schema.Row>)
      requires Valid() && call !in world.flights && request.user != ""
      modifies this, pool
      ensures Valid() && world == Exec(setting, old(world), trace)
      ensures call in world.flights && world.flights[call].request == request && world.flights[call].phase == Ended(r)
      ensures Explained(env, setting, call, request, r)
      ensures old(pool.history) <= pool.history
      ensures SingleInsert.Accounted(pool, Quiet(env), request.user, old(RowSecurity.Part(pool.state.db, request.user)),
                keys, rows)
      ensures LogHolds(world, call, rows)
    {
      ghost var start, base := world, RowSecurity.Part(pool.state.db, request.user);
      keys, rows := [], [];
      NewCallHasNoRows(world, call);
      SoundStep(setting, world, Begin(call, request));
      world := Apply(setting, world, Begin(call, request));
      trace := [Begin(call, request)];
      assert trace[1..] == [];

      var refusal;
      refusal, trace := TurnGuard(start, trace, call, request, env, rows);
      if refusal.Some? {
        return refusal.value, trace, keys, rows;
      }

      r, trace, keys, rows := Attempts(start, trace, call, request, env, base, keys, rows);
    }

    /** One attempt after the other, until one finishes the call or none is left. */
    method Attempts(ghost start: State, ghost before: seq<Step>, call: nat, request: Request, env: Environment,
                    ghost base: Schema.Db, ghost keys: seq<Schema.Key>, ghost rows: seq<Schema.Row>)
      returns (r: Outcome, ghost trace: seq<Step>, ghost keys': seq<Schema.Key>, ghost rows': seq<Schema.Row>)
      requires Valid() && request.user != "" && world == Exec(setting, start, before) && call in world.flights
      requires world.flights[call] == Flight(request, 1, request.baseSystem, world.flights[call].spent, CheckBudget)
      requires LogHolds(world, call, rows)
      requires SingleInsert.Accounted(pool, Quiet(env), request.user, base, keys, rows)
      modifies this, pool
      ensures Valid() && world == Exec(setting, start, trace)
      ensures call in world.flights && world.flights[call].request == request && world.flights[call].phase == Ended(r)
      ensures ExplainedAt(env, setting, call, 1, r) || (request.structured && ExplainedAt(env, setting, call, 2, r))
      ensures old(pool.history) <= pool.history
      ensures SingleInsert.Accounted(pool, Quiet(env), request.user, base, keys', rows')
      ensures LogHolds(world, call, rows')
    {
      trace, keys', rows' := before, keys, rows;
      var maxAttempts := MaxAttempts(request);
      var system := request.baseSystem;
      var lastIssues: seq<string> := [];
      var attempt := 1;
      while attempt <= maxAttempts
        invariant 1 <= attempt
        invariant Valid() && world == Exec(setting, start, trace)
        invariant call in world.flights && world.flights[call].request == request
        invariant attempt <= maxAttempts ==>
                    world.flights[call] == Flight(request, attempt, system, world.flights[call].spent, CheckBudget)
        invariant attempt > maxAttempts ==> world.flights[call].phase == Ended(SchemaError(lastIssues, maxAttempts))
        invariant attempt <= maxAttempts + 1
        invariant attempt > maxAttempts ==>
                    ExplainedAt(env, setting, call, maxAttempts, SchemaError(lastIssues, maxAttempts))
        invariant old(pool.history) <= pool.history
        invariant SingleInsert.Accounted(pool, Quiet(env), request.user, base, keys', rows')
        invariant LogHolds(world, call, rows')
      {
        var verdict;
        verdict, trace, keys', rows' := Attempt(start, trace, call, request, attempt, system, env, base, keys', rows');
        match verdict {
          case Finished(outcome) =>
            return outcome, trace, keys', rows';
          case Rejected(issues) =>
            lastIssues := issues;
            system := request.baseSystem + PromptRender.RenderRetryCorrection(lastIssues);
        }
        attempt := attempt + 1;
      }
      r := SchemaError(lastIssues, maxAttempts);
    }

    /** The turn cap, where the request has one. */
    method TurnGuard(ghost start: State, ghost before: seq<Step>, call: nat, request: Request, env: Environment,
                     ghost rows: seq<Schema.Row>)
      returns (refusal: Option<Outcome>, ghost trace: seq<Step>)
      requires Sound(setting, world) && world == Exec(setting, start, before) && call in world.flights
      requires LogHolds(world, call, rows)
      requires world.flights[call] == Flight(request, 1, request.baseSystem, 0.0, CheckTurns)
      modifies this
      ensures Sound(setting, world) && world == Exec(setting, start, trace) && call in world.flights
      ensures LogHolds(world, call, rows)
      ensures world.flights[call] == Flight(request, 1, request.baseSystem, 0.0,
                if refusal == None then CheckBudget else Ended(refusal.value))
      ensures refusal.Some? ==>
                HasTurnCap(request)
                && (refusal.value.ConversationLimit? || (refusal.value.DatabaseError? && env.turnReadFails))
    {
      var seen;
      if HasTurnCap(request) {
        trace, seen := Act(start, before, call, env.others(0), TurnCheck(call, env.turnReadFails), rows);
        if env.turnReadFails {
          return Some(DatabaseError), trace;
        }
        var turns := Turns(seen.log, request.user, request.conversation.value);
        if turns >= request.maxTurns.value {
          return Some(ConversationLimit(turns, request.maxTurns.value)), trace;
        }
      } else {
        trace, seen := Act(start, before, call, [], TurnCheck(call, false), rows);
      }
      refusal := None;
    }

    /** Both guards of one attempt: the monthly budget, then the attempt's price. */
    method Guards(ghost start: State, ghost before: seq<Step>, call: nat, request: Request, attempt: nat,
                  system: string, env: Environment, ghost rows: seq<Schema.Row>)
      returns (refusal: Option<Outcome>, ghost trace: seq<Step>)
      requires Sound(setting, world) && world == Exec(setting, start, before) && call in world.flights
      requires LogHolds(world, call, rows)
      requires world.flights[call] == Flight(request, attempt, system, world.flights[call].spent, CheckBudget)
      modifies this
      ensures Sound(setting, world) && world == Exec(setting, start, trace) && call in world.flights
      ensures LogHolds(world, call, rows)
      ensures var f := world.flights[call];
        if refusal.Some? then f.request == request && f.phase == Ended(refusal.value)
        else f == Flight(request, attempt, system, f.spent, AwaitReply)
      ensures refusal.Some? ==> ExplainedAt(env, setting, call, attempt, refusal.value)
      ensures env.budgetReadFails(attempt) ==> refusal == Some(DatabaseError)
      ensures refusal == None ==> world.flights[call].spent < setting.cap && Affordable(setting, world.flights[call])
      ensures refusal.Some? && refusal.value.BudgetExceeded? ==> refusal.value.spent >= refusal.value.cap == setting.cap
      ensures refusal.Some? && refusal.value.AttemptCostExceeded? ==>
                refusal.value.worst > refusal.value.ceiling == setting.ceiling
    {
      var seen;
      var check := BudgetCheck(call, env.budgetReadFails(attempt));
      trace, seen := Act(start, before, call, env.others(4 * attempt), check, rows);
      if env.budgetReadFails(attempt) {
        return Some(DatabaseError), trace;
      }
      var spent := SpentSince(seen.log, request.user, seen.month);
      if spent >= setting.cap {
        return Some(BudgetExceeded(spent, setting.cap)), trace;
      }

      var worst := WorstCaseAttemptCost(request.model, system + request.userMessage, request.maxTokens);
      trace, seen := Act(start, trace, call, [], PriceCheck(call), rows);
      if worst == None {
        return Some(UnknownModel), trace;
      }
      if worst.value > setting.ceiling {
        return Some(AttemptCostExceeded(worst.value, setting.ceiling)), trace;
      }
      refusal := None;
    }

    /** logUsage: one transaction of the user's own for the row. */
    method LogUsage(row: UsageRow, env: UserContext.Environment, ghost alone: bool, ghost base: Schema.Db,
                    ghost keys: seq<Schema.Key>, ghost rows: seq<Schema.Row>)
      returns (logged: bool, ghost keys': seq<Schema.Key>, ghost rows': seq<Schema.Row>)
      requires pool.Valid() && row.user != "" && (alone ==> env.alone)
      requires SingleInsert.Accounted(pool, alone, row.user, base, keys, rows)
      modifies pool
      ensures pool.Valid() && old(pool.history) <= pool.history
      ensures SingleInsert.Accounted(pool, alone, row.user, base, keys', rows')
      ensures rows' == if logged then rows + [DbRow(row)] else rows
      ensures !logged ==>
                SingleInsert.Troubled(env, old(RowSecurity.Part(pool.state.db, row.user)), DbRow(row),
                  Schema.Key(Schema.LlmUsageLogs, env.newId(0)), pool.state.born.Keys)
    {
      DbRowFits(row);
      logged, keys', rows' := SingleInsert.InsertAccounted(pool, row.user, Schema.LlmUsageLogs, DbRow(row), {}, env,
        alone, base, keys, rows);
    }

    /** The provider's answer, and the usage row of a reply: it is logged, or the
        failure to log it is reported and the row counts as lost. */
    method PaidExchange(ghost start: State, ghost before: seq<Step>, call: nat, request: Request, attempt: nat,
                        system: string, env: Environment,
                        ghost base: Schema.Db, ghost keys: seq<Schema.Key>, ghost rows: seq<Schema.Row>)
      returns (answer: Option<Reply>, ghost trace: seq<Step>, ghost keys': seq<Schema.Key>,
          ghost rows': seq<Schema.Row>)
      requires Valid() && request.user != "" && world == Exec(setting, start, before) && call in world.flights
      requires world.flights[call] == Flight(request, attempt, system, world.flights[call].spent, AwaitReply)
      requires LogHolds(world, call, rows) && SingleInsert.Accounted(pool, Quiet(env), request.user, base, keys, rows)
      modifies this, pool
      ensures Valid() && world == Exec(setting, start, trace) && call in world.flights
      ensures var f := world.flights[call];
        f == Flight(request, attempt, system, f.spent,
            if answer == None then Ended(ProviderError) else Judge(answer.value))
      ensures old(pool.history) <= pool.history
      ensures SingleInsert.Accounted(pool, Quiet(env), request.user, base, keys', rows')
      ensures LogHolds(world, call, rows')
      ensures answer == env.answer(attempt)
      ensures if answer == None then rows' == rows else Recorded(world, call, answer.value, rows, rows')
    {
      var seen;
      keys', rows' := keys, rows;
      answer := env.answer(attempt);
      if answer == None {
        trace, seen := Act(start, before, call, env.others(4 * attempt + 1), ProviderFails(call), rows);
      } else {
        trace, seen := Act(start, before, call, env.others(4 * attempt + 1), ProviderReply(call, answer.value), rows);
        trace, keys', rows' := LogReply(start, trace, call, answer.value, attempt, env, base, keys, rows);
      }
    }

    /** One row for the reply: into the log, or among the lost. */
    method LogReply(ghost start: State, ghost before: seq<Step>, call: nat, reply: Reply, attempt: nat,
                    env: Environment,
                    ghost base: Schema.Db, ghost keys: seq<Schema.Key>, ghost rows: seq<Schema.Row>)
      returns (ghost trace: seq<Step>, ghost keys': seq<Schema.Key>, ghost rows': seq<Schema.Row>)
      requires Valid() && world == Exec(setting, start, before) && call in world.flights
      requires world.flights[call].phase == Phase.LogUsage(reply) && world.flights[call].request.user != ""
      requires LogHolds(world, call, rows)
      requires SingleInsert.Accounted(pool, Quiet(env), world.flights[call].request.user, base, keys, rows)
      modifies this, pool
      ensures Valid() && world == Exec(setting, start, trace) && call in world.flights
      ensures world.flights[call] == old(world).flights[call].(phase := Judge(reply))
      ensures old(pool.history) <= pool.history
      ensures SingleInsert.Accounted(pool, Quiet(env), world.flights[call].request.user, base, keys', rows')
      ensures LogHolds(world, call, rows')
      ensures Recorded(world, call, reply, rows, rows')
      ensures
        var row := DbRow(RowOf(old(world), call, old(world).flights[call], reply));
        rows' == rows ==>
          SingleInsert.Troubled(env.logging(attempt), old(RowSecurity.Part(pool.state.db, row.owner)), row,
            Schema.Key(Schema.LlmUsageLogs, env.logging(attempt).newId(0)), pool.state.born.Keys)
    {
      var row := RowOf(world, call, world.flights[call], reply);
      var logged, seen;
      logged, keys', rows' := LogUsage(row, env.logging(attempt), Quiet(env), base, keys, rows);
      trace, seen := Act(start, before, call, env.others(4 * attempt + 2), Insert(call, !logged), rows);
      InsertRecords(setting, seen, call, reply, !logged, rows, row);
    }

    /** The schema's verdict on a reply, where one was asked for. */
    method JudgeReply(ghost start: State, ghost before: seq<Step>, call: nat, request: Request, attempt: nat,
                      system: string, reply: Reply, ghost rows: seq<Schema.Row>)
      returns (r: AttemptResult, ghost trace: seq<Step>)
      requires Sound(setting, world) && world == Exec(setting, start, before) && call in world.flights
      requires LogHolds(world, call, rows)
      requires world.flights[call] == Flight(request, attempt, system, world.flights[call].spent, Judge(reply))
      requires 1 <= attempt <= MaxAttempts(request)
      modifies this
      ensures Sound(setting, world) && world == Exec(setting, start, trace) && call in world.flights
      ensures LogHolds(world, call, rows)
      ensures Judged(world.flights[call], request, attempt, r)
      ensures match r
              case Finished(outcome) =>
                || (outcome.Done? && outcome.attempt == attempt && outcome.reply == reply)
                || (outcome == Truncated(request.maxTokens, attempt) && reply.cutOff)
              case Rejected(issues) => setting.validate(call, reply.text) == Invalid(issues)
    {
      var seen;
      var verdict := setting.validate(call, reply.text);
      trace, seen := Act(start, before, call, [], Verify(call), rows);
      if !request.structured {
        return Finished(Done(attempt, reply, None)), trace;
      }
      match verdict {
        case Valid(data) =>
          r := Finished(Done(attempt, reply, Some(data)));
        case Invalid(issues) =>
          if reply.cutOff {
            r := Finished(Truncated(request.maxTokens, attempt));
          } else {
            r := Rejected(issues);
          }
      }
    }

    /** The body of the loop: both guards, the provider, the usage row, the schema. */
    method Attempt(ghost start: State, ghost before: seq<Step>, call: nat, request: Request, attempt: nat,
                   system: string,
                   env: Environment, ghost base: Schema.Db, ghost keys: seq<Schema.Key>, ghost rows: seq<Schema.Row>)
      returns (r: AttemptResult, ghost trace: seq<Step>, ghost keys': seq<Schema.Key>, ghost rows': seq<Schema.Row>)
      requires Valid() && request.user != "" && world == Exec(setting, start, before) && call in world.flights
      requires world.flights[call] == Flight(request, attempt, system, world.flights[call].spent, CheckBudget)
      requires 1 <= attempt <= MaxAttempts(request)
      requires LogHolds(world, call, rows) && SingleInsert.Accounted(pool, Quiet(env), request.user, base, keys, rows)
      modifies this, pool
      ensures Valid() && world == Exec(setting, start, trace)
      ensures call in world.flights && world.flights[call].request == request
      ensures Judged(world.flights[call], request, attempt, r)
      ensures match r
              case Finished(outcome) => ExplainedAt(env, setting, call, attempt, outcome)
              case Rejected(issues) => ExplainedAt(env, setting, call, attempt, SchemaError(issues, attempt))
      ensures old(pool.history) <= pool.history
      ensures SingleInsert.Accounted(pool, Quiet(env), request.user, base, keys', rows')
      ensures LogHolds(world, call, rows')
    {
      var refusal;
      keys', rows' := keys, rows;
      refusal, trace := Guards(start, before, call, request, attempt, system, env, rows);
      if refusal.Some? {
        return Finished(refusal.value), trace, keys', rows';
      }

      var answer;
      answer, trace, keys', rows' := PaidExchange(start, trace, call, request, attempt, system, env, base, keys, rows);
      if answer == None {
        return Finished(ProviderError), trace, keys', rows';
      }
      r, trace := JudgeReply(start, trace, call, request, attempt, system, answer.value, rows');
    }
  }
}
