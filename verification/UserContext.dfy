/** `withUserContext`: one transaction on a pooled connection, with the user's id
    set for it, whatever other connections do meanwhile. */
module UserContext {
  import opened Wrappers
  import opened Schema
  import opened RowSecurity
  import opened Tenancy
  import opened Transactions

  /** What the callback does next, given what its statements returned so far. The
      database, not the callback, picks the id of a new row. */
  datatype Action<T> = Ask(stmt: string -> Statement) | Return(value: T) | Throw(error: string)

  type Callback<T> = seq<Option<Db>> -> Action<T>

  datatype Error = NoConnection | DatabaseFailed | CallbackFailed(error: string)

  /** What surrounds the call: the steps of other connections each time it waits,
      and what fails. If `alone`, none of those steps is the same user's. */
  datatype Environment = Environment(
    alone: bool,
    others: nat -> seq<Step>,
    atEnd: seq<Step>,
    connectFails: bool,
    beginFails: bool,
    setFails: bool,
    statementFails: nat -> bool,
    newId: nat -> string,
    commitFails: bool)

  /** Nothing fails in the database. */
  ghost predicate Faultless(env: Environment) {
    && !env.connectFails && !env.beginFails && !env.setFails && !env.commitFails && forall i :: !env.statementFails(i)
  }

  /** The callback settles after at most `limit` statements. */
  ghost predicate Settles<T(!new)>(callback: Callback<T>, limit: nat) {
    forall answers :: |answers| >= limit ==> !callback(answers).Ask?
  }

  ghost predicate Careful<T(!new)>(callback: Callback<T>, u: string, known: set<Key>) {
    forall answers, id :: callback(answers).Ask? ==> Placed(callback(answers).stmt(id), u, answers, known)
  }

  /** Nothing fails of itself, and no statement is one the database may refuse. */
  predicate Untroubled(env: Environment, stmts: seq<Statement>) {
    forall i :: 0 <= i < |stmts| ==> !env.statementFails(i) && !stmts[i].Insert?
  }

  lemma OneMoreUntroubled(env: Environment, stmts: seq<Statement>, stmt: Statement)
    ensures Untroubled(env, stmts + [stmt]) <==> Untroubled(env, stmts) && !env.statementFails(|stmts|) && !stmt.Insert?
  {
    var more := stmts + [stmt];
    assert more[|stmts|] == stmt && forall i :: 0 <= i < |stmts| ==> more[i] == stmts[i];
  }

  /** The statements are what the callback asked for, one for each answer. */
  ghost predicate Asked<T(!new)>(callback: Callback<T>, env: Environment, answers: seq<Option<Db>>,
      stmts: seq<Statement>) {
    && |stmts| == |answers|
    && forall i :: 0 <= i < |stmts| ==>
        callback(answers[..i]).Ask? && stmts[i] == callback(answers[..i]).stmt(env.newId(i))
  }

  lemma AskedOneMore<T(!new)>(callback: Callback<T>, env: Environment, answers: seq<Option<Db>>,
      stmts: seq<Statement>, answer: Option<Db>)
    requires Asked(callback, env, answers, stmts) && callback(answers).Ask?
    ensures Asked(callback, env, answers + [answer], stmts + [callback(answers).stmt(env.newId(|answers|))])
  {
    var answers' := answers + [answer];
    assert answers'[..|answers|] == answers;
    forall i | 0 <= i < |answers| ensures answers'[..i] == answers[..i] {
    }
  }

  /** What one more answered statement adds. */
  lemma OneMoreAnswer(env: Environment, part: Db, u: string, stmts: seq<Statement>, answers: seq<Option<Db>>,
                      before: Overlay, after: Overlay, stmt: Statement, answer: Option<Db>)
    requires |stmts| == |answers|
    ensures Untroubled(env, stmts + [stmt]) <==> Untroubled(env, stmts) && !env.statementFails(|stmts|) && !stmt.Insert?
    ensures
      before == Written(part, u, stmts) && AnsweredOn(part, u, stmts, answers)
      && answer.Some? && EffectOn(part, u, before, after, stmt, answer) ==>
        after == Written(part, u, stmts + [stmt]) && AnsweredOn(part, u, stmts + [stmt], answers + [answer])
    ensures OnlyInserts(stmts + [stmt]) ==> OnlyInserts(stmts) && stmt.Insert?
    ensures
      stmt.Insert? && Landed(before, stmts) && stmt.key !in before && after == before[stmt.key := Some(stmt.row)] ==>
        Landed(after, stmts + [stmt])
  {
    OneMoreUntroubled(env, stmts, stmt);
    WrittenOneMore(part, u, stmts, stmt);
    if before == Written(part, u, stmts) && AnsweredOn(part, u, stmts, answers) && answer.Some?
       && EffectOn(part, u, before, after, stmt, answer) {
      AnsweredOneMore(part, u, stmts, answers, stmt, answer.value);
    }
    var more := stmts + [stmt];
    assert more[|stmts|] == stmt && forall i :: 0 <= i < |stmts| ==> more[i] == stmts[i];
  }

  /** The i-th statement failed of itself, or is an insert whose id was used before or
      whose row does not fit the user's rows, the earlier statements done. */
  predicate Refusable(env: Environment, part: Db, u: string, stmts: seq<Statement>, born: set<Key>, i: nat)
    requires i < |stmts|
  {
    || env.statementFails(i)
    || (stmts[i].Insert?
        && (stmts[i].key in born || !RowFits(Merge(part, Written(part, u, stmts[..i])), u, stmts[i].row)))
  }

  /** If a statement was answered with a failure, there is one with a reason. */
  predicate Explained(env: Environment, part: Db, u: string, stmts: seq<Statement>, answers: seq<Option<Db>>,
                      born: set<Key>)
    requires |stmts| == |answers|
  {
    None in answers ==> exists i :: 0 <= i < |stmts| && answers[i] == None && Refusable(env, part, u, stmts, born, i)
  }

  lemma ExplainedOneMore(env: Environment, part: Db, u: string, stmts: seq<Statement>, answers: seq<Option<Db>>,
                         born: set<Key>, stmt: Statement, answer: Option<Db>, born': set<Key>)
    requires |stmts| == |answers| && Explained(env, part, u, stmts, answers, born) && born <= born'
    requires answer == None && None !in answers ==>
               || env.statementFails(|stmts|)
               || (stmt.Insert? && (stmt.key in born' || !RowFits(Merge(part, Written(part, u, stmts)), u, stmt.row)))
    ensures Explained(env, part, u, stmts + [stmt], answers + [answer], born')
  {
    var stmts', answers' := stmts + [stmt], answers + [answer];
    if None in answers {
      var i :| 0 <= i < |stmts| && answers[i] == None && Refusable(env, part, u, stmts, born, i);
      assert stmts'[..i] == stmts[..i];
      assert answers'[i] == None && Refusable(env, part, u, stmts', born', i);
    } else if answer == None {
      assert stmts'[..|stmts|] == stmts;
      assert answers'[|stmts|] == None && Refusable(env, part, u, stmts', born', |stmts|);
    }
  }

  lemma ExplainedLater(env: Environment, part: Db, u: string, stmts: seq<Statement>, answers: seq<Option<Db>>,
                       born: set<Key>, born': set<Key>)
    requires |stmts| == |answers| && Explained(env, part, u, stmts, answers, born) && born <= born'
    ensures Explained(env, part, u, stmts, answers, born')
  {
    if None in answers {
      var i :| 0 <= i < |stmts| && answers[i] == None && Refusable(env, part, u, stmts, born, i);
      assert Refusable(env, part, u, stmts, born', i);
    }
  }

  /** What a transaction did: its connection, the steps from its beginning to its
      end with those of others among them, and its statements and their answers. */
  datatype Transcript = Transcript(conn: nat, trace: seq<Step>, answers: seq<Option<Db>>, stmts: seq<Statement>)

  class Pool {
    var state: State
    ghost const origin: State
    ghost var history: seq<Step>

    /** The state is where the steps so far have led. */
    ghost predicate Valid()
      reads this
    {
      Inv(origin) && Inv(state) && Runs(origin, history) && state == Exec(origin, history)
    }

    constructor (state: State)
      requires Inv(state)
      ensures Valid() && this.state == state
    {
      this.state := state;
      this.origin := state;
      this.history := [];
    }

    /** Other connections act while this one is checked out. */
    method Wait(ghost start: State, ghost before: seq<Step>, c: nat, u: string, alone: bool, others: seq<Step>)
      returns (ghost trace: seq<Step>)
      requires Inv(state) && Runs(start, before) && state == Exec(start, before) && CommitsOnly(before, c, false)
      modifies this`state
      ensures Inv(state) && Runs(start, trace) && state == Exec(start, trace) && CommitsOnly(trace, c, false)
      ensures ConnOf(state, c) == old(ConnOf(state, c)) && ShownTo(old(state), u) <= ShownTo(state, u)
      ensures alone ==> Part(state.db, u) == Part(old(state).db, u)
      ensures alone && OpenOnlyOn(old(state), u, c) ==> OpenOnlyOn(state, u, c)
      ensures old(state).born.Keys <= state.born.Keys
    {
      var theirs := Elsewhere(state, c, u, alone, others);
      if alone {
        OthersLeavePart(state, theirs, u);
        if OpenOnlyOn(state, u, c) {
          OthersOpenNothing(state, theirs, u, c);
        }
      }
      ElsewhereLeaves(state, c, theirs, u);
      BornGrows(state, theirs);
      RunsAppend(start, before, theirs);
      RunInv(state, theirs);
      state := Exec(state, theirs);
      trace := before + theirs;
    }

    /** Other connections act, then this one takes a step. */
    method Act(ghost start: State, ghost before: seq<Step>, c: nat, u: string, alone: bool, others: seq<Step>,
               step: Step)
      returns (ghost trace: seq<Step>)
      requires Inv(state) && Runs(start, before) && state == Exec(start, before) && CommitsOnly(before, c, false)
      requires !step.Run? && !step.CreateAccount? && IsOn(step, c) && Enabled(state, step)
      modifies this`state
      ensures Inv(state) && Runs(start, trace) && state == Exec(start, trace)
      ensures CommitsOnly(trace, c, step == Commit(c))
      ensures ConnOf(state, c) == ConnAfter(old(ConnOf(state, c)), step)
      ensures ShownTo(old(state), u) <= ShownTo(state, u)
      ensures alone && (step.Commit? ==> old(ConnOf(state, c)).Open? && old(ConnOf(state, c)).user == u) ==>
                Part(state.db, u) == PartAfter(old(Part(state.db, u)), old(ConnOf(state, c)), step)
      ensures alone && OpenOnlyOn(old(state), u, c) ==> OpenOnlyOn(state, u, c)
      ensures step.Commit? ==> trace != [] && trace[|trace| - 1] == step
      ensures step.Commit? && old(ConnOf(state, c)).Open? && !old(ConnOf(state, c)).failed ==>
                forall stmts :: Landed(old(ConnOf(state, c)).overlay, stmts) ==> LandedIn(state.db, stmts)
      ensures old(state).born.Keys <= state.born.Keys
    {
      trace := Wait(start, before, c, u, alone, others);
      RunsAppend(start, trace, [step]);
      StepKeepsInv(state, step);
      StepOnConn(state, step, c, u);
      if step.Commit? ==> ConnOf(state, c).user == u {
        PartAfterStep(state, step, c, u);
      }
      forall stmts | step.Commit? && !ConnOf(state, c).failed && Landed(ConnOf(state, c).overlay, stmts)
        ensures LandedIn(Apply(state, step).db, stmts)
      {
        MergeLands(state.db, ConnOf(state, c).overlay, stmts);
      }
      state := Apply(state, step);
      trace := trace + [step];
    }

    /** One statement of the callback: it may fail for a reason of its own. */
    method Issue(ghost start: State, ghost before: seq<Step>, c: nat, u: string, alone: bool, others: seq<Step>,
                 stmt: Statement, fails: bool, ghost answers: seq<Option<Db>>, ghost known: set<Key>)
      returns (answer: Option<Db>, ghost trace: seq<Step>)
      requires Inv(state) && Runs(start, before) && state == Exec(start, before) && CommitsOnly(before, c, false)
      requires InTransaction(state, c, u) && Includes(answers, ShownTo(state, u))
      requires Placed(stmt, u, answers, known) && SeenAll(state, u, known)
      modifies this`state
      ensures Inv(state) && Runs(start, trace) && state == Exec(start, trace) && CommitsOnly(trace, c, false)
      ensures InTransaction(state, c, u) && SeenAll(state, u, known)
      ensures ConnOf(state, c).failed == (old(ConnOf(state, c)).failed || answer == None)
      ensures old(ConnOf(state, c)).failed ==> answer == None
      ensures answer == None && !old(ConnOf(state, c)).failed ==> fails || stmt.Insert?
      ensures old(state).born.Keys <= state.born.Keys
      ensures alone && answer == None && !old(ConnOf(state, c)).failed && !fails ==>
                var rows := Merge(old(Part(state.db, u)), old(ConnOf(state, c)).overlay);
                stmt.key in state.born || !RowFits(rows, u, stmt.row)
      ensures Includes(answers + [answer], ShownTo(state, u))
      ensures alone ==> Part(state.db, u) == old(Part(state.db, u))
      ensures alone ==> EffectOn(old(Part(state.db, u)), u, old(ConnOf(state, c)).overlay, ConnOf(state, c).overlay,
                stmt, answer)
      ensures stmt.Insert? && answer.Some? ==>
                stmt.key !in old(ConnOf(state, c)).overlay
                && ConnOf(state, c).overlay == old(ConnOf(state, c)).overlay[stmt.key := Some(stmt.row)]
      ensures alone && OpenOnlyOn(old(state), u, c) ==> OpenOnlyOn(state, u, c)
    {
      trace := Wait(start, before, c, u, alone, others);
      SeenLasts(old(state), state, u, known);
      answer, trace := Take(start, trace, c, u, stmt, fails, answers, known);
    }

    /** The statement itself. */
    method Take(ghost start: State, ghost before: seq<Step>, c: nat, u: string,
                stmt: Statement, fails: bool, ghost answers: seq<Option<Db>>, ghost known: set<Key>)
      returns (answer: Option<Db>, ghost trace: seq<Step>)
      requires Inv(state) && Runs(start, before) && state == Exec(start, before) && CommitsOnly(before, c, false)
      requires InTransaction(state, c, u) && Includes(answers, ShownTo(state, u))
      requires Placed(stmt, u, answers, known) && SeenAll(state, u, known)
      modifies this`state
      ensures Inv(state) && Runs(start, trace) && state == Exec(start, trace) && CommitsOnly(trace, c, false)
      ensures InTransaction(state, c, u) && SeenAll(state, u, known) && state.db == old(state).db
      ensures ConnOf(state, c).failed == (old(ConnOf(state, c)).failed || answer == None)
      ensures old(ConnOf(state, c)).failed ==> answer == None
      ensures answer == None && !old(ConnOf(state, c)).failed ==> fails || stmt.Insert?
      ensures old(state).born.Keys <= state.born.Keys
      ensures answer == None && !old(ConnOf(state, c)).failed && !fails ==>
                var rows := Merge(old(Part(state.db, u)), old(ConnOf(state, c)).overlay);
                stmt.key in state.born || !RowFits(rows, u, stmt.row)
      ensures Includes(answers + [answer], ShownTo(state, u))
      ensures EffectOn(old(Part(state.db, u)), u, old(ConnOf(state, c)).overlay, ConnOf(state, c).overlay, stmt, answer)
      ensures stmt.Insert? && answer.Some? ==>
                stmt.key !in old(ConnOf(state, c)).overlay
                && ConnOf(state, c).overlay == old(ConnOf(state, c)).overlay[stmt.key := Some(stmt.row)]
      ensures OpenOnlyOn(old(state), u, c) ==> OpenOnlyOn(state, u, c)
    {
      var step, e := StepFor(state, c, stmt, fails), EffectFor(state, c, stmt, fails);
      StatementKeeps(state, c, u, stmt, fails, answers, known);
      StepForIs(state, c, stmt, fails);
      EffectOnConn(state, c, stmt, e);
      if e.Some? {
        StatementTakes(state, c, u, stmt, e.value);
        if stmt.Insert? { InsertTakes(state, c, stmt, e.value); }
      } else if !ConnOf(state, c).failed {
        StatementFails(state, c, stmt, fails);
        if stmt.Insert? { InsertIsRefused(state, c, u, stmt, fails); }
      }
      if OpenOnlyOn(state, u, c) {
        StatementOpensNothing(state, c, u, stmt, fails);
      }
      OneStepMore(start, before, step, c);
      BornAfter(state, step);
      answer := AnswerOf(e);
      state := Apply(state, step);
      trace := before + [step];
    }

    /** Runs the callback's statements until it returns or throws. */
    method RunCallback<T(!new)>(ghost start: State, ghost before: seq<Step>, c: nat, u: string, callback: Callback<T>,
                                ghost limit: nat, ghost known: set<Key>, env: Environment)
      returns (r: Action<T>, ghost trace: seq<Step>, ghost answers: seq<Option<Db>>, ghost stmts: seq<Statement>)
      requires Inv(state) && Runs(start, before) && state == Exec(start, before) && CommitsOnly(before, c, false)
      requires Careful(callback, u, known) && Settles(callback, limit) && SeenAll(state, u, known)
      requires ConnOf(state, c) == Open(u, Some(u), map[], false)
      modifies this`state
      ensures Inv(state) && Runs(start, trace) && state == Exec(start, trace) && CommitsOnly(trace, c, false)
      ensures r == callback(answers) && !r.Ask? && Includes(answers, ShownTo(state, u))
      ensures InTransaction(state, c, u) && ConnOf(state, c).failed == (None in answers)
      ensures Asked(callback, env, answers, stmts)
      ensures Untroubled(env, stmts) ==> None !in answers
      ensures env.alone ==> Explained(env, old(Part(state.db, u)), u, stmts, answers, state.born.Keys)
      ensures env.alone ==> Part(state.db, u) == old(Part(state.db, u))
      ensures env.alone && None !in answers ==>
                && ConnOf(state, c).overlay == Written(old(Part(state.db, u)), u, stmts)
                && AnsweredOn(old(Part(state.db, u)), u, stmts, answers)
      ensures None !in answers && OnlyInserts(stmts) ==> Landed(ConnOf(state, c).overlay, stmts)
      ensures env.alone && OpenOnlyOn(old(state), u, c) ==> OpenOnlyOn(state, u, c)
    {
      trace, answers, stmts := before, [], [];
      ghost var part := Part(state.db, u);
      var given: seq<Option<Db>> := [];
      r := callback(given);
      while r.Ask?
        invariant Inv(state) && Runs(start, trace) && state == Exec(start, trace) && CommitsOnly(trace, c, false)
        invariant answers == given && r == callback(given) && Includes(answers, ShownTo(state, u))
        invariant InTransaction(state, c, u) && SeenAll(state, u, known)
        invariant ConnOf(state, c).failed == (None in answers)
        invariant Asked(callback, env, answers, stmts)
        invariant Untroubled(env, stmts) ==> None !in answers
        invariant env.alone ==> Explained(env, part, u, stmts, answers, state.born.Keys)
        invariant env.alone ==> Part(state.db, u) == part
        invariant env.alone && None !in answers ==>
                    ConnOf(state, c).overlay == Written(part, u, stmts) && AnsweredOn(part, u, stmts, answers)
        invariant None !in answers && OnlyInserts(stmts) ==> Landed(ConnOf(state, c).overlay, stmts)
        invariant env.alone && OpenOnlyOn(old(state), u, c) ==> OpenOnlyOn(state, u, c)
        decreases limit - |given|
      {
        var stmt := r.stmt(env.newId(|given|));
        var answer;
        ghost var overlay, born := ConnOf(state, c).overlay, state.born.Keys;
        answer, trace := Issue(start, trace, c, u, env.alone, env.others(|given| + 2), stmt,
            env.statementFails(|given|), answers, known);
        OneMoreAnswer(env, part, u, stmts, answers, overlay, ConnOf(state, c).overlay, stmt, answer);
        AskedOneMore(callback, env, answers, stmts, answer);
        if env.alone { ExplainedOneMore(env, part, u, stmts, answers, born, stmt, answer, state.born.Keys); }
        stmts, answers, given := stmts + [stmt], answers + [answer], given + [answer];
        r := callback(given);
      }
    }

    /** A result is returned exactly when the transaction was committed, once and
        last; on every other way out it is rolled back. Either way the connection
        goes back to the pool with no user. A callback that swallows a failed
        statement and returns commits nothing. What it was shown is the user's own,
        and what it inserted is there. With no other transaction of the same user
        about, its answers and its effect on the user's rows are those of the
        statements run one after another on those rows alone. */
    method WithUserContext<T(!new)>(userId: string, callback: Callback<T>, ghost limit: nat, ghost known: set<Key>,
        env: Environment)
      returns (r: Result<T, Error>, ghost t: Transcript)
      requires Valid() && userId != ""
      requires Careful(callback, userId, known) && Settles(callback, limit) && SeenAll(state, userId, known)
      modifies this
      ensures Valid() && Runs(old(state), t.trace) && state == Exec(old(state), t.trace)
      ensures history == old(history) + t.trace
      ensures ConnOf(state, t.conn).Idle? && CurrentUser(ConnOf(state, t.conn).v) == None
      ensures CommitsOnly(t.trace, t.conn, r.Ok?)
      ensures r.Ok? ==> callback(t.answers) == Return(r.value) && t.trace != []
      ensures r.Err? && r.error.CallbackFailed? ==> callback(t.answers) == Throw(r.error.error)
      ensures r == Err(NoConnection) <==> env.connectFails
      ensures r == Err(DatabaseFailed) ==> env.beginFails || env.setFails || env.commitFails
      ensures Asked(callback, env, t.answers, t.stmts) && Includes(t.answers, ShownTo(state, userId))
      ensures OwnAnswers(state, userId, t.answers)
      ensures Untroubled(env, t.stmts) ==> None !in t.answers
      ensures env.alone ==> Explained(env, old(Part(state.db, userId)), userId, t.stmts, t.answers, state.born.Keys)
      ensures r.Ok? && None !in t.answers && OnlyInserts(t.stmts) ==> LandedIn(state.db, t.stmts)
      ensures env.alone && None !in t.answers ==> AnsweredOn(old(Part(state.db, userId)), userId, t.stmts, t.answers)
      ensures env.alone && (r.Err? || None in t.answers) ==> Part(state.db, userId) == old(Part(state.db, userId))
      ensures env.alone && r.Ok? && None !in t.answers ==>
                var part := old(Part(state.db, userId));
                Part(state.db, userId) == Merge(part, Written(part, userId, t.stmts))
      ensures env.alone && NothingOpen(old(state), userId) ==> NothingOpen(state, userId)
    {
      ghost var start := state;
      ghost var trace, answers, stmts := [], [], [];
      SomeIdle(state);
      var c :| ConnOf(state, c).Idle?;
      if env.connectFails {
        r := Err(NoConnection);
      } else if env.beginFails {
        r := Err(DatabaseFailed);
      } else {
        r, trace, answers, stmts := Transaction(c, userId, callback, limit, known, env);
      }
      assert ConnOk(state.born, ConnOf(state, c));
      ShownIsOwn(state, userId, answers);
      RunsAppend(origin, history, trace);
      history := history + trace;
      t := Transcript(c, trace, answers, stmts);
    }

    /** From BEGIN to COMMIT or ROLLBACK. */
    method Transaction<T(!new)>(c: nat, userId: string, callback: Callback<T>, ghost limit: nat,
        ghost known: set<Key>, env: Environment)
      returns (r: Result<T, Error>, ghost trace: seq<Step>, ghost answers: seq<Option<Db>>, ghost stmts: seq<Statement>)
      requires Inv(state) && ConnOf(state, c).Idle? && userId != ""
      requires Careful(callback, userId, known) && Settles(callback, limit) && SeenAll(state, userId, known)
      modifies this`state
      ensures Inv(state) && Runs(old(state), trace) && state == Exec(old(state), trace)
      ensures ConnOf(state, c).Idle? && CommitsOnly(trace, c, r.Ok?)
      ensures r.Ok? ==> callback(answers) == Return(r.value) && trace != []
      ensures r.Err? ==> r.error != NoConnection
      ensures r.Err? && r.error.CallbackFailed? ==> callback(answers) == Throw(r.error.error)
      ensures r == Err(DatabaseFailed) ==> env.setFails || env.commitFails
      ensures Asked(callback, env, answers, stmts) && Includes(answers, ShownTo(state, userId))
      ensures Untroubled(env, stmts) ==> None !in answers
      ensures env.alone ==> Explained(env, old(Part(state.db, userId)), userId, stmts, answers, state.born.Keys)
      ensures r.Ok? && None !in answers && OnlyInserts(stmts) ==> LandedIn(state.db, stmts)
      ensures env.alone && None !in answers ==> AnsweredOn(old(Part(state.db, userId)), userId, stmts, answers)
      ensures env.alone && (r.Err? || None in answers) ==> Part(state.db, userId) == old(Part(state.db, userId))
      ensures env.alone && r.Ok? && None !in answers ==>
                var part := old(Part(state.db, userId));
                Part(state.db, userId) == Merge(part, Written(part, userId, stmts))
      ensures env.alone && OpenOnlyOn(old(state), userId, c) ==> OpenOnlyOn(state, userId, c)
    {
      ghost var start := state;
      trace, answers, stmts := [], [], [];
      ghost var ran := {};
      trace := Act(start, trace, c, userId, env.alone, env.others(0), Begin(c, userId));
      if env.setFails {
        trace := Act(start, trace, c, userId, env.alone, env.others(1), Fault(c));
        r := Err(DatabaseFailed);
      } else {
        trace := Act(start, trace, c, userId, env.alone, env.others(1), SetUser(c));
        SeenLasts(start, state, userId, known);
        var result;
        result, trace, answers, stmts := RunCallback(start, trace, c, userId, callback, limit, known, env);
        ran := state.born.Keys;
        if result.Throw? {
          r := Err(CallbackFailed(result.error));
        } else if env.commitFails {
          r := Err(DatabaseFailed);
        } else {
          trace := Act(start, trace, c, userId, env.alone, env.atEnd, Commit(c));
          r := Ok(result.value);
        }
      }
      if r.Err? {
        trace := Act(start, trace, c, userId, env.alone, env.atEnd, Rollback(c));
      }
      if env.alone { ExplainedLater(env, Part(start.db, userId), userId, stmts, answers, ran, state.born.Keys); }
    }

    /** Time passes: whatever happens that is not the user's doing. */
    method Elapse(u: string, others: seq<Step>) returns (ghost trace: seq<Step>)
      requires Valid() && NothingOpen(state, u)
      modifies this
      ensures Valid() && Runs(old(state), trace) && state == Exec(old(state), trace) && history == old(history) + trace
      ensures NoneBy(old(state), trace, u) && NothingOpen(state, u) && Part(state.db, u) == old(Part(state.db, u))
    {
      var theirs := Unrelated(state, u, others);
      OthersLeavePart(state, theirs, u);
      OthersOpenNothingAtAll(state, theirs, u);
      RunsAppend(origin, history, theirs);
      RunInv(state, theirs);
      state := Exec(state, theirs);
      history := history + theirs;
      trace := theirs;
    }
  }
}
