/** Metered calls on the account store: what the guards check and the calls log is
    read and written by scoped transactions on the usage rows of the database. */
module MeteringStatements {
  import opened Wrappers
  import opened Schema
  import opened RowSecurity
  import opened Tenancy
  import opened Transactions
  import opened UsageSums
  import Budget
  import M = Metering
  import MeteringProperties

  // ---- The statements ----

  /** What the monthly guard reads: the user's rows from the start of the month on. */
  function SpendQuery(u: string, month: nat): Statement {
    Query((k: Key, row: Row) =>
      k.table == LlmUsageLogs && row.owner == u && NumberIn(row, "created_at") >= month as real)
  }

  /** What the turn guard reads: the user's rows of the conversation. */
  function TurnQuery(u: string, conversation: string): Statement {
    Query((k: Key, row: Row) => k.table == LlmUsageLogs && InConversation(row, u, conversation))
  }

  function InsertUsage(id: string, row: Budget.UsageRow): Statement {
    Insert(Key(LlmUsageLogs, id), StampedRow(row))
  }

  /** A transaction of one statement; one that fails is rolled back. */
  function Whole(db: Db, c: nat, u: string, stmt: Statement): seq<Step> {
    [Begin(c, u), SetUser(c), Run(c, stmt)] + [if Execute(Some(u), db, stmt) == None then Rollback(c) else Commit(c)]
  }

  /** One whose statement fails of itself. */
  function Failing(c: nat, u: string): seq<Step> {
    [Begin(c, u), SetUser(c), Fault(c)] + [Rollback(c)]
  }

  ghost predicate AllIdle(t: State) {
    forall c :: ConnOf(t, c).Idle?
  }

  /** The statement can be asked for by the user with nothing seen before. */
  predicate Askable(t: State, u: string, stmt: Statement) {
    stmt.Insert? ==> stmt.key !in t.born && Declared(stmt.key, stmt.row) && Refs(stmt.row) <= {Key(Users, u)}
  }

  function Outcome(e: Option<Effect>): Option<Db> {
    if e == None then None else Some(e.value.rows)
  }

  /** What a transaction of one statement comes to: its effect on the rows as they are. */
  lemma WholeRuns(t: State, c: nat, u: string, stmt: Statement)
    requires AllIdle(t) && u != "" && Askable(t, u, stmt)
    ensures Runs(t, Whole(t.db, c, u, stmt))
    ensures
      var e, t' := Execute(Some(u), t.db, stmt), Exec(t, Whole(t.db, c, u, stmt));
      && t'.db == (if e == None then t.db else Merge(t.db, e.value.writes)) && AllIdle(t')
      && ShownTo(t', u) == ShownTo(t, u) + [Outcome(e)]
  {
    var e, three := Execute(Some(u), t.db, stmt), [Begin(c, u), SetUser(c), Run(c, stmt)];
    StatementDone(t, c, u, stmt);
    var end := if e == None then Rollback(c) else Commit(c);
    EndsIdle(t, Exec(t, three), c, e, end);
    RunOne(Exec(t, three), end);
    RunsAppend(t, three, [end]);
  }

  /** Up to the end of its statement. */
  lemma StatementDone(t: State, c: nat, u: string, stmt: Statement)
    requires AllIdle(t) && u != "" && Askable(t, u, stmt)
    ensures Runs(t, [Begin(c, u), SetUser(c), Run(c, stmt)])
    ensures
      var e, t3 := Execute(Some(u), t.db, stmt), Exec(t, [Begin(c, u), SetUser(c), Run(c, stmt)]);
      && ConnOf(t3, c).Open? && (forall d :: d != c ==> ConnOf(t3, d) == ConnOf(t, d)) && t3.db == t.db
      && (e.Some? ==> !ConnOf(t3, c).failed && ConnOf(t3, c).overlay == map[] + e.value.writes)
      && ShownTo(t3, u) == ShownTo(t, u) + [Outcome(e)]
  {
    Scoped(t, c, u);
    var t2 := Apply(Apply(t, Begin(c, u)), SetUser(c));
    assert ShownTo(t2, u) == ShownTo(t, u);
    var e := Execute(Some(u), t.db, stmt);
    assert Merge(t.db, map[]) == t.db;
    assert EffectOf(t2, c, stmt) == e;
    assert Enabled(t2, Run(c, stmt));
    RunThree(t, Begin(c, u), SetUser(c), Run(c, stmt));
    EffectOnConn(t2, c, stmt, e);
    ShownAfterRun(t2, c, stmt, e, u);
  }

  lemma EndsIdle(t: State, t': State, c: nat, e: Option<Effect>, end: Step)
    requires AllIdle(t) && ConnOf(t', c).Open? && (forall d :: d != c ==> ConnOf(t', d) == ConnOf(t, d))
    requires end == if e == None then Rollback(c) else Commit(c)
    requires e.Some? ==> !ConnOf(t', c).failed && ConnOf(t', c).overlay == map[] + e.value.writes
    ensures Enabled(t', end) && AllIdle(Apply(t', end)) && Apply(t', end).shown == t'.shown
    ensures Apply(t', end).db == if e == None then t'.db else Merge(t'.db, e.value.writes)
  {
    if e.Some? {
      assert map[] + e.value.writes == e.value.writes;
    }
    forall d ensures ConnOf(Apply(t', end), d).Idle? {
      if d != c { assert ConnOf(t', d) == ConnOf(t, d); }
    }
  }

  lemma FailingRuns(t: State, c: nat, u: string)
    requires AllIdle(t) && u != ""
    ensures Runs(t, Failing(c, u)) && Exec(t, Failing(c, u)).db == t.db && AllIdle(Exec(t, Failing(c, u)))
  {
    Scoped(t, c, u);
    var t2 := Apply(Apply(t, Begin(c, u)), SetUser(c));
    RunThree(t, Begin(c, u), SetUser(c), Fault(c));
    var t3 := Apply(t2, Fault(c));
    assert AfterRun(t2, c, Query((_, _) => false), None) == t3;
    ShownAfterRun(t2, c, Query((_, _) => false), None, u);
    EndsIdle(t, t3, c, None, Rollback(c));
    RunOne(t3, Rollback(c));
    RunsAppend(t, [Begin(c, u), SetUser(c), Fault(c)], [Rollback(c)]);
  }

  // ---- What the guards read ----

  /** The sum over the rows that the monthly guard is given is what the user has
      spent since the start of the month. */
  lemma SpendIsRead(db: Db, log: seq<Budget.UsageRow>, keys: seq<Key>, u: string, month: nat)
    requires Holds(Usage(db), log, keys) && u != ""
    ensures
      var e := Execute(Some(u), db, SpendQuery(u, month));
      && e.Some? && e.value.writes == map[]
      && Total(e.value.rows, row => NumberIn(row, "cost_estimate")) == Budget.SpentSince(log, u, month)
  {
    var rows := Execute(Some(u), db, SpendQuery(u, month)).value.rows;
    TotalOfSelection(rows, row => NumberIn(row, "cost_estimate"), Usage(db), SpentWeight(u, month));
    HoldsTotal(Usage(db), log, keys, SpentWeight(u, month));
    SumOfSpent(log, u, month);
  }

  /** The first attempts among the rows that the turn guard is given are the
      conversation's turns. */
  lemma TurnsAreRead(db: Db, log: seq<Budget.UsageRow>, keys: seq<Key>, u: string, conversation: string)
    requires Holds(Usage(db), log, keys) && u != ""
    ensures
      var e := Execute(Some(u), db, TurnQuery(u, conversation));
      && e.Some? && e.value.writes == map[]
      && Total(e.value.rows, TurnWeight(u, conversation)) == Budget.Turns(log, u, conversation) as real
  {
    var rows := Execute(Some(u), db, TurnQuery(u, conversation)).value.rows;
    TotalOfSelection(rows, TurnWeight(u, conversation), Usage(db), TurnWeight(u, conversation));
    HoldsTotal(Usage(db), log, keys, TurnWeight(u, conversation));
    SumOfTurns(log, u, conversation);
  }

  // ---- The two states ----

  /** The usage rows are those of the log, a user's account is there until it is
      erased, and calls are made by users. */
  ghost predicate Same(m: M.State, t: State, users: set<string>, keys: seq<Key>) {
    Inv(t) && AllIdle(t) && StoreSame(m, t.db, users, keys)
  }

  /** Of the users, those erased are gone. */
  predicate UsersThere(erased: set<string>, db: Db, users: set<string>) {
    forall u :: u in users ==> (u in erased <==> Key(Users, u) !in db)
  }

  ghost predicate StoreSame(m: M.State, db: Db, users: set<string>, keys: seq<Key>) {
    && Integral(db) && Holds(Usage(db), m.log, keys) && "" !in users && UsersThere(m.erased, db, users)
    && (forall c :: c in m.flights ==> m.flights[c].request.user in users)
    && (forall i :: 0 <= i < |m.log| ==> m.log[i].user in users)
  }

  /** A step with its transaction, on connection `c`, under the new id. */
  function Statements(m: M.State, t: State, step: M.Step, c: nat, id: string): seq<Step> {
    if !M.Enabled(m, step) then []
    else match step
      case TurnCheck(call, fails) =>
        var r := m.flights[call].request;
        if !M.HasTurnCap(r) then []
        else if fails then Failing(c, r.user)
        else Whole(t.db, c, r.user, TurnQuery(r.user, r.conversation.value))
      case BudgetCheck(call, fails) =>
        var u := m.flights[call].request.user;
        if fails then Failing(c, u) else Whole(t.db, c, u, SpendQuery(u, m.month))
      case Insert(call, fails) =>
        var f := m.flights[call];
        if fails then Failing(c, f.request.user)
        else Whole(t.db, c, f.request.user, InsertUsage(id, M.RowOf(m, call, f, f.phase.reply)))
      case EraseAccount(u) => if u == "" then [] else Whole(t.db, c, u, DeleteUserRow(u))
      case _ => []
  }

  /** A new id is none that was ever used, and there always is one. */
  lemma SomeNewId(t: State) returns (id: string)
    ensures Key(LlmUsageLogs, id) !in t.born
  {
    id := LongerThanAll(t.born.Keys);
  }

  lemma {:induction false} LongerThanAll(taken: set<Key>) returns (id: string)
    ensures forall k :: k in taken ==> |k.id| < |id|
    decreases |taken|
  {
    if taken == {} {
      id := "";
    } else {
      var k :| k in taken;
      id := LongerThanAll(taken - {k});
      assert forall x :: x in taken ==> x == k || x in taken - {k};
      id := seq(|id| + |k.id| + 1, _ => 'x');
    }
  }

  // ---- Step by step ----

  lemma NewRowIsNew(t: State, id: string)
    requires Inv(t) && Key(LlmUsageLogs, id) !in t.born
    ensures Key(LlmUsageLogs, id) !in t.db
  {
    assert forall k :: k in t.db ==> AtHome(t.born, k, t.db[k]);
  }

  lemma UsageRefs(row: Budget.UsageRow)
    ensures Refs(StampedRow(row)) == {Key(Users, row.user)} && StampedRow(row).owner == row.user
    ensures forall id :: Declared(Key(LlmUsageLogs, id), StampedRow(row))
  {
    assert Users in StampedRow(row).parents && StampedRow(row).parents[Users] == row.user;
    assert Key(Users, row.user) in Refs(StampedRow(row));
  }

  /** A usage row is inserted if and only if its user is there. */
  lemma InsertTakesEffect(db: Db, id: string, row: Budget.UsageRow)
    requires Key(LlmUsageLogs, id) !in db && row.user != ""
    ensures
      var e := Execute(Some(row.user), db, InsertUsage(id, row));
      if Key(Users, row.user) in db
      then e.Some? && Merge(db, e.value.writes) == db[Key(LlmUsageLogs, id) := StampedRow(row)]
      else e == None
  {
    UsageRefs(row);
    var k := Key(LlmUsageLogs, id);
    if Key(Users, row.user) in db {
      assert Merge(db, map[k := Some(StampedRow(row))]) == db[k := StampedRow(row)];
    }
  }

  lemma InsertedRows(db: Db, id: string, row: Budget.UsageRow)
    requires Integral(db) && Key(Users, row.user) in db
    ensures Integral(db[Key(LlmUsageLogs, id) := StampedRow(row)])
    ensures Usage(db[Key(LlmUsageLogs, id) := StampedRow(row)]) == Usage(db)[Key(LlmUsageLogs, id) := StampedRow(row)]
  {
    UsageRefs(row);
    var db' := db[Key(LlmUsageLogs, id) := StampedRow(row)];
    forall k | k in db' ensures Declared(k, db'[k]) && Refs(db'[k]) <= db'.Keys {
    }
  }

  lemma DeletionTakesEffect(db: Db, u: string)
    requires Integral(db) && OwnersAgree(db) && u != ""
    ensures
      var e := Execute(Some(u), db, DeleteUserRow(u));
      e.Some? && Merge(db, e.value.writes) == DeleteUser(db, u)
  {
    var hit := Matching(Some(u), db, DeleteUserRow(u).filter);
    UserIsHit(db, u);
    MergeOfDeletions(db, Doomed(db, hit.Keys));
  }

  lemma UserIsHit(db: Db, u: string)
    requires Integral(db) && u != ""
    ensures Matching(Some(u), db, DeleteUserRow(u).filter).Keys == {Key(Users, u)} * db.Keys
  {
    assert Key(Users, u) in db ==> Declared(Key(Users, u), db[Key(Users, u)]);
  }

  lemma MergeOfDeletions(db: Db, dead: set<Key>)
    ensures Merge(db, map k | k in dead :: None) == Minus(db, dead)
  {
  }

  lemma DeletedRows(db: Db, u: string)
    requires Integral(db) && OwnersAgree(db)
    ensures Integral(DeleteUser(db, u)) && Usage(DeleteUser(db, u)) == RowsOfOthers(Usage(db), u)
    ensures Key(Users, u) !in DeleteUser(db, u)
    ensures forall v :: v != u ==> (Key(Users, v) in DeleteUser(db, u) <==> Key(Users, v) in db)
  {
    DeletionIsClean(db, u);
    CascadeRemovesExactlyOwned(db, u);
    forall v | v != u ensures Key(Users, v) in DeleteUser(db, u) <==> Key(Users, v) in db {
      assert Key(Users, v) in db ==> Declared(Key(Users, v), db[Key(Users, v)]);
    }
  }

  lemma OwnersDoAgree(t: State)
    requires Inv(t)
    ensures OwnersAgree(t.db)
  {
    RunsStayHome(t, [], "");
  }

  /** A step after which the log is as it was, and the rows are. */
  lemma SameRows(m: M.State, m': M.State, t: State, ts: seq<Step>, users: set<string>, keys: seq<Key>)
    requires Same(m, t, users, keys) && Runs(t, ts) && Exec(t, ts).db == t.db && AllIdle(Exec(t, ts))
    requires m'.log == m.log && m'.erased == m.erased
    requires forall c :: c in m'.flights ==> m'.flights[c].request.user in users
    ensures Same(m', Exec(t, ts), users, keys)
  {
    RunInv(t, ts);
  }

  /** A transaction of one statement takes the store to where its effect does. */
  lemma WholeSame(m': M.State, t: State, c: nat, u: string, stmt: Statement, db: Db, users: set<string>,
                  keys: seq<Key>)
    requires Inv(t) && AllIdle(t) && u != "" && Askable(t, u, stmt)
    requires var e := Execute(Some(u), t.db, stmt); db == if e == None then t.db else Merge(t.db, e.value.writes)
    requires StoreSame(m', db, users, keys)
    ensures Runs(t, Whole(t.db, c, u, stmt)) && Same(m', Exec(t, Whole(t.db, c, u, stmt)), users, keys)
  {
    WholeRuns(t, c, u, stmt);
    RunInv(t, Whole(t.db, c, u, stmt));
  }

  lemma InsertStore(m: M.State, m': M.State, db: Db, db': Db, id: string, row: Budget.UsageRow, users: set<string>,
                    keys: seq<Key>)
    requires StoreSame(m, db, users, keys) && row.user in users && Key(LlmUsageLogs, id) !in db
    requires Integral(db') && Usage(db') == Usage(db)[Key(LlmUsageLogs, id) := StampedRow(row)]
    requires UsersThere(m.erased, db', users) && m'.log == m.log + [row] && m'.erased == m.erased
    requires forall c :: c in m'.flights ==> m'.flights[c].request.user in users
    ensures StoreSame(m', db', users, keys + [Key(LlmUsageLogs, id)])
  {
    HoldsOneMore(Usage(db), m.log, keys, Key(LlmUsageLogs, id), row);
    OneMoreOfUsers(m.log, row, users);
  }

  lemma OneMoreOfUsers(log: seq<Budget.UsageRow>, row: Budget.UsageRow, users: set<string>)
    requires (forall i :: 0 <= i < |log| ==> log[i].user in users) && row.user in users
    ensures var log' := log + [row]; forall i :: 0 <= i < |log'| ==> log'[i].user in users
  {
  }

  lemma NobodyComes(erased: set<string>, db: Db, k: Key, row: Row, users: set<string>)
    requires UsersThere(erased, db, users) && k.table != Users
    ensures UsersThere(erased, db[k := row], users)
  {
  }

  lemma InsertIsAskable(t: State, id: string, row: Budget.UsageRow)
    requires Key(LlmUsageLogs, id) !in t.born
    ensures Askable(t, row.user, InsertUsage(id, row))
  {
    UsageRefs(row);
  }

  lemma InsertSame(m: M.State, m': M.State, t: State, c: nat, id: string, row: Budget.UsageRow, users: set<string>,
                   keys: seq<Key>)
    requires Same(m, t, users, keys) && row.user in users && row.user !in m.erased && Key(LlmUsageLogs, id) !in t.born
    requires m'.log == m.log + [row] && m'.erased == m.erased
    requires forall c :: c in m'.flights ==> m'.flights[c].request.user in users
    ensures
      var ts := Whole(t.db, c, row.user, InsertUsage(id, row));
      Runs(t, ts) && Same(m', Exec(t, ts), users, keys + [Key(LlmUsageLogs, id)])
  {
    NewRowIsNew(t, id);
    InsertTakesEffect(t.db, id, row);
    var db := t.db[Key(LlmUsageLogs, id) := StampedRow(row)];
    InsertedRows(t.db, id, row);
    NobodyComes(m.erased, t.db, Key(LlmUsageLogs, id), StampedRow(row), users);
    InsertStore(m, m', t.db, db, id, row, users, keys);
    InsertIsAskable(t, id, row);
    WholeSame(m', t, c, row.user, InsertUsage(id, row), db, users, keys + [Key(LlmUsageLogs, id)]);
  }

  lemma RefusedInsertSame(m: M.State, m': M.State, t: State, c: nat, id: string, row: Budget.UsageRow,
                          users: set<string>, keys: seq<Key>)
    requires Same(m, t, users, keys) && row.user in users && row.user in m.erased && Key(LlmUsageLogs, id) !in t.born
    requires m'.log == m.log && m'.erased == m.erased
    requires forall c :: c in m'.flights ==> m'.flights[c].request.user in users
    ensures
      var ts := Whole(t.db, c, row.user, InsertUsage(id, row));
      Runs(t, ts) && Same(m', Exec(t, ts), users, keys)
  {
    NewRowIsNew(t, id);
    InsertTakesEffect(t.db, id, row);
    InsertIsAskable(t, id, row);
    WholeSame(m', t, c, row.user, InsertUsage(id, row), t.db, users, keys);
  }

  lemma EraseStore(m: M.State, m': M.State, db: Db, db': Db, u: string, users: set<string>, keys: seq<Key>)
    returns (keys': seq<Key>)
    requires StoreSame(m, db, users, keys)
    requires Integral(db') && Usage(db') == RowsOfOthers(Usage(db), u) && Key(Users, u) !in db'
    requires forall v :: v != u ==> (Key(Users, v) in db' <==> Key(Users, v) in db)
    requires m'.log == Budget.Live(m.log, {u}) && m'.erased == m.erased + {u} && m'.flights == m.flights
    ensures StoreSame(m', db', users, keys')
  {
    keys' := HoldsOfOthers(Usage(db), m.log, keys, u);
    OneUserGone(m.erased, db, db', u, users);
    LiveOfUsers(m.log, u, users);
  }

  lemma OneUserGone(erased: set<string>, db: Db, db': Db, u: string, users: set<string>)
    requires UsersThere(erased, db, users) && Key(Users, u) !in db'
    requires forall v :: v != u ==> (Key(Users, v) in db' <==> Key(Users, v) in db)
    ensures UsersThere(erased + {u}, db', users)
  {
  }

  lemma LiveOfUsers(log: seq<Budget.UsageRow>, u: string, users: set<string>)
    requires forall i :: 0 <= i < |log| ==> log[i].user in users
    ensures var live := Budget.Live(log, {u}); forall i :: 0 <= i < |live| ==> live[i].user in users
  {
    var live := Budget.Live(log, {u});
    Budget.LiveRows(log, {u});
    forall i | 0 <= i < |live| ensures live[i].user in users {
      assert live[i] in live;
    }
  }

  lemma EraseSame(m: M.State, m': M.State, t: State, c: nat, u: string, users: set<string>, keys: seq<Key>)
    returns (keys': seq<Key>)
    requires Same(m, t, users, keys) && u != ""
    requires m'.log == Budget.Live(m.log, {u}) && m'.erased == m.erased + {u} && m'.flights == m.flights
    ensures
      var ts := Whole(t.db, c, u, DeleteUserRow(u));
      Runs(t, ts) && Same(m', Exec(t, ts), users, keys')
  {
    OwnersDoAgree(t);
    DeletionTakesEffect(t.db, u);
    DeletedRows(t.db, u);
    keys' := EraseStore(m, m', t.db, DeleteUser(t.db, u), u, users, keys);
    WholeSame(m', t, c, u, DeleteUserRow(u), DeleteUser(t.db, u), users, keys');
  }

  /** Calls of the step's own, and those there were, are made by users. */
  predicate ByUsers(step: M.Step, users: set<string>) {
    step.Begin? ==> step.request.user in users
  }

  lemma FlightsOfUsers(w: M.Setting, m: M.State, step: M.Step, users: set<string>)
    requires ByUsers(step, users) && forall c :: c in m.flights ==> m.flights[c].request.user in users
    ensures
      var m' := M.Apply(w, m, step);
      forall c :: c in m'.flights ==> m'.flights[c].request.user in users
  {
    MeteringProperties.RequestsStay(w, m, step);
    forall c | c in M.Apply(w, m, step).flights ensures M.Apply(w, m, step).flights[c].request.user in users {
      if c !in m.flights {
        assert step.Begin? && step.call == c;
      }
    }
  }

  /** The rows read last hold the conversation's turns. */
  ghost predicate TurnsShown(m: M.State, r: M.Request, shown: seq<Option<Db>>)
    requires M.HasTurnCap(r)
  {
    && shown != [] && shown[|shown| - 1].Some?
    && Total(shown[|shown| - 1].value, TurnWeight(r.user, r.conversation.value)) ==
         Budget.Turns(m.log, r.user, r.conversation.value) as real
  }

  /** The rows read last cost what the user has spent since the start of the month. */
  ghost predicate SpendShown(m: M.State, u: string, shown: seq<Option<Db>>) {
    && shown != [] && shown[|shown| - 1].Some?
    && Total(shown[|shown| - 1].value, row => NumberIn(row, "cost_estimate")) == Budget.SpentSince(m.log, u, m.month)
  }

  /** What a guard that could read has read last is what it checks. */
  ghost predicate GuardRead(m: M.State, step: M.Step, shown: seq<Option<Db>>) {
    match step
    case TurnCheck(call, false) =>
      M.Enabled(m, step) && M.HasTurnCap(m.flights[call].request) ==> TurnsShown(m, m.flights[call].request, shown)
    case BudgetCheck(call, false) =>
      M.Enabled(m, step) ==> SpendShown(m, m.flights[call].request.user, shown)
    case _ => true
  }

  /** What the last query was answered with. */
  predicate Answered(shown: seq<Option<Db>>) {
    shown != [] && shown[|shown| - 1].Some?
  }

  /** The turn guard ends the call if and only if the first attempts among the rows it
      was shown reach the cap, and reports how many they are; otherwise the call goes
      on to the monthly guard. */
  ghost predicate TurnsDecide(r: M.Request, shown: seq<Option<Db>>, phase: M.Phase)
    requires r.conversation.Some? && r.maxTurns.Some? && Answered(shown)
  {
    var turns := Total(shown[|shown| - 1].value, TurnWeight(r.user, r.conversation.value));
    && (phase.Ended? <==> turns >= r.maxTurns.value as real)
    && (phase.Ended? ==>
          && phase.outcome.ConversationLimit? && phase.outcome.turns as real == turns
          && phase.outcome.maxTurns == r.maxTurns.value)
    && (!phase.Ended? ==> phase.CheckBudget?)
  }

  /** The monthly guard ends the call if and only if the rows it was shown cost the cap
      or more, and reports both; otherwise the attempt is priced. */
  ghost predicate SpendDecides(cap: real, shown: seq<Option<Db>>, f: M.Flight)
    requires Answered(shown)
  {
    var spent := Total(shown[|shown| - 1].value, row => NumberIn(row, "cost_estimate"));
    && f.spent == spent && (f.phase.Ended? <==> spent >= cap)
    && (f.phase.Ended? ==> f.phase.outcome == M.BudgetExceeded(spent, cap))
    && (!f.phase.Ended? ==> f.phase.PriceAttempt?)
  }

  /** What a guard makes of its call, said of the rows its query was answered with; a
      guard that could not read ends the call. */
  ghost predicate GuardDecides(w: M.Setting, m: M.State, m': M.State, step: M.Step, shown: seq<Option<Db>>) {
    match step
    case TurnCheck(call, fails) =>
      M.Enabled(m, step) ==>
        && call in m'.flights
        && var r, phase := m.flights[call].request, m'.flights[call].phase;
        if r.conversation == None || r.conversation == Some("") || r.maxTurns == None then phase.CheckBudget?
        else if fails then phase == M.Ended(M.DatabaseError)
        else Answered(shown) && TurnsDecide(r, shown, phase)
    case BudgetCheck(call, fails) =>
      M.Enabled(m, step) ==>
        && call in m'.flights
        && if fails then m'.flights[call].phase == M.Ended(M.DatabaseError)
           else Answered(shown) && SpendDecides(w.cap, shown, m'.flights[call])
    case _ => true
  }

  lemma GuardsDecide(w: M.Setting, m: M.State, step: M.Step, shown: seq<Option<Db>>)
    requires GuardRead(m, step, shown)
    ensures GuardDecides(w, m, M.Apply(w, m, step), step, shown)
  {
    if step.TurnCheck? && M.Enabled(m, step) && M.HasTurnCap(m.flights[step.call].request) && !step.readFails {
      TurnGuardDecides(w, m, step.call, shown);
    }
  }

  lemma TurnGuardDecides(w: M.Setting, m: M.State, call: nat, shown: seq<Option<Db>>)
    requires M.Enabled(m, M.TurnCheck(call, false)) && M.HasTurnCap(m.flights[call].request)
    requires TurnsShown(m, m.flights[call].request, shown)
    ensures TurnsDecide(m.flights[call].request, shown, M.Apply(w, m, M.TurnCheck(call, false)).flights[call].phase)
  {
  }

  /** The user for whom a step's transaction is. */
  function UserOf(m: M.State, step: M.Step): string {
    match step
    case TurnCheck(call, _) => if call in m.flights then m.flights[call].request.user else ""
    case BudgetCheck(call, _) => if call in m.flights then m.flights[call].request.user else ""
    case _ => ""
  }

  /** A transaction of one query shows its answer and changes nothing. */
  lemma QueryRuns(t: State, c: nat, u: string, stmt: Statement)
    requires AllIdle(t) && u != "" && stmt.Query?
    ensures
      var ts := Whole(t.db, c, u, stmt);
      && Runs(t, ts) && Exec(t, ts).db == t.db && AllIdle(Exec(t, ts))
      && ShownTo(Exec(t, ts), u) == ShownTo(t, u) + [Some(Execute(Some(u), t.db, stmt).value.rows)]
  {
    WholeRuns(t, c, u, stmt);
    assert Merge(t.db, map[]) == t.db;
  }

  lemma ReadSame(m: M.State, m': M.State, t: State, c: nat, u: string, stmt: Statement, users: set<string>,
                 keys: seq<Key>)
    requires Same(m, t, users, keys) && u in users && stmt.Query?
    requires m'.log == m.log && m'.erased == m.erased
    requires forall c :: c in m'.flights ==> m'.flights[c].request.user in users
    ensures
      var ts := Whole(t.db, c, u, stmt);
      && Runs(t, ts) && Same(m', Exec(t, ts), users, keys)
      && ShownTo(Exec(t, ts), u) == ShownTo(t, u) + [Some(Execute(Some(u), t.db, stmt).value.rows)]
  {
    QueryRuns(t, c, u, stmt);
    SameRows(m, m', t, Whole(t.db, c, u, stmt), users, keys);
  }

  lemma FailSame(m: M.State, m': M.State, t: State, c: nat, u: string, users: set<string>, keys: seq<Key>)
    requires Same(m, t, users, keys) && u in users
    requires m'.log == m.log && m'.erased == m.erased
    requires forall c :: c in m'.flights ==> m'.flights[c].request.user in users
    ensures Runs(t, Failing(c, u)) && Same(m', Exec(t, Failing(c, u)), users, keys)
  {
    FailingRuns(t, c, u);
    SameRows(m, m', t, Failing(c, u), users, keys);
  }

  lemma TurnReadSame(m: M.State, m': M.State, r: M.Request, t: State, c: nat, users: set<string>, keys: seq<Key>)
    requires Same(m, t, users, keys) && r.user in users && M.HasTurnCap(r)
    requires m'.log == m.log && m'.erased == m.erased
    requires forall c :: c in m'.flights ==> m'.flights[c].request.user in users
    ensures
      var ts := Whole(t.db, c, r.user, TurnQuery(r.user, r.conversation.value));
      && Runs(t, ts) && Same(m', Exec(t, ts), users, keys)
      && TurnsShown(m, r, ShownTo(Exec(t, ts), r.user))
  {
    ReadSame(m, m', t, c, r.user, TurnQuery(r.user, r.conversation.value), users, keys);
    TurnsAreRead(t.db, m.log, keys, r.user, r.conversation.value);
  }

  lemma TurnStepSame(w: M.Setting, m: M.State, call: nat, fails: bool, t: State, c: nat, id: string,
                     users: set<string>, keys: seq<Key>)
    requires Same(m, t, users, keys) && M.Enabled(m, M.TurnCheck(call, fails))
    ensures
      var step := M.TurnCheck(call, fails);
      var ts := Statements(m, t, step, c, id);
      && Runs(t, ts) && Same(M.Apply(w, m, step), Exec(t, ts), users, keys)
      && GuardRead(m, step, ShownTo(Exec(t, ts), UserOf(m, step)))
  {
    var r, m' := m.flights[call].request, M.Apply(w, m, M.TurnCheck(call, fails));
    FlightsOfUsers(w, m, M.TurnCheck(call, fails), users);
    if !M.HasTurnCap(r) {
      SameRows(m, m', t, [], users, keys);
    } else if fails {
      FailSame(m, m', t, c, r.user, users, keys);
    } else {
      TurnReadSame(m, m', r, t, c, users, keys);
    }
  }

  lemma BudgetStepSame(w: M.Setting, m: M.State, call: nat, fails: bool, t: State, c: nat, id: string,
                       users: set<string>, keys: seq<Key>)
    requires Same(m, t, users, keys) && M.Enabled(m, M.BudgetCheck(call, fails))
    ensures
      var step := M.BudgetCheck(call, fails);
      var ts := Statements(m, t, step, c, id);
      && Runs(t, ts) && Same(M.Apply(w, m, step), Exec(t, ts), users, keys)
      && GuardRead(m, step, ShownTo(Exec(t, ts), UserOf(m, step)))
  {
    var u, m' := m.flights[call].request.user, M.Apply(w, m, M.BudgetCheck(call, fails));
    FlightsOfUsers(w, m, M.BudgetCheck(call, fails), users);
    if fails {
      FailSame(m, m', t, c, u, users, keys);
    } else {
      ReadSame(m, m', t, c, u, SpendQuery(u, m.month), users, keys);
      SpendIsRead(t.db, m.log, keys, u, m.month);
    }
  }

  lemma InsertStepSame(w: M.Setting, m: M.State, call: nat, fails: bool, t: State, c: nat, id: string,
                       users: set<string>, keys: seq<Key>)
    returns (keys': seq<Key>)
    requires Same(m, t, users, keys) && M.Enabled(m, M.Insert(call, fails)) && Key(LlmUsageLogs, id) !in t.born
    ensures
      var ts := Statements(m, t, M.Insert(call, fails), c, id);
      Runs(t, ts) && Same(M.Apply(w, m, M.Insert(call, fails)), Exec(t, ts), users, keys')
  {
    var f, m' := m.flights[call], M.Apply(w, m, M.Insert(call, fails));
    var row := M.RowOf(m, call, f, f.phase.reply);
    FlightsOfUsers(w, m, M.Insert(call, fails), users);
    keys' := keys;
    if fails {
      FailSame(m, m', t, c, f.request.user, users, keys);
    } else if f.request.user in m.erased {
      RefusedInsertSame(m, m', t, c, id, row, users, keys);
    } else {
      InsertSame(m, m', t, c, id, row, users, keys);
      keys' := keys + [Key(LlmUsageLogs, id)];
    }
  }

  /** Each step of the metered calls is what its transaction does, and the guards
      decide on what theirs have read. */
  lemma StepIsItsStatements(w: M.Setting, m: M.State, step: M.Step, t: State, c: nat, id: string,
                            users: set<string>, keys: seq<Key>)
    returns (keys': seq<Key>)
    requires Same(m, t, users, keys) && ByUsers(step, users) && Key(LlmUsageLogs, id) !in t.born
    ensures
      var ts := Statements(m, t, step, c, id);
      && Runs(t, ts) && Same(M.Apply(w, m, step), Exec(t, ts), users, keys')
      && GuardRead(m, step, ShownTo(Exec(t, ts), UserOf(m, step)))
      && GuardDecides(w, m, M.Apply(w, m, step), step, ShownTo(Exec(t, ts), UserOf(m, step)))
  {
    keys' := StepSame(w, m, step, t, c, id, users, keys);
    GuardsDecide(w, m, step, ShownTo(Exec(t, Statements(m, t, step, c, id)), UserOf(m, step)));
  }

  lemma StepSame(w: M.Setting, m: M.State, step: M.Step, t: State, c: nat, id: string, users: set<string>,
                 keys: seq<Key>)
    returns (keys': seq<Key>)
    requires Same(m, t, users, keys) && ByUsers(step, users) && Key(LlmUsageLogs, id) !in t.born
    ensures
      var ts := Statements(m, t, step, c, id);
      && Runs(t, ts) && Same(M.Apply(w, m, step), Exec(t, ts), users, keys')
      && GuardRead(m, step, ShownTo(Exec(t, ts), UserOf(m, step)))
  {
    keys' := keys;
    if !M.Enabled(m, step) {
      SameRows(m, m, t, [], users, keys);
    } else if step.TurnCheck? {
      TurnStepSame(w, m, step.call, step.readFails, t, c, id, users, keys);
    } else if step.BudgetCheck? {
      BudgetStepSame(w, m, step.call, step.readFails, t, c, id, users, keys);
    } else if step.Insert? {
      keys' := InsertStepSame(w, m, step.call, step.fails, t, c, id, users, keys);
    } else if step.EraseAccount? {
      keys' := EraseStepSame(w, m, step.user, t, c, id, users, keys);
    } else {
      QuietStepSame(w, m, step, t, users, keys);
    }
  }

  lemma QuietStepSame(w: M.Setting, m: M.State, step: M.Step, t: State, users: set<string>, keys: seq<Key>)
    requires Same(m, t, users, keys) && ByUsers(step, users)
    requires !step.Insert? && !step.EraseAccount?
    ensures Runs(t, []) && Same(M.Apply(w, m, step), Exec(t, []), users, keys)
  {
    FlightsOfUsers(w, m, step, users);
    QuietStep(w, m, step);
    SameRows(m, M.Apply(w, m, step), t, [], users, keys);
  }

  lemma QuietStep(w: M.Setting, m: M.State, step: M.Step)
    requires !step.Insert? && !step.EraseAccount?
    ensures M.Apply(w, m, step).log == m.log && M.Apply(w, m, step).erased == m.erased
  {
  }

  /** Nobody has the empty id. */
  lemma NobodyErased(m: M.State, m': M.State, t: State, users: set<string>, keys: seq<Key>)
    requires Same(m, t, users, keys)
    requires m'.log == Budget.Live(m.log, {""}) && m'.erased == m.erased + {""} && m'.flights == m.flights
    ensures Runs(t, []) && Same(m', Exec(t, []), users, keys)
  {
    Budget.LiveOfLive(m.log, {""});
    assert forall u :: u in users ==> (u in m'.erased <==> u in m.erased);
  }

  lemma EraseStepSame(w: M.Setting, m: M.State, u: string, t: State, c: nat, id: string, users: set<string>,
                      keys: seq<Key>)
    returns (keys': seq<Key>)
    requires Same(m, t, users, keys)
    ensures
      var ts := Statements(m, t, M.EraseAccount(u), c, id);
      Runs(t, ts) && Same(M.Apply(w, m, M.EraseAccount(u)), Exec(t, ts), users, keys')
  {
    var m' := M.Apply(w, m, M.EraseAccount(u));
    if u == "" {
      NobodyErased(m, m', t, users, keys);
      keys' := keys;
    } else {
      keys' := EraseSame(m, m', t, c, u, users, keys);
    }
  }

  // ---- Whole runs ----

  predicate AllByUsers(steps: seq<M.Step>, users: set<string>) {
    forall i :: 0 <= i < |steps| ==> ByUsers(steps[i], users)
  }

  /** A run's transactions, each step on the connection and under the new id chosen for it. */
  ghost predicate Plays(w: M.Setting, m: M.State, steps: seq<M.Step>, t: State, ts: seq<Step>)
    decreases |steps|
  {
    if steps == [] then ts == []
    else exists c: nat, id: string, rest: seq<Step> ::
      PlaysFirst(w, m, steps, t, ts, c, id, rest)
  }

  ghost predicate PlaysFirst(w: M.Setting, m: M.State, steps: seq<M.Step>, t: State, ts: seq<Step>, c: nat,
                             id: string, rest: seq<Step>)
    requires steps != []
    decreases |steps|, 0
  {
    var now := Statements(m, t, steps[0], c, id);
    ts == now + rest && Runs(t, now) && Plays(w, M.Apply(w, m, steps[0]), steps[1..], Exec(t, now), rest)
  }

  /** Every run of metered calls and erasures is a run of such transactions. */
  lemma {:induction false} RunIsItsStatements(w: M.Setting, m: M.State, steps: seq<M.Step>, t: State,
                                             users: set<string>, keys: seq<Key>)
    returns (ts: seq<Step>, keys': seq<Key>)
    requires Same(m, t, users, keys) && AllByUsers(steps, users)
    ensures Plays(w, m, steps, t, ts) && Runs(t, ts) && Same(M.Exec(w, m, steps), Exec(t, ts), users, keys')
    decreases |steps|
  {
    if steps == [] {
      ts, keys' := [], keys;
    } else {
      var id := SomeNewId(t);
      keys' := StepIsItsStatements(w, m, steps[0], t, 0, id, users, keys);
      var now := Statements(m, t, steps[0], 0, id);
      var rest;
      rest, keys' := RunIsItsStatements(w, M.Apply(w, m, steps[0]), steps[1..], Exec(t, now), users, keys');
      RunsAppend(t, now, rest);
      ts := now + rest;
      assert PlaysFirst(w, m, steps, t, ts, 0, id, rest);
    }
  }

  /** A store in which the users have their accounts and nobody has used anything. */
  ghost predicate Unused(t: State, users: set<string>) {
    && Inv(t) && Integral(t.db) && AllIdle(t) && Usage(t.db) == map[] && "" !in users
    && forall u :: u in users ==> Key(Users, u) in t.db
  }

  /** What a user's usage rows of one month cost. */
  ghost function MonthCost(db: Db, u: string, month: nat): real {
    Total(Usage(db), MonthWeight(u, month))
  }

  /** The bound on overshoot, of the rows in the database: whatever calls and
      erasures interleave, as the transactions they are, a user's usage rows of any
      month cost less than the cap plus the ceilings of the attempts in flight. */
  lemma StoredSpendIsBounded(w: M.Setting, start: nat, steps: seq<M.Step>, user: string, n: nat, month: nat,
                             t: State, users: set<string>)
    returns (ts: seq<Step>)
    requires w.cap > 0.0 && w.ceiling >= 0.0 && MeteringProperties.Calm(w, M.Initial(start), steps, user, n)
    requires Unused(t, users) && AllByUsers(steps, users)
    ensures Plays(w, M.Initial(start), steps, t, ts) && Runs(t, ts)
    ensures MonthCost(Exec(t, ts).db, user, month) < w.cap + MeteringProperties.Times(n, w.ceiling)
  {
    var keys;
    ts, keys := RunIsItsStatements(w, M.Initial(start), steps, t, users, []);
    var m := M.Exec(w, M.Initial(start), steps);
    MeteringProperties.OvershootIsBounded(w, start, steps, user, n, month);
    HoldsTotal(Usage(Exec(t, ts).db), m.log, keys, MonthWeight(user, month));
    SumOfMonth(m.log, user, month);
  }
}
