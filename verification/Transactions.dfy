/** One transaction among the steps of all others: what they leave of it, and what
    its statements do. */
module Transactions {
  import opened Wrappers
  import opened Schema
  import opened RowSecurity
  import opened Tenancy

  predicate Known(answers: seq<Option<Db>>, p: Key) {
    exists i :: 0 <= i < |answers| && answers[i].Some? && p in answers[i].value
  }

  /** A new row fits its table, and its parents are the user or rows that were
      returned by an earlier statement or are known from an earlier transaction. */
  predicate Placed(stmt: Statement, u: string, answers: seq<Option<Db>>, known: set<Key>) {
    stmt.Insert? ==>
      && Declared(stmt.key, stmt.row)
      && forall p :: p in Refs(stmt.row) ==> p == Key(Users, u) || p in known || Known(answers, p)
  }

  predicate SeenAll(s: State, u: string, known: set<Key>) {
    forall p :: p in known ==> Seen(s, u, p)
  }

  lemma SeenLasts(s: State, s': State, u: string, known: set<Key>)
    requires SeenAll(s, u, known) && ShownTo(s, u) <= ShownTo(s', u)
    ensures SeenAll(s', u, known)
  {
    forall p | p in known ensures Seen(s', u, p) {
      var i :| 0 <= i < |ShownTo(s, u)| && ShownTo(s, u)[i].Some? && p in ShownTo(s, u)[i].value;
      assert ShownTo(s', u)[i] == ShownTo(s, u)[i];
    }
  }

  predicate IsOn(step: Step, c: nat) {
    match step
    case Begin(d, _) => d == c
    case SetUser(d) => d == c
    case Run(d, _) => d == c
    case Fault(d) => d == c
    case Commit(d) => d == c
    case Rollback(d) => d == c
    case CreateAccount(_, _) => false
  }

  /** The steps that can happen while connection `c` is checked out. */
  function Elsewhere(s: State, c: nat, u: string, alone: bool, steps: seq<Step>): (r: seq<Step>)
    ensures Runs(s, r)
    ensures forall i :: 0 <= i < |r| ==> !IsOn(r[i], c)
    ensures alone ==> NoneBy(s, r, u)
    decreases |steps|
  {
    if steps == [] then []
    else if !IsOn(steps[0], c) && Enabled(s, steps[0]) && (alone ==> Actor(s, steps[0]) != u) then
      var rest := Elsewhere(Apply(s, steps[0]), c, u, alone, steps[1..]);
      assert ([steps[0]] + rest)[1..] == rest;
      [steps[0]] + rest
    else Elsewhere(s, c, u, alone, steps[1..])
  }

  /** No step of the run is taken on behalf of `u`. */
  predicate NoneBy(s: State, steps: seq<Step>, u: string)
    requires Runs(s, steps)
    decreases |steps|
  {
    steps == [] || (Actor(s, steps[0]) != u && NoneBy(Apply(s, steps[0]), steps[1..], u))
  }

  lemma {:induction false} OthersLeavePart(s: State, steps: seq<Step>, u: string)
    requires Inv(s) && Runs(s, steps) && NoneBy(s, steps, u)
    ensures Part(Exec(s, steps).db, u) == Part(s.db, u)
    decreases |steps|
  {
    if steps != [] {
      StepTouchesOnlyOwn(s, steps[0], u);
      StepKeepsInv(s, steps[0]);
      OthersLeavePart(Apply(s, steps[0]), steps[1..], u);
    }
  }

  /** The user has no transaction open but on connection `c`. */
  ghost predicate OpenOnlyOn(s: State, u: string, c: nat) {
    forall d :: d != c && ConnOf(s, d).Open? ==> ConnOf(s, d).user != u
  }

  ghost predicate NothingOpen(s: State, u: string) {
    forall d :: ConnOf(s, d).Open? ==> ConnOf(s, d).user != u
  }

  lemma OthersOpenNothingNow(s: State, step: Step, u: string, c: nat)
    requires Enabled(s, step) && Actor(s, step) != u && OpenOnlyOn(s, u, c)
    ensures OpenOnlyOn(Apply(s, step), u, c)
  {
    var s' := Apply(s, step);
    forall d | d != c && ConnOf(s', d).Open? ensures ConnOf(s', d).user != u {
      UserOfConn(s, step, d);
    }
  }

  /** A connection that is open was so for the same user before, or was opened by
      the step. */
  lemma UserOfConn(s: State, step: Step, d: nat)
    requires Enabled(s, step) && ConnOf(Apply(s, step), d).Open?
    ensures
      var u := ConnOf(Apply(s, step), d).user;
      (ConnOf(s, d).Open? && ConnOf(s, d).user == u) || step == Begin(d, u)
  {
    if step.Run? {
      ShownAfterRun(s, step.conn, step.stmt, EffectOf(s, step.conn, step.stmt), "");
    }
  }

  lemma {:induction false} OthersOpenNothing(s: State, steps: seq<Step>, u: string, c: nat)
    requires Runs(s, steps) && NoneBy(s, steps, u) && OpenOnlyOn(s, u, c)
    ensures OpenOnlyOn(Exec(s, steps), u, c)
    decreases |steps|
  {
    if steps != [] {
      OthersOpenNothingNow(s, steps[0], u, c);
      OthersOpenNothing(Apply(s, steps[0]), steps[1..], u, c);
    }
  }

  /** The pool can always hand out a connection. */
  lemma SomeIdle(s: State)
    ensures exists c :: ConnOf(s, c).Idle?
  {
    NotAll(s.conns.Keys);
    var c: nat :| c !in s.conns.Keys;
    assert ConnOf(s, c).Idle?;
  }

  lemma {:induction false} NotAll(taken: set<nat>)
    ensures exists c: nat :: c !in taken
  {
    var c := Above(taken);
    assert c !in taken;
  }

  lemma {:induction false} Above(taken: set<nat>) returns (c: nat)
    ensures forall x :: x in taken ==> x < c
    decreases |taken|
  {
    if taken == {} {
      c := 0;
    } else {
      var x :| x in taken;
      c := Above(taken - {x});
      assert forall y :: y in taken ==> y == x || y in taken - {x};
      c := if x < c then c else x + 1;
    }
  }

  lemma {:induction false} RunsAppend(s: State, a: seq<Step>, b: seq<Step>)
    requires Runs(s, a) && Runs(Exec(s, a), b)
    ensures Runs(s, a + b) && Exec(s, a + b) == Exec(Exec(s, a), b)
    decreases |a|
  {
    if a == [] {
      assert a + b == b;
    } else {
      assert (a + b)[1..] == a[1..] + b;
      RunsAppend(Apply(s, a[0]), a[1..], b);
    }
  }

  predicate Includes(a: seq<Option<Db>>, b: seq<Option<Db>>) {
    forall i :: 0 <= i < |a| ==> a[i] in b
  }

  /** What others do leaves the connection as it is and takes no result back. */
  lemma {:induction false} ElsewhereLeaves(s: State, c: nat, steps: seq<Step>, u: string)
    requires Runs(s, steps) && forall i :: 0 <= i < |steps| ==> !IsOn(steps[i], c)
    ensures ConnOf(Exec(s, steps), c) == ConnOf(s, c)
    ensures ShownTo(s, u) <= ShownTo(Exec(s, steps), u)
    decreases |steps|
  {
    if steps != [] {
      ElsewhereLeavesOne(s, c, steps[0], u);
      ElsewhereLeaves(Apply(s, steps[0]), c, steps[1..], u);
    }
  }

  lemma ElsewhereLeavesOne(s: State, c: nat, step: Step, u: string)
    requires Enabled(s, step) && !IsOn(step, c)
    ensures ConnOf(Apply(s, step), c) == ConnOf(s, c)
    ensures ShownTo(s, u) <= ShownTo(Apply(s, step), u)
  {
    if step.Run? {
      ShownAfterRun(s, step.conn, step.stmt, EffectOf(s, step.conn, step.stmt), u);
    }
  }

  lemma ShownAfterRun(s: State, c: nat, stmt: Statement, e: Option<Effect>, u: string)
    requires ConnOf(s, c).Open?
    ensures ShownTo(AfterRun(s, c, stmt, e), u) ==
      ShownTo(s, u) + if u == ConnOf(s, c).user then [if e == None then None else Some(e.value.rows)] else []
    ensures forall d :: d != c ==> ConnOf(AfterRun(s, c, stmt, e), d) == ConnOf(s, d)
    ensures ConnOf(AfterRun(s, c, stmt, e), c).Open? && ConnOf(AfterRun(s, c, stmt, e), c).user == ConnOf(s, c).user
  {
  }

  /** The uncommitted writes of a user's statements, each seeing the ones before. */
  function Written(db: Db, u: string, stmts: seq<Statement>): Overlay {
    if stmts == [] then map[]
    else
      var before := Written(db, u, stmts[..|stmts| - 1]);
      match Execute(Some(u), Merge(db, before), stmts[|stmts| - 1])
      case None => before
      case Some(e) => before + e.writes
  }

  lemma WrittenOneMore(db: Db, u: string, stmts: seq<Statement>, stmt: Statement)
    ensures
      var before := Written(db, u, stmts);
      var e := Execute(Some(u), Merge(db, before), stmt);
      Written(db, u, stmts + [stmt]) == if e == None then before else before + e.value.writes
  {
    assert (stmts + [stmt])[..|stmts|] == stmts;
  }

  ghost predicate CommitsOnly(trace: seq<Step>, c: nat, last: bool) {
    forall i :: 0 <= i < |trace| ==> (trace[i] == Commit(c) <==> last && i == |trace| - 1)
  }

  /** Every statement was answered with what it returns on the user's rows alone,
      the earlier ones done. */
  predicate AnsweredOn(part: Db, u: string, stmts: seq<Statement>, answers: seq<Option<Db>>) {
    && |answers| == |stmts|
    && forall i :: 0 <= i < |stmts| ==>
         var e := Execute(Some(u), Merge(part, Written(part, u, stmts[..i])), stmts[i]);
         e.Some? && answers[i] == Some(e.value.rows)
  }

  lemma AnsweredOneMore(part: Db, u: string, stmts: seq<Statement>, answers: seq<Option<Db>>, stmt: Statement, rows: Db)
    requires AnsweredOn(part, u, stmts, answers)
    requires
      var e := Execute(Some(u), Merge(part, Written(part, u, stmts)), stmt);
      e.Some? && rows == e.value.rows
    ensures AnsweredOn(part, u, stmts + [stmt], answers + [Some(rows)])
  {
    var more := stmts + [stmt];
    forall i | 0 <= i < |more| ensures more[..i] == if i < |stmts| then stmts[..i] else stmts {
    }
  }

  /** The rows inserted are there. */
  predicate Landed(o: Overlay, stmts: seq<Statement>) {
    forall i :: 0 <= i < |stmts| && stmts[i].Insert? ==> stmts[i].key in o && o[stmts[i].key] == Some(stmts[i].row)
  }

  predicate LandedIn(db: Db, stmts: seq<Statement>) {
    forall i :: 0 <= i < |stmts| && stmts[i].Insert? ==> stmts[i].key in db && db[stmts[i].key] == stmts[i].row
  }

  predicate OnlyInserts(stmts: seq<Statement>) {
    forall i :: 0 <= i < |stmts| ==> stmts[i].Insert?
  }

  lemma MergeLands(db: Db, o: Overlay, stmts: seq<Statement>)
    requires Landed(o, stmts)
    ensures LandedIn(Merge(db, o), stmts)
  {
  }

  /** Every answer holds rows that were written for the user. */
  predicate OwnAnswers(s: State, u: string, answers: seq<Option<Db>>) {
    forall i :: 0 <= i < |answers| && answers[i].Some? ==> OwnKeys(s.born, u, answers[i].value)
  }

  lemma ShownIsOwn(s: State, u: string, answers: seq<Option<Db>>)
    requires Inv(s) && Includes(answers, ShownTo(s, u))
    ensures OwnAnswers(s, u, answers)
  {
    assert OwnHistory(s.born, u, ShownTo(s, u));
    forall i | 0 <= i < |answers| && answers[i].Some? ensures OwnKeys(s.born, u, answers[i].value) {
      assert answers[i] in ShownTo(s, u);
    }
  }

  ghost predicate InTransaction(s: State, c: nat, u: string) {
    ConnOf(s, c).Open? && ConnOf(s, c).user == u && ConnOf(s, c).v == Some(u)
  }

  /** The steps that are nobody's but others'. */
  function Unrelated(s: State, u: string, steps: seq<Step>): (r: seq<Step>)
    ensures Runs(s, r) && NoneBy(s, r, u)
    decreases |steps|
  {
    if steps == [] then []
    else if Enabled(s, steps[0]) && Actor(s, steps[0]) != u then
      var rest := Unrelated(Apply(s, steps[0]), u, steps[1..]);
      assert ([steps[0]] + rest)[1..] == rest;
      [steps[0]] + rest
    else Unrelated(s, u, steps[1..])
  }

  lemma OthersOpenNothingAtAll(s: State, steps: seq<Step>, u: string)
    requires Runs(s, steps) && NoneBy(s, steps, u) && NothingOpen(s, u)
    ensures NothingOpen(Exec(s, steps), u)
  {
    OthersOpenNothing(s, steps, u, 0);
    OthersOpenNothing(s, steps, u, 1);
  }

  /** What a step of a connection makes of it. */
  function ConnAfter(conn: Conn, step: Step): Conn {
    match step
    case Begin(_, u) => if conn.Idle? then Open(u, conn.v, map[], false) else conn
    case SetUser(_) => if conn.Open? then conn.(v := Some(conn.user)) else conn
    case Fault(_) => if conn.Open? then conn.(failed := true) else conn
    case Commit(_) => Idle(Reset(conn.v))
    case Rollback(_) => Idle(Reset(conn.v))
    case _ => conn
  }

  /** What a step of a connection makes of its user's committed rows. */
  function PartAfter(part: Db, conn: Conn, step: Step): Db {
    if step.Commit? && conn.Open? && !conn.failed then Merge(part, conn.overlay) else part
  }

  lemma PartAfterStep(s: State, step: Step, c: nat, u: string)
    requires Inv(s) && Enabled(s, step) && IsOn(step, c) && !step.Run? && !step.CreateAccount?
    requires step.Commit? ==> ConnOf(s, c).user == u
    ensures Part(Apply(s, step).db, u) == PartAfter(Part(s.db, u), ConnOf(s, c), step)
  {
    if step.Commit? {
      assert ConnOk(s.born, ConnOf(s, c));
      OwnPartOfView(s.born, s.db, ConnOf(s, c).overlay, u);
    }
  }

  /** A statement has the effect it would have if its user's rows were all there is. */
  lemma OwnPartSuffices(s: State, c: nat, u: string, stmt: Statement)
    requires Inv(s) && Enabled(s, Run(c, stmt)) && ConnOf(s, c).user == u && ConnOf(s, c).v == Some(u)
    ensures Execute(Some(u), View(s, ConnOf(s, c)), stmt) ==
            Execute(Some(u), Merge(Part(s.db, u), ConnOf(s, c).overlay), stmt)
  {
    var conn := ConnOf(s, c);
    var view := View(s, conn);
    var own := Merge(Part(s.db, u), conn.overlay);
    assert ConnOk(s.born, conn);
    ViewIsHomed(s.born, s.db, conn.overlay, u);
    OwnPartOfView(s.born, s.db, conn.overlay, u);
    assert own == Part(view, u) && Part(own, u) == Part(view, u);
    assert Homed(s.born, own);
    if stmt.Insert? {
      assert OwnHistory(s.born, u, ShownTo(s, u));
      forall p | p in Refs(stmt.row) ensures p in view <==> p in own {
        OwnRowInBoth(s.born, s.born, view, own, p, u);
      }
    }
    ExecuteIsLocal(s.born, s.born, Some(u), Some(u), view, own, stmt, u);
  }

  lemma StepOnConn(s: State, step: Step, c: nat, u: string)
    requires Enabled(s, step) && IsOn(step, c) && !step.Run? && !step.CreateAccount?
    ensures ConnOf(Apply(s, step), c) == ConnAfter(ConnOf(s, c), step)
    ensures ShownTo(s, u) <= ShownTo(Apply(s, step), u)
    ensures step.Fault? && ConnOf(s, c).user == u ==> None in ShownTo(Apply(s, step), u)
    ensures Apply(s, step).db == if step.Commit? && !ConnOf(s, c).failed then View(s, ConnOf(s, c)) else s.db
    ensures forall d :: d != c ==> ConnOf(Apply(s, step), d) == ConnOf(s, d)
  {
    if step.Fault? {
      ShownAfterRun(s, c, Query((_, _) => false), None, u);
    }
  }

  /** A new row's id that was used before is refused like any failing statement. */
  function StepFor(s: State, c: nat, stmt: Statement, fails: bool): Step {
    if fails || (stmt.Insert? && stmt.key in s.born) then Fault(c) else Run(c, stmt)
  }

  function ConnAfterEffect(conn: Conn, e: Option<Effect>): Conn
    requires conn.Open?
  {
    match e
    case None => conn.(failed := true)
    case Some(e) => conn.(overlay := conn.overlay + e.writes)
  }

  lemma StatementStep(s: State, c: nat, u: string, stmt: Statement, fails: bool, answers: seq<Option<Db>>,
                      known: set<Key>)
    requires ConnOk(s.born, ConnOf(s, c)) && ConnOf(s, c).Open? && ConnOf(s, c).user == u
    requires Includes(answers, ShownTo(s, u)) && Placed(stmt, u, answers, known) && SeenAll(s, u, known)
    ensures
      var step := StepFor(s, c, stmt, fails);
      && Enabled(s, step)
      && var e := if step.Fault? then None else EffectOf(s, c, stmt);
      && (e.Some? ==> !ConnOf(s, c).failed)
      && ConnOf(Apply(s, step), c) == ConnAfterEffect(ConnOf(s, c), e)
      && Apply(s, step).db == s.db && ShownTo(s, u) <= ShownTo(Apply(s, step), u)
      && Includes(answers + [if e == None then None else Some(e.value.rows)], ShownTo(Apply(s, step), u))
  {
    KnownIsSeen(s, answers, u);
    var step := StepFor(s, c, stmt, fails);
    var e := if step.Fault? then None else EffectOf(s, c, stmt);
    ShownAfterRun(s, c, stmt, e, u);
    assert forall r :: r in ShownTo(s, u) ==> r in ShownTo(Apply(s, step), u);
  }

  /** What a statement comes to, a fault included. */
  function EffectFor(s: State, c: nat, stmt: Statement, fails: bool): Option<Effect>
    requires ConnOf(s, c).Open?
  {
    if StepFor(s, c, stmt, fails).Fault? then None else EffectOf(s, c, stmt)
  }

  function AnswerOf(e: Option<Effect>): Option<Db> {
    if e == None then None else Some(e.value.rows)
  }

  /** What a statement does to its transaction and to what its user sees. */
  lemma StatementKeeps(s: State, c: nat, u: string, stmt: Statement, fails: bool, answers: seq<Option<Db>>,
                       known: set<Key>)
    requires Inv(s) && InTransaction(s, c, u) && Includes(answers, ShownTo(s, u)) && Placed(stmt, u, answers, known)
    requires SeenAll(s, u, known)
    ensures Enabled(s, StepFor(s, c, stmt, fails))
    ensures
      var s', answer := Apply(s, StepFor(s, c, stmt, fails)), AnswerOf(EffectFor(s, c, stmt, fails));
      && Inv(s') && InTransaction(s', c, u) && SeenAll(s', u, known) && s'.db == s.db
      && Includes(answers + [answer], ShownTo(s', u))
      && ConnOf(s', c).failed == (ConnOf(s, c).failed || answer == None)
      && (ConnOf(s, c).failed ==> answer == None)
      && ShownTo(s, u) <= ShownTo(s', u)
  {
    assert ConnOk(s.born, ConnOf(s, c));
    StatementStep(s, c, u, stmt, fails, answers, known);
    StepKeepsInv(s, StepFor(s, c, stmt, fails));
    SeenLasts(s, Apply(s, StepFor(s, c, stmt, fails)), u, known);
  }

  lemma StatementOpensNothing(s: State, c: nat, u: string, stmt: Statement, fails: bool)
    requires Enabled(s, StepFor(s, c, stmt, fails)) && OpenOnlyOn(s, u, c)
    ensures OpenOnlyOn(Apply(s, StepFor(s, c, stmt, fails)), u, c)
  {
    var step := StepFor(s, c, stmt, fails);
    forall d | d != c && ConnOf(Apply(s, step), d).Open? ensures ConnOf(Apply(s, step), d).user != u {
      UserOfConn(s, step, d);
    }
  }

  /** What a statement returned and wrote, were the user's rows all there is. */
  predicate EffectOn(part: Db, u: string, before: Overlay, after: Overlay, stmt: Statement, answer: Option<Db>) {
    answer.Some? ==>
      var e := Execute(Some(u), Merge(part, before), stmt);
      e.Some? && answer.value == e.value.rows && after == before + e.value.writes
  }

  lemma EffectOnConn(s: State, c: nat, stmt: Statement, e: Option<Effect>)
    requires ConnOf(s, c).Open?
    ensures ConnOf(AfterRun(s, c, stmt, e), c) == ConnAfterEffect(ConnOf(s, c), e)
  {
  }

  lemma RunEffect(s: State, c: nat, u: string, stmt: Statement)
    requires Inv(s) && InTransaction(s, c, u) && Enabled(s, Run(c, stmt)) && EffectOf(s, c, stmt).Some?
    ensures
      var e := EffectOf(s, c, stmt).value;
      EffectOn(Part(s.db, u), u, ConnOf(s, c).overlay, ConnOf(s, c).overlay + e.writes, stmt, Some(e.rows))
  {
    OwnPartSuffices(s, c, u, stmt);
  }

  lemma InsertEffect(s: State, c: nat, stmt: Statement)
    requires Inv(s) && stmt.Insert? && stmt.key !in s.born && ConnOf(s, c).Open? && EffectOf(s, c, stmt).Some?
    ensures stmt.key !in ConnOf(s, c).overlay && EffectOf(s, c, stmt).value.writes == map[stmt.key := Some(stmt.row)]
  {
    assert ConnOk(s.born, ConnOf(s, c));
  }

  /** The statement took effect. */
  lemma StatementTakes(s: State, c: nat, u: string, stmt: Statement, e: Effect)
    requires Inv(s) && InTransaction(s, c, u) && Enabled(s, Run(c, stmt)) && EffectOf(s, c, stmt) == Some(e)
    ensures EffectOn(Part(s.db, u), u, ConnOf(s, c).overlay, ConnOf(s, c).overlay + e.writes, stmt, Some(e.rows))
  {
    RunEffect(s, c, u, stmt);
  }

  lemma InsertTakes(s: State, c: nat, stmt: Statement, e: Effect)
    requires Inv(s) && ConnOf(s, c).Open? && Enabled(s, Run(c, stmt)) && EffectOf(s, c, stmt) == Some(e) && stmt.Insert?
    ensures stmt.key !in ConnOf(s, c).overlay
    ensures ConnOf(s, c).overlay + e.writes == ConnOf(s, c).overlay[stmt.key := Some(stmt.row)]
  {
    InsertEffect(s, c, stmt);
    AddOne(ConnOf(s, c).overlay, stmt.key, Some(stmt.row));
  }

  lemma AddOne(o: Overlay, k: Key, v: Option<Row>)
    ensures o + map[k := v] == o[k := v]
  {
  }

  /** Only a fault or a refused insert makes the first statement fail. */
  lemma StatementFails(s: State, c: nat, stmt: Statement, fails: bool)
    requires ConnOf(s, c).Open? && !ConnOf(s, c).failed && EffectFor(s, c, stmt, fails) == None
    ensures fails || stmt.Insert?
  {
    OnlyInsertsFail(ConnOf(s, c).v, View(s, ConnOf(s, c)), stmt);
  }

  /** The row may be inserted by the user where its user's rows are these: it is the
      user's own, and what it refers to is there. */
  predicate RowFits(rows: Db, u: string, row: Row) {
    row.owner == u && Refs(row) <= rows.Keys
  }

  /** An insert that does not fail of itself is refused only for an id that was used
      before or a row that does not fit. */
  lemma InsertIsRefused(s: State, c: nat, u: string, stmt: Statement, fails: bool)
    requires Inv(s) && InTransaction(s, c, u) && !ConnOf(s, c).failed && stmt.Insert? && u != ""
    requires Enabled(s, StepFor(s, c, stmt, fails)) && EffectFor(s, c, stmt, fails) == None
    ensures fails || stmt.key in s.born || !RowFits(Merge(Part(s.db, u), ConnOf(s, c).overlay), u, stmt.row)
  {
    if !fails && stmt.key !in s.born {
      OwnPartSuffices(s, c, u, stmt);
      OwnKeysAreBorn(s, c, u);
    }
  }

  lemma OwnKeysAreBorn(s: State, c: nat, u: string)
    requires Inv(s) && InTransaction(s, c, u)
    ensures Merge(Part(s.db, u), ConnOf(s, c).overlay).Keys <= s.born.Keys
  {
    assert ConnOk(s.born, ConnOf(s, c));
    forall k | k in Merge(Part(s.db, u), ConnOf(s, c).overlay) ensures k in s.born {
      if k !in ConnOf(s, c).overlay { assert AtHome(s.born, k, s.db[k]); }
    }
  }

  /** Keys once used stay used. */
  lemma BornGrows(s: State, steps: seq<Step>)
    requires Inv(s) && Runs(s, steps)
    ensures s.born.Keys <= Exec(s, steps).born.Keys
  {
    BornOnce(s, steps);
  }

  lemma BornAfter(s: State, step: Step)
    requires Inv(s) && Enabled(s, step)
    ensures s.born.Keys <= Apply(s, step).born.Keys
  {
    BornGrows(s, [step]);
    RunOne(s, step);
  }

  lemma StepForIs(s: State, c: nat, stmt: Statement, fails: bool)
    requires ConnOf(s, c).Open? && Enabled(s, StepFor(s, c, stmt, fails))
    ensures Apply(s, StepFor(s, c, stmt, fails)) == AfterRun(s, c, stmt, EffectFor(s, c, stmt, fails))
  {
  }

  lemma OnlyInsertsFail(v: Variable, view: Db, stmt: Statement)
    ensures Execute(v, view, stmt) == None ==> stmt.Insert?
  {
  }

  lemma KnownIsSeen(s: State, answers: seq<Option<Db>>, u: string)
    requires Includes(answers, ShownTo(s, u))
    ensures forall p :: Known(answers, p) ==> Seen(s, u, p)
  {
    forall p | Known(answers, p) ensures Seen(s, u, p) {
      var i :| 0 <= i < |answers| && answers[i].Some? && p in answers[i].value;
      assert answers[i] in ShownTo(s, u);
    }
  }

  /** A key belongs to the user it was first written for. */
  lemma {:induction false} BornOnce(s: State, steps: seq<Step>)
    requires Inv(s) && Runs(s, steps)
    ensures Extends(s.born, Exec(s, steps).born)
    decreases |steps|
  {
    if steps != [] {
      if steps[0].Run? {
        EffectIsAtHome(s, steps[0].conn, steps[0].stmt);
      }
      StepKeepsInv(s, steps[0]);
      BornOnce(Apply(s, steps[0]), steps[1..]);
    }
  }

  lemma {:induction false} RunsSplits(s: State, a: seq<Step>, b: seq<Step>)
    requires Runs(s, a + b)
    ensures Runs(s, a) && Runs(Exec(s, a), b) && Exec(s, a + b) == Exec(Exec(s, a), b)
    decreases |a|
  {
    if a == [] {
      assert a + b == b;
    } else {
      assert (a + b)[0] == a[0] && (a + b)[1..] == a[1..] + b;
      RunsSplits(Apply(s, a[0]), a[1..], b);
    }
  }

  lemma {:induction false} ShownGrows(s: State, steps: seq<Step>, u: string)
    requires Runs(s, steps)
    ensures ShownTo(s, u) <= ShownTo(Exec(s, steps), u)
    decreases |steps|
  {
    if steps != [] {
      if steps[0].Run? {
        ShownAfterRun(s, steps[0].conn, steps[0].stmt, EffectOf(s, steps[0].conn, steps[0].stmt), u);
      }
      ShownGrows(Apply(s, steps[0]), steps[1..], u);
    }
  }

  /** What a user has seen stays seen while a history goes on. */
  lemma SeenGoesOn(origin: State, before: seq<Step>, after: seq<Step>, u: string, known: set<Key>)
    requires before <= after && Runs(origin, after) && Runs(origin, before) && SeenAll(Exec(origin, before), u, known)
    ensures SeenAll(Exec(origin, after), u, known)
  {
    assert after == before + after[|before|..];
    RunsSplits(origin, before, after[|before|..]);
    ShownGrows(Exec(origin, before), after[|before|..], u);
    SeenLasts(Exec(origin, before), Exec(origin, after), u, known);
  }

  lemma GoesOn(a: seq<Step>, b: seq<Step>, c: seq<Step>)
    requires a <= b <= c
    ensures a <= c
  {
  }

  lemma OneStepMore(start: State, before: seq<Step>, step: Step, c: nat)
    requires Runs(start, before) && Enabled(Exec(start, before), step) && CommitsOnly(before, c, false)
    ensures Runs(start, before + [step]) && Exec(start, before + [step]) == Apply(Exec(start, before), step)
    ensures CommitsOnly(before + [step], c, step == Commit(c))
  {
    RunsAppend(start, before, [step]);
    assert [step][1..] == [];
  }

  // ---- A transaction step by step ----

  lemma RunOne(t: State, step: Step)
    requires Enabled(t, step)
    ensures Runs(t, [step]) && Exec(t, [step]) == Apply(t, step)
  {
    assert [step][1..] == [];
  }

  lemma RunMore(t: State, step: Step, rest: seq<Step>)
    requires Enabled(t, step) && Runs(Apply(t, step), rest)
    ensures Runs(t, [step] + rest) && Exec(t, [step] + rest) == Exec(Apply(t, step), rest)
  {
    assert ([step] + rest)[1..] == rest;
  }

  lemma RunThree(t: State, x: Step, y: Step, z: Step)
    requires Enabled(t, x) && Enabled(Apply(t, x), y) && Enabled(Apply(Apply(t, x), y), z)
    ensures Runs(t, [x, y, z]) && Exec(t, [x, y, z]) == Apply(Apply(Apply(t, x), y), z)
  {
    RunOne(Apply(Apply(t, x), y), z);
    RunMore(Apply(t, x), y, [z]);
    RunMore(t, x, [y] + [z]);
    assert [x] + ([y] + [z]) == [x, y, z];
  }

  /** Begin and set_config on a connection that was idle. */
  lemma Scoped(t: State, c: nat, u: string)
    requires ConnOf(t, c).Idle? && u != ""
    ensures Enabled(t, Begin(c, u)) && Enabled(Apply(t, Begin(c, u)), SetUser(c))
    ensures
      var t' := Apply(Apply(t, Begin(c, u)), SetUser(c));
      && t'.db == t.db && t'.born == t.born && ConnOf(t', c) == Open(u, Some(u), map[], false)
      && (forall d :: d != c ==> ConnOf(t', d) == ConnOf(t, d))
  {
  }

  /** A statement that inserts nothing changes its own connection alone. */
  lemma StatementOnConn(t: State, c: nat, stmt: Statement)
    requires ConnOf(t, c).Open? && !stmt.Insert?
    ensures
      var t' := Apply(t, Run(c, stmt));
      && t'.db == t.db && t'.born == t.born
      && (forall d :: d != c ==> ConnOf(t', d) == ConnOf(t, d))
      && ConnOf(t', c) == ConnAfterEffect(ConnOf(t, c), EffectOf(t, c, stmt))
  {
    EffectOnConn(t, c, stmt, EffectOf(t, c, stmt));
    ShownAfterRun(t, c, stmt, EffectOf(t, c, stmt), "");
  }
}
