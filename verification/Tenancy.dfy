/** Many connections, many users: whatever the schedule, no user's work reads,
    changes or even delays into view another user's rows. A statement may run
    here on a snapshot a lock would have made it wait for; that only adds runs. */
module Tenancy {
  import opened Wrappers
  import opened Schema
  import opened RowSecurity

  datatype Conn =
    | Idle(v: Variable)
    | Open(user: string, v: Variable, overlay: Overlay, failed: bool)

  /** `born` records every key ever written and for whom; `shown` what each
      user's statements returned, in order. */
  datatype State = State(db: Db, conns: map<nat, Conn>, born: map<Key, string>, shown: map<string, seq<Option<Db>>>)

  datatype Step =
    | Begin(conn: nat, user: string)     // pool.connect and BEGIN, on behalf of `user`
    | SetUser(conn: nat)                 // set_config('app.current_user_id', user, true)
    | Run(conn: nat, stmt: Statement)
    | Fault(conn: nat)                   // a statement fails for a reason of its own
    | Commit(conn: nat)
    | Rollback(conn: nat)
    | CreateAccount(user: string, identity: string)   // the sign-in function, outside any policy

  function ConnOf(s: State, c: nat): Conn {
    if c in s.conns then s.conns[c] else Idle(None)
  }

  function ShownTo(s: State, u: string): seq<Option<Db>> {
    if u in s.shown then s.shown[u] else []
  }

  predicate Seen(s: State, u: string, k: Key) {
    exists i :: 0 <= i < |ShownTo(s, u)| && ShownTo(s, u)[i].Some? && k in ShownTo(s, u)[i].value
  }

  function View(s: State, conn: Conn): Db
    requires conn.Open?
  {
    Merge(s.db, conn.overlay)
  }

  /** What a statement of connection `c` comes to. */
  function EffectOf(s: State, c: nat, stmt: Statement): Option<Effect>
    requires ConnOf(s, c).Open?
  {
    var conn := ConnOf(s, c);
    if conn.failed then None else Execute(conn.v, View(s, conn), stmt)
  }

  /** set_config(..., true) is undone at the end of the transaction, but leaves
      the empty string behind. */
  function Reset(v: Variable): Variable {
    if v == None then None else Some("")
  }

  /** Database ids are never reused, and the code gives a new row only parents it
      has read or written in the same user's name. */
  predicate Enabled(s: State, step: Step) {
    match step
    case Begin(c, u) => u != "" && ConnOf(s, c).Idle?
    case Run(c, stmt) =>
      && ConnOf(s, c).Open?
      && (stmt.Insert? ==>
            && stmt.key !in s.born && Declared(stmt.key, stmt.row)
            && forall p :: p in Refs(stmt.row) ==> p == Key(Users, ConnOf(s, c).user) || Seen(s, ConnOf(s, c).user, p))
    case CreateAccount(u, identity) => u != "" && Key(Users, u) !in s.born && Key(AuthIdentities, identity) !in s.born
    case SetUser(c) => ConnOf(s, c).Open?
    case Fault(c) => ConnOf(s, c).Open?
    case Commit(c) => ConnOf(s, c).Open?
    case Rollback(c) => ConnOf(s, c).Open?
  }

  function Show(s: State, u: string, rows: Option<Db>): State {
    s.(shown := s.shown[u := ShownTo(s, u) + [rows]])
  }

  /** A failed statement aborts its transaction. */
  function Fail(s: State, c: nat): State
    requires ConnOf(s, c).Open?
  {
    Show(s, ConnOf(s, c).user, None).(conns := s.conns[c := ConnOf(s, c).(failed := true)])
  }

  /** What a statement returns is shown to its user. */
  function AfterRun(s: State, c: nat, stmt: Statement, e: Option<Effect>): State
    requires ConnOf(s, c).Open?
  {
    var conn := ConnOf(s, c);
    match e
    case None => Fail(s, c)
    case Some(e) =>
      Show(s, conn.user, Some(e.rows))
        .(conns := s.conns[c := conn.(overlay := conn.overlay + e.writes)],
          born := if stmt.Insert? then s.born[stmt.key := conn.user] else s.born)
  }

  function Apply(s: State, step: Step): State
    requires Enabled(s, step)
  {
    match step
    case Begin(c, u) => s.(conns := s.conns[c := Open(u, ConnOf(s, c).v, map[], false)])
    case SetUser(c) => s.(conns := s.conns[c := ConnOf(s, c).(v := Some(ConnOf(s, c).user))])
    case Run(c, stmt) => AfterRun(s, c, stmt, EffectOf(s, c, stmt))
    case Fault(c) => Fail(s, c)
    case Commit(c) =>
      var conn := ConnOf(s, c);
      s.(db := if conn.failed then s.db else View(s, conn), conns := s.conns[c := Idle(Reset(conn.v))])
    case Rollback(c) => s.(conns := s.conns[c := Idle(Reset(ConnOf(s, c).v))])
    case CreateAccount(u, identity) =>
      s.(db := s.db[Key(Users, u) := Row(u, map[], map[])][Key(AuthIdentities, identity) :=
           Row(u, map[Users := u], map[])],
         born := s.born[Key(Users, u) := u][Key(AuthIdentities, identity) := u])
  }

  // ---- Every row stays at home ----

  /** The row, and every row it refers to, was written for its owner. */
  predicate AtHome(born: map<Key, string>, k: Key, row: Row) {
    && Declared(k, row) && k in born && born[k] == row.owner
    && forall p :: p in Refs(row) ==> p in born && born[p] == row.owner
  }

  predicate Homed(born: map<Key, string>, db: Db) {
    forall k :: k in db ==> AtHome(born, k, db[k])
  }

  predicate HomedOverlay(born: map<Key, string>, o: Overlay, u: string) {
    forall k :: k in o ==>
      k in born && born[k] == u && (o[k].Some? ==> o[k].value.owner == u && AtHome(born, k, o[k].value))
  }

  predicate ConnOk(born: map<Key, string>, conn: Conn) {
    match conn
    case Idle(v) => CurrentUser(v) == None
    case Open(u, v, o, _) =>
      u != "" && (CurrentUser(v) == None || CurrentUser(v) == Some(u)) && HomedOverlay(born, o, u)
  }

  /** Everything in the history is the user's own. */
  predicate OwnHistory(born: map<Key, string>, u: string, history: seq<Option<Db>>) {
    forall i :: 0 <= i < |history| && history[i].Some? ==> OwnKeys(born, u, history[i].value)
  }

  predicate OwnKeys(born: map<Key, string>, u: string, rows: Db) {
    forall k :: k in rows ==> k in born && born[k] == u
  }

  ghost predicate ConnsOk(s: State) {
    forall c :: ConnOk(s.born, ConnOf(s, c))
  }

  ghost predicate HistoriesOk(s: State) {
    forall u :: OwnHistory(s.born, u, ShownTo(s, u))
  }

  predicate UsersBornThemselves(born: map<Key, string>) {
    forall k :: k in born && k.table == Users ==> born[k] == k.id
  }

  ghost predicate Inv(s: State) {
    Homed(s.born, s.db) && ConnsOk(s) && HistoriesOk(s) && UsersBornThemselves(s.born)
  }

  /** Before anyone has signed in. */
  const EMPTY := State(map[], map[], map[], map[])

  lemma EmptyIsSound()
    ensures Inv(EMPTY)
  {
  }

  predicate Extends(born: map<Key, string>, born': map<Key, string>) {
    forall k :: k in born ==> k in born' && born'[k] == born[k]
  }

  lemma HomeLasts(s: State, s': State)
    requires Inv(s) && Extends(s.born, s'.born)
    ensures Homed(s'.born, s.db)
    ensures forall c :: ConnOk(s'.born, ConnOf(s, c))
    ensures forall u :: OwnHistory(s'.born, u, ShownTo(s, u))
  {
    forall c ensures ConnOk(s'.born, ConnOf(s, c)) {
      assert ConnOk(s.born, ConnOf(s, c));
    }
    forall u ensures OwnHistory(s'.born, u, ShownTo(s, u)) {
      assert OwnHistory(s.born, u, ShownTo(s, u));
    }
  }

  lemma ViewIsHomed(born: map<Key, string>, db: Db, o: Overlay, u: string)
    requires Homed(born, db) && HomedOverlay(born, o, u)
    ensures Homed(born, Merge(db, o))
  {
  }

  predicate RefsAtHome(born: map<Key, string>, row: Row) {
    forall p :: p in Refs(row) ==> p in born && born[p] == row.owner
  }

  /** A cascade that starts at a user's rows stays with the user's rows. */
  lemma CascadeStaysHome(born: map<Key, string>, view: Db, dead: set<Key>, u: string)
    requires Homed(born, view) && dead <= view.Keys && forall k :: k in dead ==> view[k].owner == u
    ensures forall k :: k in Doomed(view, dead) ==> view[k].owner == u
  {
    var own := Owned(view, u);
    forall k | k in Children(view, own) ensures k in own {
      var p :| p in Refs(view[k]) * own;
      assert born[p] == view[p].owner == view[k].owner;
    }
    DoomedIsLeastClosed(view, dead, own);
  }

  /** What a statement returns and writes is the current user's. */
  predicate EffectAtHome(born: map<Key, string>, u: string, e: Option<Effect>) {
    e.Some? ==> OwnKeys(born, u, e.value.rows) && HomedOverlay(born, e.value.writes, u)
  }

  lemma MatchingIsOwn(born: map<Key, string>, v: Variable, view: Db, filter: (Key, Row) -> bool, u: string)
    requires Homed(born, view) && (CurrentUser(v) == None || CurrentUser(v) == Some(u))
    ensures OwnKeys(born, u, Matching(v, view, filter))
    ensures forall k :: k in Matching(v, view, filter) ==>
              k in view && view[k].owner == u && Matching(v, view, filter)[k] == view[k]
  {
  }

  lemma UpdateStaysHome(born: map<Key, string>, v: Variable, view: Db, stmt: Statement, u: string)
    requires stmt.Update? && Homed(born, view) && (CurrentUser(v) == None || CurrentUser(v) == Some(u))
    ensures EffectAtHome(born, u, Execute(v, view, stmt))
  {
    MatchingIsOwn(born, v, view, stmt.filter, u);
    var hit := Matching(v, view, stmt.filter);
    forall k | k in hit ensures AtHome(born, k, hit[k].(columns := stmt.change(hit[k]))) {
      assert AtHome(born, k, view[k]);
    }
  }

  lemma DeleteStaysHome(born: map<Key, string>, v: Variable, view: Db, stmt: Statement, u: string)
    requires stmt.Delete? && Homed(born, view) && (CurrentUser(v) == None || CurrentUser(v) == Some(u))
    ensures EffectAtHome(born, u, Execute(v, view, stmt))
  {
    MatchingIsOwn(born, v, view, stmt.filter, u);
    CascadeStaysHome(born, view, Matching(v, view, stmt.filter).Keys, u);
  }

  lemma InsertStaysHome(born: map<Key, string>, v: Variable, view: Db, stmt: Statement, u: string)
    requires stmt.Insert? && stmt.key !in born && Declared(stmt.key, stmt.row) && RefsAtHome(born, stmt.row)
    requires stmt.row.owner == u
    ensures EffectAtHome(born[stmt.key := u], u, Execute(v, view, stmt))
  {
  }

  lemma InsertedRefsAreHome(s: State, c: nat, stmt: Statement)
    requires Inv(s) && Enabled(s, Run(c, stmt)) && stmt.Insert?
    requires Execute(ConnOf(s, c).v, View(s, ConnOf(s, c)), stmt).Some?
    ensures stmt.row.owner == ConnOf(s, c).user && RefsAtHome(s.born, stmt.row)
  {
    var conn := ConnOf(s, c);
    assert ConnOk(s.born, conn);
    ViewIsHomed(s.born, s.db, conn.overlay, conn.user);
    forall p | p in Refs(stmt.row) ensures p in s.born && s.born[p] == conn.user {
      assert p in View(s, conn);
    }
  }

  lemma EffectIsAtHome(s: State, c: nat, stmt: Statement)
    requires Inv(s) && Enabled(s, Run(c, stmt))
    ensures EffectAtHome(Apply(s, Run(c, stmt)).born, ConnOf(s, c).user, EffectOf(s, c, stmt))
    ensures Extends(s.born, Apply(s, Run(c, stmt)).born)
    ensures UsersBornThemselves(Apply(s, Run(c, stmt)).born)
  {
    var conn := ConnOf(s, c);
    assert ConnOk(s.born, conn);
    ViewIsHomed(s.born, s.db, conn.overlay, conn.user);
    if EffectOf(s, c, stmt).Some? {
      match stmt
      case Query(filter) => MatchingIsOwn(s.born, conn.v, View(s, conn), filter, conn.user);
      case Update(_, _) => UpdateStaysHome(s.born, conn.v, View(s, conn), stmt, conn.user);
      case Delete(_) => DeleteStaysHome(s.born, conn.v, View(s, conn), stmt, conn.user);
      case Insert(_, _) =>
        InsertedRefsAreHome(s, c, stmt);
        InsertStaysHome(s.born, conn.v, View(s, conn), stmt, conn.user);
    }
  }

  lemma RunKeepsInv(s: State, c: nat, stmt: Statement)
    requires Inv(s) && Enabled(s, Run(c, stmt))
    ensures Inv(Apply(s, Run(c, stmt)))
  {
    EffectIsAtHome(s, c, stmt);
    EffectKeepsInv(s, c, stmt, EffectOf(s, c, stmt));
  }

  lemma EffectKeepsInv(s: State, c: nat, stmt: Statement, e: Option<Effect>)
    requires Inv(s) && ConnOf(s, c).Open?
    requires
      var born := AfterRun(s, c, stmt, e).born;
      EffectAtHome(born, ConnOf(s, c).user, e) && Extends(s.born, born) && UsersBornThemselves(born)
    ensures Inv(AfterRun(s, c, stmt, e))
  {
    var s' := AfterRun(s, c, stmt, e);
    HomeLasts(s, s');
    forall d ensures ConnOk(s'.born, ConnOf(s', d)) {
      assert ConnOk(s'.born, ConnOf(s, d));
    }
    forall u ensures OwnHistory(s'.born, u, ShownTo(s', u)) {
      assert OwnHistory(s'.born, u, ShownTo(s, u));
    }
  }

  lemma CommitKeepsInv(s: State, c: nat)
    requires Inv(s) && Enabled(s, Commit(c))
    ensures Inv(Apply(s, Commit(c)))
  {
    var s' := Apply(s, Commit(c));
    assert ConnOk(s.born, ConnOf(s, c));
    ViewIsHomed(s.born, s.db, ConnOf(s, c).overlay, ConnOf(s, c).user);
    var mid := s'.(db := s.db);
    ConnStepKeepsInv(s, mid, c);
    forall d ensures ConnOk(s'.born, ConnOf(s', d)) { assert ConnOk(mid.born, ConnOf(mid, d)); }
    forall u ensures OwnHistory(s'.born, u, ShownTo(s', u)) { assert OwnHistory(mid.born, u, ShownTo(mid, u)); }
  }

  /** A step that only puts a sound connection in place of another. */
  lemma ConnStepKeepsInv(s: State, s': State, c: nat)
    requires Inv(s) && c in s'.conns && s' == s.(conns := s.conns[c := s'.conns[c]]) && ConnOk(s.born, s'.conns[c])
    ensures Inv(s')
  {
    forall d ensures ConnOk(s'.born, ConnOf(s', d)) { assert ConnOk(s.born, ConnOf(s, d)); }
    forall u ensures OwnHistory(s'.born, u, ShownTo(s', u)) { assert OwnHistory(s.born, u, ShownTo(s, u)); }
  }

  lemma AccountKeepsInv(s: State, u: string, identity: string)
    requires Inv(s) && Enabled(s, CreateAccount(u, identity))
    ensures Inv(Apply(s, CreateAccount(u, identity)))
  {
    var s' := Apply(s, CreateAccount(u, identity));
    HomeLasts(s, s');
    NewRowsAreHome(s.born, s.db, u, identity);
    forall d ensures ConnOk(s'.born, ConnOf(s', d)) { assert ConnOk(s'.born, ConnOf(s, d)); }
    forall x ensures OwnHistory(s'.born, x, ShownTo(s', x)) { assert OwnHistory(s'.born, x, ShownTo(s, x)); }
  }

  lemma NewRowsAreHome(born: map<Key, string>, db: Db, u: string, identity: string)
    requires Homed(born, db) && Key(Users, u) !in born && Key(AuthIdentities, identity) !in born
    ensures
      Homed(born[Key(Users, u) := u][Key(AuthIdentities, identity) := u],
            db[Key(Users, u) := Row(u, map[], map[])][Key(AuthIdentities, identity) := Row(u, map[Users := u], map[])])
  {
    var born' := born[Key(Users, u) := u][Key(AuthIdentities, identity) := u];
    forall k | k in db ensures AtHome(born', k, db[k]) {
      assert AtHome(born, k, db[k]);
    }
  }

  lemma StepKeepsInv(s: State, step: Step)
    requires Inv(s) && Enabled(s, step)
    ensures Inv(Apply(s, step))
  {
    match step
    case Run(c, stmt) => RunKeepsInv(s, c, stmt);
    case Fault(c) => EffectKeepsInv(s, c, Query((_, _) => false), None);
    case Commit(c) => CommitKeepsInv(s, c);
    case CreateAccount(u, identity) => AccountKeepsInv(s, u, identity);
    case Begin(c, _) =>
      assert ConnOk(s.born, ConnOf(s, c));
      ConnStepKeepsInv(s, Apply(s, step), c);
    case SetUser(c) =>
      assert ConnOk(s.born, ConnOf(s, c));
      ConnStepKeepsInv(s, Apply(s, step), c);
    case Rollback(c) =>
      assert ConnOk(s.born, ConnOf(s, c));
      ConnStepKeepsInv(s, Apply(s, step), c);
  }

  // ---- What a step can touch ----

  /** The user on whose behalf a step is taken. */
  function Actor(s: State, step: Step): string
    requires Enabled(s, step)
  {
    match step
    case Begin(_, u) => u
    case CreateAccount(u, _) => u
    case SetUser(c) => ConnOf(s, c).user
    case Run(c, _) => ConnOf(s, c).user
    case Fault(c) => ConnOf(s, c).user
    case Commit(c) => ConnOf(s, c).user
    case Rollback(c) => ConnOf(s, c).user
  }

  /** A user's part of the view of the user's own transaction. */
  lemma OwnPartOfView(born: map<Key, string>, db: Db, o: Overlay, u: string)
    requires Homed(born, db) && HomedOverlay(born, o, u)
    ensures Part(Merge(db, o), u) == Merge(Part(db, u), o)
  {
    forall k ensures k in Part(Merge(db, o), u) <==> k in Merge(Part(db, u), o) {
      if k in o && k in db { assert db[k].owner == u; }
    }
  }

  lemma OtherPartOfView(born: map<Key, string>, db: Db, o: Overlay, u: string, x: string)
    requires Homed(born, db) && HomedOverlay(born, o, u) && x != u
    ensures Part(Merge(db, o), x) == Part(db, x)
  {
    forall k ensures k in Part(Merge(db, o), x) <==> k in Part(db, x) {
      if k in o && k in db { assert db[k].owner == u; }
    }
  }

  lemma EffectIsShownToActor(s: State, c: nat, stmt: Statement, e: Option<Effect>, u: string)
    requires ConnOf(s, c).Open? && u != ConnOf(s, c).user
    ensures AfterRun(s, c, stmt, e).db == s.db && ShownTo(AfterRun(s, c, stmt, e), u) == ShownTo(s, u)
  {
  }

  /** A step changes committed rows, and adds to the history, of its actor only. */
  lemma StepTouchesOnlyOwn(s: State, step: Step, u: string)
    requires Inv(s) && Enabled(s, step) && u != Actor(s, step)
    ensures Part(Apply(s, step).db, u) == Part(s.db, u)
    ensures ShownTo(Apply(s, step), u) == ShownTo(s, u)
  {
    match step
    case Commit(c) =>
      var conn := ConnOf(s, c);
      assert ConnOk(s.born, conn);
      OtherPartOfView(s.born, s.db, conn.overlay, conn.user, u);
    case Run(c, stmt) => EffectIsShownToActor(s, c, stmt, EffectOf(s, c, stmt), u);
    case Fault(c) => EffectIsShownToActor(s, c, Query((_, _) => false), None, u);
    case CreateAccount(x, identity) => NewRowsOfOther(s.db, Apply(s, step).db, Key(Users, x), Key(AuthIdentities,
        identity), u);
    case _ =>
  }

  lemma NewRowsOfOther(before: Db, after: Db, a: Key, b: Key, u: string)
    requires a !in before && b !in before && after.Keys == before.Keys + {a, b}
    requires forall k :: k in before ==> after[k] == before[k]
    requires after[a].owner != u && after[b].owner != u
    ensures Part(after, u) == Part(before, u)
  {
  }

  /** A deleted row's cascade never leaves the owner's part. */
  lemma DoomedIsLocal(born: map<Key, string>, view: Db, dead: set<Key>, u: string)
    requires Homed(born, view) && dead <= Part(view, u).Keys
    ensures Doomed(view, dead) == Doomed(Part(view, u), dead)
  {
    var part := Part(view, u);
    var inView, inPart := Doomed(view, dead), Doomed(part, dead);
    CascadeStaysHome(born, view, dead, u);
    forall k | k in Children(view, inPart) ensures k in inPart {
      var p :| p in Refs(view[k]) * inPart;
      assert born[p] == view[p].owner == view[k].owner;
      assert k in part && part[k] == view[k];
      DoomedIsLeastClosed(part, dead, inPart);
      assert k in Children(part, inPart);
    }
    DoomedIsLeastClosed(view, dead, inPart);
    assert forall k :: k in Children(part, inView) ==> k in Children(view, inView);
    DoomedIsLeastClosed(part, dead, inView);
  }

  /** Two connections act for the same user, or for none. */
  predicate SameUser(v: Variable, w: Variable, u: string) {
    CurrentUser(v) == CurrentUser(w) && (CurrentUser(v) == None || CurrentUser(v) == Some(u))
  }

  lemma MatchingIsLocal(v: Variable, w: Variable, a: Db, b: Db, filter: (Key, Row) -> bool, u: string)
    requires SameUser(v, w, u) && Part(a, u) == Part(b, u)
    ensures Matching(v, a, filter) == Matching(w, b, filter)
    ensures Matching(v, a, filter).Keys <= Part(a, u).Keys
  {
    assert forall k :: k in a && a[k].owner == u <==> k in Part(a, u);
    assert forall k :: k in b && b[k].owner == u <==> k in Part(b, u);
    assert forall k :: k in Part(a, u) ==> a[k] == Part(a, u)[k] == b[k];
  }

  /** A statement's effect depends only on the current user's part of the view. */
  lemma ExecuteIsLocal(bornA: map<Key, string>, bornB: map<Key, string>, v: Variable, w: Variable, a: Db, b: Db,
                       stmt: Statement, u: string)
    requires SameUser(v, w, u) && Part(a, u) == Part(b, u) && Homed(bornA, a) && Homed(bornB, b)
    requires stmt.Insert? ==> stmt.key !in a && stmt.key !in b
    requires stmt.Insert? && stmt.row.owner == u ==> (Refs(stmt.row) <= a.Keys <==> Refs(stmt.row) <= b.Keys)
    ensures Execute(v, a, stmt) == Execute(w, b, stmt)
  {
    match stmt
    case Query(filter) => MatchingIsLocal(v, w, a, b, filter, u);
    case Update(filter, _) => MatchingIsLocal(v, w, a, b, filter, u);
    case Delete(filter) =>
      MatchingIsLocal(v, w, a, b, filter, u);
      var dead := Matching(v, a, filter).Keys;
      DoomedIsLocal(bornA, a, dead, u);
      DoomedIsLocal(bornB, b, dead, u);
    case Insert(_, _) =>
  }

  // ---- Non-interference ----

  /** What remains when every trace of user `a` is taken away. */
  predicate SameConn(a: string, p: Conn, q: Conn) {
    if p.Idle? || p.user == a then q.Idle?
    else q.Open? && q.user == p.user && q.overlay == p.overlay && q.failed == p.failed && SameUser(p.v, q.v, p.user)
  }

  predicate SameBirths(a: string, s: map<Key, string>, t: map<Key, string>) {
    && Extends(t, s)
    && forall k :: k in s && s[k] != a ==> k in t
  }

  /** `t` is `s` as users other than `a` know it. */
  ghost predicate Without(a: string, s: State, t: State) {
    && (forall u :: u != a ==> Part(s.db, u) == Part(t.db, u))
    && (forall u :: u != a ==> ShownTo(s, u) == ShownTo(t, u))
    && (forall c :: SameConn(a, ConnOf(s, c), ConnOf(t, c)))
    && SameBirths(a, s.born, t.born)
  }

  /** A step of `a` is invisible to the others. */
  lemma HiddenStep(a: string, s: State, t: State, step: Step)
    requires Inv(s) && Enabled(s, step) && Actor(s, step) == a && Without(a, s, t)
    ensures Without(a, Apply(s, step), t)
  {
    var s' := Apply(s, step);
    forall u | u != a ensures Part(s'.db, u) == Part(t.db, u) && ShownTo(s', u) == ShownTo(t, u) {
      StepTouchesOnlyOwn(s, step, u);
    }
    forall c ensures SameConn(a, ConnOf(s', c), ConnOf(t, c)) {
      assert SameConn(a, ConnOf(s, c), ConnOf(t, c));
    }
  }

  lemma OwnBornEverywhere(a: string, s: map<Key, string>, t: map<Key, string>, k: Key, u: string)
    requires SameBirths(a, s, t) && u != a
    ensures k in s && s[k] == u <==> k in t && t[k] == u
  {
  }

  /** A statement has the same effect with and without the hidden user. */
  lemma SameEffect(a: string, s: State, t: State, c: nat, stmt: Statement)
    requires Inv(s) && Inv(t) && Without(a, s, t) && Enabled(s, Run(c, stmt)) && ConnOf(s, c).user != a
    ensures Enabled(t, Run(c, stmt)) && EffectOf(s, c, stmt) == EffectOf(t, c, stmt)
  {
    var p, q := ConnOf(s, c), ConnOf(t, c);
    var u := p.user;
    assert SameConn(a, p, q) && ConnOk(s.born, p) && ConnOk(t.born, q);
    assert ShownTo(s, u) == ShownTo(t, u);
    ViewIsHomed(s.born, s.db, p.overlay, u);
    ViewIsHomed(t.born, t.db, q.overlay, u);
    OwnPartOfView(s.born, s.db, p.overlay, u);
    OwnPartOfView(t.born, t.db, q.overlay, u);
    if stmt.Insert? { ParentsInBoth(a, s, t, c, stmt); }
    ExecuteIsLocal(s.born, t.born, p.v, q.v, View(s, p), View(t, q), stmt, u);
  }

  lemma ParentsInBoth(a: string, s: State, t: State, c: nat, stmt: Statement)
    requires Inv(s) && Inv(t) && Without(a, s, t) && stmt.Insert? && Enabled(s, Run(c, stmt)) && ConnOf(s, c).user != a
    requires ConnOf(t, c).Open? && Homed(s.born, View(s, ConnOf(s, c))) && Homed(t.born, View(t, ConnOf(t, c)))
    requires Part(View(s, ConnOf(s, c)), ConnOf(s, c).user) == Part(View(t, ConnOf(t, c)), ConnOf(s, c).user)
    ensures Refs(stmt.row) <= View(s, ConnOf(s, c)).Keys <==> Refs(stmt.row) <= View(t, ConnOf(t, c)).Keys
  {
    var u := ConnOf(s, c).user;
    var viewS, viewT := View(s, ConnOf(s, c)), View(t, ConnOf(t, c));
    assert OwnHistory(s.born, u, ShownTo(s, u));
    forall p | p in Refs(stmt.row) ensures p in viewS <==> p in viewT {
      OwnBornEverywhere(a, s.born, t.born, p, u);
      OwnRowInBoth(s.born, t.born, viewS, viewT, p, u);
    }
  }

  lemma OwnRowInBoth(bornS: map<Key, string>, bornT: map<Key, string>, viewS: Db, viewT: Db, p: Key, u: string)
    requires Homed(bornS, viewS) && Homed(bornT, viewT) && Part(viewS, u) == Part(viewT, u)
    requires p == Key(Users, u) || (p in bornS && bornS[p] == u && p in bornT && bornT[p] == u)
    ensures p in viewS <==> p in viewT
  {
    assert p in viewS <==> p in Part(viewS, u);
    assert p in viewT <==> p in Part(viewT, u);
  }

  /** A step of anyone else is possible, and comes to the same, without `a`. */
  lemma VisibleStep(a: string, s: State, t: State, step: Step)
    requires Inv(s) && Inv(t) && Enabled(s, step) && Actor(s, step) != a && Without(a, s, t)
    ensures Enabled(t, step) && Without(a, Apply(s, step), Apply(t, step))
  {
    match step
    case Run(c, stmt) => VisibleRun(a, s, t, c, stmt);
    case Fault(c) =>
      assert SameConn(a, ConnOf(s, c), ConnOf(t, c));
      VisibleEffect(a, s, t, c, Query((_, _) => false), None);
    case Commit(c) => VisibleCommit(a, s, t, c);
    case CreateAccount(u, identity) => VisibleAccount(a, s, t, u, identity);
    case Begin(c, _) => VisibleConnStep(a, s, t, step, c);
    case SetUser(c) => VisibleConnStep(a, s, t, step, c);
    case Rollback(c) => VisibleConnStep(a, s, t, step, c);
  }

  lemma VisibleConnStep(a: string, s: State, t: State, step: Step, c: nat)
    requires Inv(s) && Inv(t) && Enabled(s, step) && Actor(s, step) != a && Without(a, s, t)
    requires step == SetUser(c) || step == Rollback(c) || (step.Begin? && step.conn == c)
    ensures Enabled(t, step) && Without(a, Apply(s, step), Apply(t, step))
  {
    assert SameConn(a, ConnOf(s, c), ConnOf(t, c));
    assert ConnOk(s.born, ConnOf(s, c)) && ConnOk(t.born, ConnOf(t, c));
    var s', t' := Apply(s, step), Apply(t, step);
    forall d ensures SameConn(a, ConnOf(s', d), ConnOf(t', d)) {
      assert SameConn(a, ConnOf(s, d), ConnOf(t, d));
    }
    forall u | u != a ensures Part(s'.db, u) == Part(t'.db, u) && ShownTo(s', u) == ShownTo(t', u) {
      assert Part(s.db, u) == Part(t.db, u) && ShownTo(s, u) == ShownTo(t, u);
    }
  }

  lemma VisibleRun(a: string, s: State, t: State, c: nat, stmt: Statement)
    requires Inv(s) && Inv(t) && Enabled(s, Run(c, stmt)) && ConnOf(s, c).user != a && Without(a, s, t)
    ensures Enabled(t, Run(c, stmt)) && Without(a, Apply(s, Run(c, stmt)), Apply(t, Run(c, stmt)))
  {
    SameEffect(a, s, t, c, stmt);
    VisibleEffect(a, s, t, c, stmt, EffectOf(s, c, stmt));
  }

  lemma VisibleEffect(a: string, s: State, t: State, c: nat, stmt: Statement, e: Option<Effect>)
    requires Without(a, s, t) && ConnOf(s, c).Open? && ConnOf(s, c).user != a && ConnOf(t, c).Open?
    requires stmt.Insert? ==> stmt.key !in s.born
    ensures Without(a, AfterRun(s, c, stmt, e), AfterRun(t, c, stmt, e))
  {
    assert SameConn(a, ConnOf(s, c), ConnOf(t, c));
    var s', t' := AfterRun(s, c, stmt, e), AfterRun(t, c, stmt, e);
    forall d ensures SameConn(a, ConnOf(s', d), ConnOf(t', d)) {
      assert SameConn(a, ConnOf(s, d), ConnOf(t, d));
    }
    forall u | u != a ensures Part(s'.db, u) == Part(t'.db, u) && ShownTo(s', u) == ShownTo(t', u) {
      assert Part(s.db, u) == Part(t.db, u) && ShownTo(s, u) == ShownTo(t, u);
    }
  }

  lemma VisibleCommit(a: string, s: State, t: State, c: nat)
    requires Inv(s) && Inv(t) && Enabled(s, Commit(c)) && ConnOf(s, c).user != a && Without(a, s, t)
    ensures Enabled(t, Commit(c)) && Without(a, Apply(s, Commit(c)), Apply(t, Commit(c)))
  {
    var p, q := ConnOf(s, c), ConnOf(t, c);
    assert SameConn(a, p, q) && ConnOk(s.born, p) && ConnOk(t.born, q);
    var s', t' := Apply(s, Commit(c)), Apply(t, Commit(c));
    forall d ensures SameConn(a, ConnOf(s', d), ConnOf(t', d)) {
      assert SameConn(a, ConnOf(s, d), ConnOf(t, d));
    }
    forall u | u != a ensures Part(s'.db, u) == Part(t'.db, u) && ShownTo(s', u) == ShownTo(t', u) {
      assert Part(s.db, u) == Part(t.db, u) && ShownTo(s, u) == ShownTo(t, u);
      if u == p.user {
        OwnPartOfView(s.born, s.db, p.overlay, u);
        OwnPartOfView(t.born, t.db, q.overlay, u);
      } else {
        OtherPartOfView(s.born, s.db, p.overlay, p.user, u);
        OtherPartOfView(t.born, t.db, q.overlay, p.user, u);
      }
    }
  }

  lemma VisibleAccount(a: string, s: State, t: State, x: string, identity: string)
    requires Inv(s) && Inv(t) && Enabled(s, CreateAccount(x, identity)) && x != a && Without(a, s, t)
    ensures Enabled(t, CreateAccount(x, identity))
    ensures Without(a, Apply(s, CreateAccount(x, identity)), Apply(t, CreateAccount(x, identity)))
  {
    var step := CreateAccount(x, identity);
    var s', t' := Apply(s, step), Apply(t, step);
    var k, l := Key(Users, x), Key(AuthIdentities, identity);
    assert k !in s.db && l !in s.db && k !in t.db && l !in t.db;
    forall d ensures SameConn(a, ConnOf(s', d), ConnOf(t', d)) {
      assert SameConn(a, ConnOf(s, d), ConnOf(t, d));
    }
    forall u | u != a ensures Part(s'.db, u) == Part(t'.db, u) && ShownTo(s', u) == ShownTo(t', u) {
      assert Part(s.db, u) == Part(t.db, u) && ShownTo(s, u) == ShownTo(t, u);
      NewRowsOf(s.db, x, k, l, u);
      NewRowsOf(t.db, x, k, l, u);
    }
  }

  /** Adding two rows of `x` adds them to the part of `x` and to no other. */
  lemma NewRowsOf(db: Db, x: string, k: Key, l: Key, u: string)
    requires k !in db && l !in db
    ensures
      var row, row' := Row(x, map[], map[]), Row(x, map[Users := x], map[]);
      Part(db[k := row][l := row'], u) == if u == x then Part(db, u)[k := row][l := row'] else Part(db, u)
  {
  }

  predicate Runs(s: State, steps: seq<Step>)
    decreases |steps|
  {
    steps == [] || (Enabled(s, steps[0]) && Runs(Apply(s, steps[0]), steps[1..]))
  }

  function Exec(s: State, steps: seq<Step>): State
    requires Runs(s, steps)
    decreases |steps|
  {
    if steps == [] then s else Exec(Apply(s, steps[0]), steps[1..])
  }

  /** The schedule with every step of `a` struck out. */
  function Purge(a: string, s: State, steps: seq<Step>): seq<Step>
    requires Runs(s, steps)
    decreases |steps|
  {
    if steps == [] then []
    else (if Actor(s, steps[0]) == a then [] else [steps[0]]) + Purge(a, Apply(s, steps[0]), steps[1..])
  }

  lemma {:induction false} PurgeRun(a: string, s: State, t: State, steps: seq<Step>)
    requires Inv(s) && Inv(t) && Without(a, s, t) && Runs(s, steps)
    ensures Runs(t, Purge(a, s, steps))
    ensures Without(a, Exec(s, steps), Exec(t, Purge(a, s, steps)))
    ensures Inv(Exec(s, steps))
    decreases |steps|
  {
    if steps != [] {
      var step, s' := steps[0], Apply(s, steps[0]);
      StepKeepsInv(s, step);
      var rest := Purge(a, s', steps[1..]);
      if Actor(s, step) == a {
        HiddenStep(a, s, t, step);
        PurgeRun(a, s', t, steps[1..]);
        assert [] + rest == rest;
      } else {
        VisibleStep(a, s, t, step);
        StepKeepsInv(t, step);
        PurgeRun(a, s', Apply(t, step), steps[1..]);
        assert ([step] + rest)[1..] == rest;
      }
    }
  }

  /** Tenant non-interference over whole runs: strike every step of user `a` out
      of any schedule of transactions, commits, rollbacks and failures on a pool
      of reused connections, and what remains still runs; every other user's rows
      and every result every other user ever saw are the same. */
  lemma NonInterference(a: string, s: State, steps: seq<Step>, u: string)
    requires Inv(s) && Runs(s, steps) && u != a
    requires forall c :: ConnOf(s, c).Open? ==> ConnOf(s, c).user != a
    ensures Runs(s, Purge(a, s, steps))
    ensures Part(Exec(s, steps).db, u) == Part(Exec(s, Purge(a, s, steps)).db, u)
    ensures ShownTo(Exec(s, steps), u) == ShownTo(Exec(s, Purge(a, s, steps)), u)
  {
    forall c ensures SameConn(a, ConnOf(s, c), ConnOf(s, c)) {
      assert ConnOk(s.born, ConnOf(s, c));
    }
    PurgeRun(a, s, s, steps);
  }

  /** In every run each result shown to a user holds the user's own rows only, and
      parents and children agree on their owner, as the cascade needs. */
  lemma RunsStayHome(s: State, steps: seq<Step>, u: string)
    requires Inv(s) && Runs(s, steps)
    ensures OwnHistory(Exec(s, steps).born, u, ShownTo(Exec(s, steps), u))
    ensures OwnersAgree(Exec(s, steps).db)
  {
    RunInv(s, steps);
    var e := Exec(s, steps);
    forall k, p | k in e.db && p in Refs(e.db[k]) && p in e.db ensures e.db[p].owner == e.db[k].owner {
      assert AtHome(e.born, k, e.db[k]) && AtHome(e.born, p, e.db[p]);
    }
  }

  lemma {:induction false} RunInv(s: State, steps: seq<Step>)
    requires Inv(s) && Runs(s, steps)
    ensures Inv(Exec(s, steps))
    decreases |steps|
  {
    if steps != [] {
      StepKeepsInv(s, steps[0]);
      RunInv(Apply(s, steps[0]), steps[1..]);
    }
  }
}
