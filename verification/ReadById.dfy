/** One row read by its id alone, in a scoped transaction: whose row it is, only the
    policies decide. */
module ReadById {
  import opened Wrappers
  import opened Schema
  import opened RowSecurity
  import opened Tenancy
  import opened Transactions
  import opened UserContext

  function ById(key: Key): Callback<Option<Row>> {
    (answers: seq<Option<Db>>) =>
      if answers == [] then Ask(_ => Query((k, _) => k == key))
      else if answers[0] == None then Throw("read failed")
      else Return(if key in answers[0].value then Some(answers[0].value[key]) else None)
  }

  /** SELECT * FROM t WHERE id = ... */
  ghost predicate IsById(stmt: Statement, key: Key) {
    stmt.Query? && forall k, row :: stmt.filter(k, row) <==> k == key
  }

  lemma ByIdIsCareful(key: Key, u: string)
    ensures Careful(ById(key), u, {}) && Settles(ById(key), 1)
  {
  }

  lemma ByIdSettles(key: Key, env: Environment, answers: seq<Option<Db>>, stmts: seq<Statement>)
    requires Asked(ById(key), env, answers, stmts)
    ensures |stmts| <= 1 && forall i :: 0 <= i < |stmts| ==> IsById(stmts[i], key)
    ensures ById(key)(answers).Return? ==> |stmts| == 1 && None !in answers
    ensures ById(key)(answers).Throw? ==> None in answers
    ensures Faultless(env) ==> Untroubled(env, stmts)
  {
    forall i | 0 <= i < |stmts| ensures answers[..i] == [] && IsById(stmts[i], key) {
      assert ById(key)(answers[..i]).Ask?;
    }
    if |stmts| > 0 {
      assert answers[..|stmts| - 1] == [];
    }
  }

  /** Read by id under the policies, a row is found exactly if it is the user's. */
  lemma ByIdFinds(part: Db, u: string, key: Key, stmt: Statement)
    requires IsById(stmt, key) && u != "" && forall k :: k in part ==> part[k].owner == u
    ensures
      var e := Execute(Some(u), Merge(part, Written(part, u, [])), stmt);
      e.Some? && e.value.rows == if key in part then map[key := part[key]] else map[]
  {
    assert Merge(part, map[]) == part;
    ByIdFindsOnlyOwn(u, part, key);
    var rows := Execute(Some(u), part, stmt).value.rows;
    assert rows == Execute(Some(u), part, Query((k, _) => k == key)).value.rows;
  }

  /** What is found is the user's own, and then the user has seen it. With no other
      transaction of the user about, it is found exactly if the user has it. */
  method Read(pool: Pool, userId: string, key: Key, env: Environment) returns (r: Result<Option<Row>, Error>)
    requires pool.Valid() && userId != ""
    modifies pool
    ensures pool.Valid() && old(pool.history) <= pool.history
    ensures Runs(old(pool.state), pool.history[|old(pool.history)|..])
    ensures pool.state == Exec(old(pool.state), pool.history[|old(pool.history)|..])
    ensures r.Ok? && r.value.Some? ==> Seen(pool.state, userId, key)
    ensures key in old(pool.state.born) && old(pool.state.born)[key] != userId ==> r.Err? || r.value == None
    ensures env.alone && r.Ok? ==> r.value == Own(old(pool.state).db, userId, key)
    ensures env.alone ==> Part(pool.state.db, userId) == old(Part(pool.state.db, userId))
    ensures Faultless(env) ==> r.Ok?
  {
    ByIdIsCareful(key, userId);
    ghost var start := pool.state;
    ghost var t;
    r, t := pool.WithUserContext(userId, ById(key), 1, {}, env);
    ByIdSettles(key, env, t.answers, t.stmts);
    BornOnce(start, t.trace);
    if r.Ok? {
      assert t.stmts == [t.stmts[0]];
      KnownIsSeen(pool.state, t.answers, userId);
      if env.alone {
        ReadOnPart(start.db, userId, key, t.stmts, t.answers);
      }
    }
  }

  function Own(db: Db, u: string, key: Key): Option<Row> {
    if key in db && db[key].owner == u then Some(db[key]) else None
  }

  lemma ReadOnPart(db: Db, u: string, key: Key, stmts: seq<Statement>, answers: seq<Option<Db>>)
    requires u != "" && |stmts| == 1 && IsById(stmts[0], key) && AnsweredOn(Part(db, u), u, stmts, answers)
    ensures answers[0] == Some(if key in Part(db, u) then map[key := Part(db, u)[key]] else map[])
    ensures Merge(Part(db, u), Written(Part(db, u), u, stmts)) == Part(db, u)
  {
    ByIdFinds(Part(db, u), u, key, stmts[0]);
    assert stmts[..0] == [] && stmts == [] + [stmts[0]];
    WrittenOneMore(Part(db, u), u, [], stmts[0]);
    assert Merge(Part(db, u), map[]) == Part(db, u);
    assert Written(Part(db, u), u, stmts) == map[] + map[];
  }
}
