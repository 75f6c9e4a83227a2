/** One row inserted in a transaction of its own. */
module SingleInsert {
  import opened Wrappers
  import opened Schema
  import opened RowSecurity
  import opened Tenancy
  import opened Transactions
  import opened UserContext
  import opened Durability

  function InsertOne(table: Table, row: Row): Callback<bool> {
    answers =>
      if answers == [] then Ask(id => Insert(Key(table, id), row))
      else if answers[0] == None then Throw("insert failed")
      else Return(true)
  }

  /** The row fits its table for whatever id the database picks. */
  predicate Fits(table: Table, row: Row, u: string, known: set<Key>) {
    && table != Users && table != UserProfiles && row.owner == u && row.parents.Keys == ForeignKeys(table)
    && row.parents[Users] == u
    && forall t :: t in row.parents && t != Users ==> Key(t, row.parents[t]) in known
  }

  lemma InsertIsCareful(table: Table, row: Row, u: string, known: set<Key>)
    requires Fits(table, row, u, known)
    ensures Careful(InsertOne(table, row), u, known) && Settles(InsertOne(table, row), 1)
  {
    forall answers, id | InsertOne(table, row)(answers).Ask?
      ensures Placed(InsertOne(table, row)(answers).stmt(id), u, answers, known)
    {
      assert answers == [];
      assert Declared(Key(table, id), row);
    }
  }

  lemma InsertSettles(table: Table, row: Row, env: Environment, answers: seq<Option<Db>>, stmts: seq<Statement>)
    requires Asked(InsertOne(table, row), env, answers, stmts)
    ensures OnlyInserts(stmts) && |stmts| <= 1
    ensures |stmts| == 1 ==> stmts[0] == Insert(Key(table, env.newId(0)), row)
    ensures InsertOne(table, row)(answers).Return? ==> |stmts| == 1 && None !in answers
  {
    forall i | 0 <= i < |stmts| ensures answers[..i] == [] && stmts[i] == Insert(Key(table, env.newId(0)), row) {
      assert InsertOne(table, row)(answers[..i]).Ask?;
    }
    if |stmts| > 0 {
      assert answers[..|stmts| - 1] == [];
    }
  }

  lemma InsertOnPart(part: Db, u: string, stmts: seq<Statement>, answers: seq<Option<Db>>, key: Key, row: Row)
    requires |stmts| == 1 && stmts[0] == Insert(key, row) && AnsweredOn(part, u, stmts, answers)
    ensures Merge(part, Written(part, u, stmts)) == part[key := row]
  {
    assert stmts[..0] == [] && stmts == [] + [stmts[0]];
    assert Merge(part, map[]) == part;
    WrittenOneMore(part, u, [], stmts[0]);
    assert Written(part, u, stmts) == map[] + map[key := Some(row)];
  }

  /** Why a row may not be inserted: another transaction of the user is about, the
      database fails, something the row refers to is not there, or the id it was to
      have has been used by another. */
  ghost predicate Troubled(env: Environment, rows: Db, row: Row, key: Key, used: set<Key>) {
    !env.alone || !Faultless(env) || !(Refs(row) <= rows.Keys) || key in used
  }

  lemma TroubledIfNot(env: Environment, part: Db, u: string, table: Table, row: Row, used: set<Key>,
                      answers: seq<Option<Db>>, stmts: seq<Statement>, r: Result<bool, Error>)
    requires Asked(InsertOne(table, row), env, answers, stmts) && row.owner == u
    requires env.alone ==> Explained(env, part, u, stmts, answers, used)
    requires r.Err? && r.error.CallbackFailed? ==> InsertOne(table, row)(answers) == Throw(r.error.error)
    requires r == Err(NoConnection) ==> env.connectFails
    requires r == Err(DatabaseFailed) ==> env.beginFails || env.setFails || env.commitFails
    ensures r.Err? ==> Troubled(env, part, row, Key(table, env.newId(0)), used)
  {
    InsertSettles(table, row, env, answers, stmts);
    if r.Err? && env.alone && Faultless(env) {
      var i :| 0 <= i < |stmts| && answers[i] == None && Refusable(env, part, u, stmts, used, i);
      assert stmts[..0] == [] && Merge(part, map[]) == part;
    }
  }

  /** The row is committed under a new id, or nothing is; with no other transaction
      of the user about, nothing else of the user's changes. */
  method InsertRow(pool: Pool, userId: string, table: Table, row: Row, ghost known: set<Key>, env: Environment)
    returns (inserted: bool, ghost key: Key)
    requires pool.Valid() && userId != "" && Fits(table, row, userId, known) && SeenAll(pool.state, userId, known)
    modifies pool
    ensures pool.Valid() && old(pool.history) <= pool.history
    ensures Runs(old(pool.state), pool.history[|old(pool.history)|..])
    ensures pool.state == Exec(old(pool.state), pool.history[|old(pool.history)|..])
    ensures key == Key(table, env.newId(0)) && (inserted ==> key in pool.state.db && pool.state.db[key] == row)
    ensures !inserted ==> Troubled(env, old(Part(pool.state.db, userId)), row, key, pool.state.born.Keys)
    ensures env.alone ==>
              Part(pool.state.db, userId) ==
              if inserted then old(Part(pool.state.db, userId))[key := row] else old(Part(pool.state.db, userId))
  {
    ghost var part := Part(pool.state.db, userId);
    InsertIsCareful(table, row, userId, known);
    var r;
    ghost var t;
    r, t := pool.WithUserContext(userId, InsertOne(table, row), 1, known, env);
    InsertSettles(table, row, env, t.answers, t.stmts);
    TroubledIfNot(env, part, userId, table, row, pool.state.born.Keys, t.answers, t.stmts, r);
    inserted := r.Ok?;
    key := Key(table, env.newId(0));
    if env.alone && inserted {
      InsertOnPart(part, userId, t.stmts, t.answers, key, row);
    }
  }

  /** The rows a caller has committed so far: each is there unless another
      transaction that wrote it has committed; and with no other transaction of the
      user about, they are all that has changed of the user's rows since `base`. */
  ghost predicate Accounted(pool: Pool, alone: bool, u: string, base: Db, keys: seq<Key>, rows: seq<Row>)
    requires pool.Valid()
    reads pool
  {
    Booked(pool.origin, pool.history, keys, rows) && (alone ==> Part(pool.state.db, u) == WithRows(base, keys, rows))
  }

  lemma NothingYet(pool: Pool, alone: bool, u: string, base: Db)
    requires pool.Valid() && (alone ==> Part(pool.state.db, u) == base)
    ensures Accounted(pool, alone, u, base, [], [])
  {
  }

  lemma SameBase(pool: Pool, alone: bool, u: string, base: Db, base': Db, keys: seq<Key>, rows: seq<Row>)
    requires pool.Valid() && Accounted(pool, alone, u, base, keys, rows) && (alone ==> base == base')
    ensures Accounted(pool, alone, u, base', keys, rows)
  {
  }

  lemma LessAlone(pool: Pool, alone: bool, alone': bool, u: string, base: Db, keys: seq<Key>, rows: seq<Row>)
    requires pool.Valid() && Accounted(pool, alone, u, base, keys, rows) && (alone' ==> alone)
    ensures Accounted(pool, alone', u, base, keys, rows)
  {
  }

  /** One more row of a caller that keeps account of its rows. */
  method InsertAccounted(pool: Pool, userId: string, table: Table, row: Row, ghost known: set<Key>, env: Environment,
                         ghost alone: bool, ghost base: Db, ghost keys: seq<Key>, ghost rows: seq<Row>)
    returns (inserted: bool, ghost keys': seq<Key>, ghost rows': seq<Row>)
    requires pool.Valid() && userId != "" && Fits(table, row, userId, known) && SeenAll(pool.state, userId, known)
    requires Accounted(pool, alone, userId, base, keys, rows) && (alone ==> env.alone)
    modifies pool
    ensures pool.Valid() && old(pool.history) <= pool.history
    ensures Accounted(pool, alone, userId, base, keys', rows')
    ensures if !inserted then keys' == keys && rows' == rows
            else keys' == keys + [Key(table, env.newId(0))] && rows' == rows + [row]
    ensures
      var key := Key(table, env.newId(0));
      if inserted then key in pool.state.db && pool.state.db[key] == row
      else Troubled(env, old(Part(pool.state.db, userId)), row, key, pool.state.born.Keys)
  {
    ghost var before, key := pool.history, Key(table, "");
    inserted, key := InsertRow(pool, userId, table, row, known, env);
    BookedAfter(pool.origin, before, pool.history, keys, rows, key, row);
    keys', rows' := keys, rows;
    if inserted {
      WithOneMore(base, keys, rows, key, row);
      keys', rows' := keys + [key], rows + [row];
    }
  }
}
