/** Everything a user owns, read table by table in one scoped transaction. */
module AccountExport {
  import opened Wrappers
  import opened Schema
  import opened RowSecurity
  import opened Tenancy
  import opened Transactions
  import opened UserContext

  /** The tables in the order they are read. */
  const TABLES: seq<Table> := [
    Users, AuthIdentities, UserProfiles, Resumes, ResumeExtractions, Vacancies, VacancyScores, TailoredDocuments,
    Applications, ApplicationEvents, LlmUsageLogs]

  /** SELECT * FROM t WHERE user_id = u, by `id` in users */
  function ReadTable(t: Table, u: string): Statement {
    Query((k: Key, row: Row) => k.table == t && if t == Users then k.id == u else row.owner == u)
  }

  function FromAnswers(answers: seq<Option<Db>>): Export
    requires |answers| == |TABLES| && None !in answers
  {
    Export(
      answers[0].value, answers[1].value, answers[2].value, answers[3].value, answers[4].value, answers[5].value,
      answers[6].value, answers[7].value, answers[8].value, answers[9].value, answers[10].value)
  }

  const NOT_FOUND := "not found"

  /** `exportUserData`: a user who is not there is an error before anything else is read. */
  function ExportData(u: string): Callback<Export> {
    (answers: seq<Option<Db>>) =>
      if None in answers then Throw("read failed")
      else if |answers| > 0 && answers[0].value == map[] then Throw(NOT_FOUND)
      else if |answers| < |TABLES| then Ask(_ => ReadTable(TABLES[|answers|], u))
      else if |answers| == |TABLES| then Return(FromAnswers(answers))
      else Throw("read failed")
  }

  lemma ExportIsCareful(u: string)
    ensures Careful(ExportData(u), u, {}) && Settles(ExportData(u), |TABLES|)
  {
  }

  /** The statements are the reads, in order. */
  lemma ExportReads(u: string, env: Environment, answers: seq<Option<Db>>, stmts: seq<Statement>)
    requires Asked(ExportData(u), env, answers, stmts)
    ensures |stmts| <= |TABLES| && forall i :: 0 <= i < |stmts| ==> stmts[i] == ReadTable(TABLES[i], u)
    ensures Faultless(env) ==> Untroubled(env, stmts)
  {
    if |stmts| > 0 {
      ExportReadsInTime(u, env, answers, stmts, |stmts| - 1);
    }
    forall i | 0 <= i < |stmts| ensures stmts[i] == ReadTable(TABLES[i], u) {
      ExportReadsInTime(u, env, answers, stmts, i);
    }
  }

  lemma ExportReadsInTime(u: string, env: Environment, answers: seq<Option<Db>>, stmts: seq<Statement>, i: nat)
    requires Asked(ExportData(u), env, answers, stmts) && i < |stmts|
    ensures i < |TABLES| && stmts[i] == ReadTable(TABLES[i], u)
  {
    assert ExportData(u)(answers[..i]).Ask? && |answers[..i]| == i;
  }

  lemma {:induction false} ReadsWriteNothing(part: Db, u: string, stmts: seq<Statement>)
    requires forall i :: 0 <= i < |stmts| ==> stmts[i].Query?
    ensures Written(part, u, stmts) == map[]
  {
    if stmts != [] {
      ReadsWriteNothing(part, u, stmts[..|stmts| - 1]);
    }
  }

  /** On a user's own rows a read of a table finds those of the table. */
  lemma TableRead(part: Db, u: string, t: Table)
    requires u != "" && forall k :: k in part ==> part[k].owner == u && Declared(k, part[k])
    ensures Execute(Some(u), part, ReadTable(t, u)) == Some(Effect(Select(part, t, u), map[]))
  {
    RowsOfTable(part, u, t);
  }

  lemma RowsOfTable(part: Db, u: string, t: Table)
    requires u != "" && forall k :: k in part ==> part[k].owner == u && Declared(k, part[k])
    ensures Matching(Some(u), part, ReadTable(t, u).filter) == Select(part, t, u)
  {
    var rows := Matching(Some(u), part, ReadTable(t, u).filter);
    assert forall k :: k in rows <==> k in Select(part, t, u);
  }

  lemma TablesAnswered(part: Db, u: string, stmts: seq<Statement>, answers: seq<Option<Db>>, i: nat)
    requires u != "" && forall k :: k in part ==> part[k].owner == u && Declared(k, part[k])
    requires AnsweredOn(part, u, stmts, answers) && i < |stmts| <= |TABLES|
    requires forall j :: 0 <= j < |stmts| ==> stmts[j] == ReadTable(TABLES[j], u)
    ensures answers[i] == Some(Select(part, TABLES[i], u))
  {
    ReadsSeeThePart(part, u, stmts[..i]);
    TableRead(part, u, TABLES[i]);
    assert answers[i] == Some(Execute(Some(u), part, ReadTable(TABLES[i], u)).value.rows);
  }

  lemma ReadsSeeThePart(part: Db, u: string, stmts: seq<Statement>)
    requires forall i :: 0 <= i < |stmts| ==> stmts[i].Query?
    ensures Merge(part, Written(part, u, stmts)) == part
  {
    ReadsWriteNothing(part, u, stmts);
    assert Merge(part, map[]) == part;
  }

  lemma OwnRowsSuffice(db: Db, u: string, t: Table)
    ensures Select(Part(db, u), t, u) == Select(db, t, u)
  {
  }

  /** All eleven answered on the user's rows: the export of the database. */
  lemma ExportOfAnswers(db: Db, u: string, stmts: seq<Statement>, answers: seq<Option<Db>>)
    requires u != "" && forall k :: k in Part(db, u) ==> Declared(k, db[k])
    requires AnsweredOn(Part(db, u), u, stmts, answers) && |stmts| == |TABLES| && None !in answers
    requires forall j :: 0 <= j < |stmts| ==> stmts[j] == ReadTable(TABLES[j], u)
    requires answers[0].value != map[]
    ensures ExportUserData(db, u) == Ok(FromAnswers(answers))
  {
    forall t ensures Field(FromAnswers(answers), t) == Field(Gather(x => Select(db, x, u)), t) {
      TablesAnswered(Part(db, u), u, stmts, answers, Place(t));
      OwnRowsSuffice(db, u, t);
      FieldIsAnswer(answers, t);
      FieldIsRead(x => Select(db, x, u), t);
    }
    SameFields(FromAnswers(answers), Gather(x => Select(db, x, u)));
    TablesAnswered(Part(db, u), u, stmts, answers, 0);
    OwnRowsSuffice(db, u, Users);
  }

  lemma SameFields(e: Export, e': Export)
    requires forall t :: Field(e, t) == Field(e', t)
    ensures e == e'
  {
    assert Field(e, Users) == Field(e', Users) && Field(e, AuthIdentities) == Field(e', AuthIdentities);
    assert Field(e, UserProfiles) == Field(e', UserProfiles) && Field(e, Resumes) == Field(e', Resumes);
    assert Field(e, ResumeExtractions) == Field(e', ResumeExtractions) && Field(e, Vacancies) == Field(e', Vacancies);
    assert Field(e, VacancyScores) == Field(e', VacancyScores);
    assert Field(e, TailoredDocuments) == Field(e', TailoredDocuments);
    assert Field(e, Applications) == Field(e', Applications);
    assert Field(e, ApplicationEvents) == Field(e', ApplicationEvents);
    assert Field(e, LlmUsageLogs) == Field(e', LlmUsageLogs);
  }

  /** The export holds every row of the user, in its table's place, and no other. */
  ghost predicate ExportsAll(e: Export, db: Db, u: string) {
    forall k, row :: Exported(e, k, row) <==> k in db && db[k] == row && row.owner == u
  }

  lemma ExportsAllRows(db: Db, u: string)
    requires ExportUserData(db, u).Ok?
    ensures ExportsAll(ExportUserData(db, u).value, db, u)
  {
    ExportHoldsOwned(db, u);
  }

  lemma AnswersAreOwn(s: State, u: string, answers: seq<Option<Db>>)
    requires OwnAnswers(s, u, answers) && |answers| == |TABLES| && None !in answers
    ensures forall k, row :: Exported(FromAnswers(answers), k, row) ==> k in s.born && s.born[k] == u
  {
    forall k, row | Exported(FromAnswers(answers), k, row) ensures k in s.born && s.born[k] == u {
      FieldIsAnswer(answers, k.table);
      assert OwnKeys(s.born, u, answers[Place(k.table)].value);
    }
  }

  function Place(t: Table): (i: nat)
    ensures i < |TABLES| && TABLES[i] == t
  {
    match t
    case Users => 0
    case AuthIdentities => 1
    case UserProfiles => 2
    case Resumes => 3
    case ResumeExtractions => 4
    case Vacancies => 5
    case VacancyScores => 6
    case TailoredDocuments => 7
    case Applications => 8
    case ApplicationEvents => 9
    case LlmUsageLogs => 10
  }

  lemma FieldIsAnswer(answers: seq<Option<Db>>, t: Table)
    requires |answers| == |TABLES| && None !in answers
    ensures Field(FromAnswers(answers), t) == answers[Place(t)].value
  {
  }

  /** How an export ends: with all its answers, or at the one that failed or found nobody. */
  lemma ExportEnds(u: string, answers: seq<Option<Db>>)
    ensures
      var end := ExportData(u)(answers);
      && (end.Return? ==> |answers| == |TABLES| && None !in answers && answers[0].value != map[]
                          && end.value == FromAnswers(answers))
      && (end.Throw? && None !in answers && |answers| <= |TABLES| ==>
            |answers| > 0 && answers[0].value == map[] && end.error == NOT_FOUND)
  {
  }

  /** What the transaction of an export comes to, with no other of the user about. */
  lemma ExportResult(db: Db, u: string, env: Environment, r: Result<Export, Error>, answers: seq<Option<Db>>,
                     stmts: seq<Statement>)
    requires Asked(ExportData(u), env, answers, stmts) && u != ""
    requires forall k :: k in Part(db, u) ==> Declared(k, db[k])
    requires r.Ok? ==> ExportData(u)(answers) == Return(r.value)
    requires r.Err? && r.error.CallbackFailed? ==> ExportData(u)(answers) == Throw(r.error.error)
    requires r == Err(NoConnection) ==> env.connectFails
    requires r == Err(DatabaseFailed) ==> env.beginFails || env.setFails || env.commitFails
    requires Untroubled(env, stmts) ==> None !in answers
    requires None !in answers ==> AnsweredOn(Part(db, u), u, stmts, answers)
    ensures r.Ok? ==> ExportUserData(db, u) == Ok(r.value) && ExportsAll(r.value, db, u)
    ensures Faultless(env) ==> (r.Ok? <==> Key(Users, u) in Part(db, u))
    ensures Faultless(env) && r.Err? ==> r.error.CallbackFailed? && r.error.error == NOT_FOUND
  {
    ExportReads(u, env, answers, stmts);
    ExportEnds(u, answers);
    if r.Ok? {
      ExportOfAnswers(db, u, stmts, answers);
      ExportsAllRows(db, u);
    }
    if None !in answers && |stmts| > 0 {
      UserAnswered(db, u, stmts, answers);
    }
  }

  /** The first answer tells whether the user is there. */
  lemma UserAnswered(db: Db, u: string, stmts: seq<Statement>, answers: seq<Option<Db>>)
    requires u != "" && forall k :: k in Part(db, u) ==> Declared(k, db[k])
    requires AnsweredOn(Part(db, u), u, stmts, answers) && 0 < |stmts| <= |TABLES|
    requires forall j :: 0 <= j < |stmts| ==> stmts[j] == ReadTable(TABLES[j], u)
    ensures answers[0].Some? && (answers[0].value == map[] <==> Key(Users, u) !in Part(db, u))
  {
    assert TABLES[0] == Users;
    TablesAnswered(Part(db, u), u, stmts, answers, 0);
    UserRead(Part(db, u), u);
  }

  lemma ExportLeaves(part: Db, u: string, env: Environment, answers: seq<Option<Db>>, stmts: seq<Statement>)
    requires Asked(ExportData(u), env, answers, stmts)
    ensures Merge(part, Written(part, u, stmts)) == part
  {
    ExportReads(u, env, answers, stmts);
    ReadsSeeThePart(part, u, stmts);
  }

  lemma ExportIsOwn(s: State, u: string, e: Export, answers: seq<Option<Db>>)
    requires OwnAnswers(s, u, answers) && ExportData(u)(answers) == Return(e)
    ensures None !in answers
    ensures forall k, row :: Exported(e, k, row) ==> k in s.born && s.born[k] == u
  {
    ExportEnds(u, answers);
    AnswersAreOwn(s, u, answers);
  }

  lemma UserRead(part: Db, u: string)
    requires forall k :: k in part ==> part[k].owner == u && Declared(k, part[k])
    ensures Select(part, Users, u) == map[] <==> Key(Users, u) !in part
  {
    if Select(part, Users, u) != map[] {
      var k :| k in Select(part, Users, u);
      assert k == Key(Users, u);
    }
    if Key(Users, u) in part {
      assert Key(Users, u) in Select(part, Users, u);
    }
  }

  lemma PartIsDeclared(s: State, u: string)
    requires Inv(s)
    ensures forall k :: k in Part(s.db, u) ==> Declared(k, s.db[k])
  {
    forall k | k in Part(s.db, u) ensures Declared(k, s.db[k]) {
      assert AtHome(s.born, k, s.db[k]);
    }
  }

  /** Whatever others do meanwhile, nothing of another user's is read. With no other
      transaction of the user about, the export is exactly the user's rows as they
      were, and stay; it fails if the user is not there, and without faults only
      then. */
  method ExportUser(pool: Pool, userId: string, env: Environment) returns (r: Result<Export, Error>)
    requires pool.Valid() && userId != ""
    modifies pool
    ensures pool.Valid() && old(pool.history) <= pool.history
    ensures r.Ok? ==>
              forall k, row :: Exported(r.value, k, row) ==> k in pool.state.born && pool.state.born[k] == userId
    ensures env.alone && r.Ok? ==>
              && ExportUserData(old(pool.state).db, userId) == Ok(r.value)
              && ExportsAll(r.value, old(pool.state).db, userId)
    ensures env.alone ==> Part(pool.state.db, userId) == old(Part(pool.state.db, userId))
    ensures env.alone && Faultless(env) ==> (r.Ok? <==> Key(Users, userId) in old(Part(pool.state.db, userId)))
    ensures env.alone && Faultless(env) && r.Err? ==> r.error.CallbackFailed? && r.error.error == NOT_FOUND
  {
    ghost var start := pool.state;
    ghost var t;
    ExportIsCareful(userId);
    PartIsDeclared(start, userId);
    r, t := pool.WithUserContext(userId, ExportData(userId), |TABLES|, {}, env);
    ExportLeaves(Part(start.db, userId), userId, env, t.answers, t.stmts);
    if r.Ok? {
      ExportIsOwn(pool.state, userId, r.value, t.answers);
    }
    if env.alone {
      ExportResult(start.db, userId, env, r, t.answers, t.stmts);
    }
  }
}
