/** The tables, their foreign keys, and what deleting a user removes. */
module Schema {
  import opened Wrappers

  datatype Table =
    | Users | AuthIdentities | UserProfiles
    | Resumes | ResumeExtractions
    | Vacancies | VacancyScores | TailoredDocuments
    | Applications | ApplicationEvents
    | LlmUsageLogs

  datatype Key = Key(table: Table, id: string)

  datatype Value = Null | Text(text: string) | Number(n: real) | Flag(on: bool)

  type Columns = map<string, Value>

  /** `owner` is the row's user: `id` in users, `user_id` elsewhere. `parents`
      gives the target of each foreign key, all declared ON DELETE CASCADE. */
  datatype Row = Row(owner: string, parents: map<Table, string>, columns: Columns)

  type Db = map<Key, Row>

  function ValueIn(row: Row, column: string): Value {
    if column in row.columns then row.columns[column] else Null
  }

  function NumberIn(row: Row, column: string): real {
    if ValueIn(row, column).Number? then ValueIn(row, column).n else 0.0
  }

  function TextIn(row: Row, column: string): string {
    if ValueIn(row, column).Text? then ValueIn(row, column).text else ""
  }

  /** The tables a table's foreign keys point to. */
  function ForeignKeys(t: Table): set<Table> {
    match t
    case Users => {}
    case ResumeExtractions => {Users, Resumes}
    case VacancyScores => {Users, Vacancies}
    case TailoredDocuments => {Users, Vacancies, Resumes}
    case Applications => {Users, Vacancies}
    case ApplicationEvents => {Users, Applications}
    case _ => {Users}
  }

  function Refs(row: Row): set<Key> {
    set t | t in row.parents :: Key(t, row.parents[t])
  }

  /** A row fits its table: one target for each foreign key, its owner among them. */
  predicate Declared(k: Key, row: Row) {
    && row.parents.Keys == ForeignKeys(k.table)
    && (if k.table == Users then row.owner == k.id else row.parents[Users] == row.owner)
    && (k.table == UserProfiles ==> k.id == row.owner)
  }

  /** Every row fits its table and every foreign key has its target. */
  predicate Integral(db: Db) {
    forall k :: k in db ==> Declared(k, db[k]) && Refs(db[k]) <= db.Keys
  }

  /** A child row and its parents belong to the same user. */
  predicate OwnersAgree(db: Db) {
    forall k, p :: k in db && p in Refs(db[k]) && p in db ==> db[p].owner == db[k].owner
  }

  function Owned(db: Db, u: string): set<Key> {
    set k | k in db && db[k].owner == u
  }

  // ---- ON DELETE CASCADE ----

  function Children(db: Db, dead: set<Key>): set<Key> {
    set k | k in db && Refs(db[k]) * dead != {}
  }

  /** What falls with `dead`: its children, their children, and so on. */
  function Doomed(db: Db, dead: set<Key>): (r: set<Key>)
    requires dead <= db.Keys
    ensures dead <= r <= db.Keys
    decreases |db.Keys - dead|
  {
    var next := dead + Children(db, dead);
    if next == dead then dead
    else
      assert db.Keys - next < db.Keys - dead;
      Fewer(db.Keys - next, db.Keys - dead);
      Doomed(db, next)
  }

  lemma Fewer(a: set<Key>, b: set<Key>)
    requires a < b
    ensures |a| < |b|
  {
    assert b == a + (b - a);
  }

  function Minus(db: Db, dead: set<Key>): Db {
    map k | k in db && k !in dead :: db[k]
  }

  predicate Closed(db: Db, dead: set<Key>) {
    Children(db, dead) <= dead
  }

  /** The cascade stops at the least set that holds the given rows and, with any
      row, every row that refers to it. */
  lemma {:induction false} DoomedIsLeastClosed(db: Db, dead: set<Key>, other: set<Key>)
    requires dead <= db.Keys
    ensures Closed(db, Doomed(db, dead))
    ensures dead <= other && Closed(db, other) ==> Doomed(db, dead) <= other
    decreases |db.Keys - dead|
  {
    var next := dead + Children(db, dead);
    if next != dead {
      Fewer(db.Keys - next, db.Keys - dead);
      DoomedIsLeastClosed(db, next, other);
      if dead <= other && Closed(db, other) {
        assert Children(db, dead) <= Children(db, other);
      }
    }
  }

  /** `DELETE FROM users WHERE id = u` on the whole database. */
  function DeleteUser(db: Db, u: string): Db {
    Minus(db, Doomed(db, {Key(Users, u)} * db.Keys))
  }

  lemma OwnedIsClosed(db: Db, u: string)
    requires Integral(db) && OwnersAgree(db)
    ensures Closed(db, Owned(db, u))
  {
    forall k | k in Children(db, Owned(db, u)) ensures k in Owned(db, u) {
      var p :| p in Refs(db[k]) * Owned(db, u);
    }
  }

  lemma OwnerIsReferred(db: Db, k: Key)
    requires Integral(db) && k in db
    ensures Key(Users, db[k].owner) in db
    ensures k.table != Users ==> Key(Users, db[k].owner) in Refs(db[k])
  {
    if k.table != Users {
      assert db[k].parents[Users] == db[k].owner;
    }
  }

  /** With owners in agreement, deleting a user removes exactly the rows the user
      owns, two-step chains through resumes, vacancies and applications included. */
  lemma CascadeRemovesExactlyOwned(db: Db, u: string)
    requires Integral(db) && OwnersAgree(db)
    ensures Doomed(db, {Key(Users, u)} * db.Keys) == Owned(db, u)
  {
    var seed := {Key(Users, u)} * db.Keys;
    OwnedIsClosed(db, u);
    DoomedIsLeastClosed(db, seed, Owned(db, u));
    var doomed := Doomed(db, seed);
    forall k | k in Owned(db, u) ensures k in doomed {
      OwnerIsReferred(db, k);
      assert Key(Users, u) in seed;
      if k.table != Users {
        assert Key(Users, u) in Refs(db[k]) * doomed;
        assert k in Children(db, doomed);
      }
    }
  }

  /** The agreement is what it takes: the cascade removes exactly the owned rows
      of every user if and only if children and parents agree on their owner. */
  lemma CascadeIsExactIffOwnersAgree(db: Db)
    requires Integral(db)
    ensures OwnersAgree(db) <==> forall u :: Doomed(db, {Key(Users, u)} * db.Keys) == Owned(db, u)
  {
    if OwnersAgree(db) {
      forall u ensures Doomed(db, {Key(Users, u)} * db.Keys) == Owned(db, u) {
        CascadeRemovesExactlyOwned(db, u);
      }
    } else {
      var k, p :| k in db && p in Refs(db[k]) && p in db && db[p].owner != db[k].owner;
      var u := db[p].owner;
      var doomed := Doomed(db, {Key(Users, u)} * db.Keys);
      DoomedIsLeastClosed(db, {Key(Users, u)} * db.Keys, {});
      if p in doomed {
        assert p in Refs(db[k]) * doomed;
        assert k in Children(db, doomed);
      }
      assert doomed != Owned(db, u);
    }
  }

  /** Deletion keeps the database sound and other users' rows as they were. */
  lemma DeletionIsClean(db: Db, u: string)
    requires Integral(db) && OwnersAgree(db)
    ensures Integral(DeleteUser(db, u)) && OwnersAgree(DeleteUser(db, u))
    ensures Owned(DeleteUser(db, u), u) == {} && Key(Users, u) !in DeleteUser(db, u)
    ensures forall k :: k in db && db[k].owner != u ==> k in DeleteUser(db, u) && DeleteUser(db, u)[k] == db[k]
  {
    CascadeRemovesExactlyOwned(db, u);
    var after := DeleteUser(db, u);
    forall k | k in after ensures Refs(after[k]) <= after.Keys {
      forall p | p in Refs(after[k]) ensures p in after {
        assert db[p].owner == db[k].owner;
      }
    }
  }

  // ---- Export ----

  datatype Export = Export(
    user: Db, authIdentities: Db, userProfile: Db, resumes: Db, resumeExtractions: Db, vacancies: Db,
    vacancyScores: Db, tailoredDocuments: Db, applications: Db, applicationEvents: Db, llmUsageLogs: Db)

  /** `SELECT * FROM t WHERE owner = u` */
  function Select(db: Db, t: Table, u: string): Db {
    map k | k in db && k.table == t && db[k].owner == u :: db[k]
  }

  /** The eleven reads, put together. */
  function Gather(read: Table -> Db): Export {
    Export(
      read(Users), read(AuthIdentities), read(UserProfiles), read(Resumes), read(ResumeExtractions), read(Vacancies),
      read(VacancyScores), read(TailoredDocuments), read(Applications), read(ApplicationEvents), read(LlmUsageLogs))
  }

  function ExportUserData(db: Db, u: string): Result<Export, string> {
    if Select(db, Users, u) == map[] then Err("not found") else Ok(Gather(t => Select(db, t, u)))
  }

  /** Where an export keeps the rows of a table. */
  function Field(e: Export, t: Table): Db {
    match t
    case Users => e.user
    case AuthIdentities => e.authIdentities
    case UserProfiles => e.userProfile
    case Resumes => e.resumes
    case ResumeExtractions => e.resumeExtractions
    case Vacancies => e.vacancies
    case VacancyScores => e.vacancyScores
    case TailoredDocuments => e.tailoredDocuments
    case Applications => e.applications
    case ApplicationEvents => e.applicationEvents
    case LlmUsageLogs => e.llmUsageLogs
  }

  /** Does the export hold the row, in its table's place? */
  predicate Exported(e: Export, k: Key, row: Row) {
    k in Field(e, k.table) && Field(e, k.table)[k] == row
  }

  /** What was exported is exactly what a deletion then removes, row for row; no
      table is forgotten by either. */
  lemma ExportIsWhatDeletionRemoves(db: Db, u: string)
    requires Integral(db) && OwnersAgree(db)
    ensures ExportUserData(db, u).Ok? <==> Key(Users, u) in db
    ensures ExportUserData(db, u).Ok? ==>
              forall k, row :: Exported(ExportUserData(db, u).value, k, row) <==>
                  k in db && db[k] == row && k !in DeleteUser(db, u)
    ensures ExportUserData(db, u).Ok? ==>
              |ExportUserData(db, u).value.user| == 1 && |ExportUserData(db, u).value.userProfile| <= 1
  {
    CascadeRemovesExactlyOwned(db, u);
    OneUserSelected(db, u);
    if Key(Users, u) in db {
      OneProfileSelected(db, u);
      ExportHoldsOwned(db, u);
    }
  }

  lemma OneUserSelected(db: Db, u: string)
    requires Integral(db)
    ensures ExportUserData(db, u).Ok? <==> Key(Users, u) in db
    ensures |Select(db, Users, u)| == if Key(Users, u) in db then 1 else 0
  {
    var user := Select(db, Users, u);
    forall k | k in user ensures k == Key(Users, u) {
      assert Declared(k, db[k]);
    }
    if Key(Users, u) in db {
      assert Declared(Key(Users, u), db[Key(Users, u)]);
      assert Key(Users, u) in user && user.Keys == {Key(Users, u)};
    } else {
      assert user == map[];
    }
  }

  lemma OneProfileSelected(db: Db, u: string)
    requires Integral(db)
    ensures |Select(db, UserProfiles, u)| <= 1
  {
    forall k | k in Select(db, UserProfiles, u) ensures k == Key(UserProfiles, u) {
      assert Declared(k, db[k]);
    }
    AtMostOne(Select(db, UserProfiles, u), Key(UserProfiles, u));
  }

  lemma FieldIsRead(read: Table -> Db, t: Table)
    ensures Field(Gather(read), t) == read(t)
  {
  }

  lemma ExportHoldsOwned(db: Db, u: string)
    requires ExportUserData(db, u).Ok?
    ensures forall k, row :: Exported(ExportUserData(db, u).value, k, row) <==>
              k in db && db[k] == row && db[k].owner == u
  {
    var e := ExportUserData(db, u).value;
    forall k, row ensures Exported(e, k, row) <==> k in db && db[k] == row && db[k].owner == u {
      FieldIsRead(t => Select(db, t, u), k.table);
      assert k in Select(db, k.table, u) <==> k in db && db[k].owner == u;
    }
  }

  lemma AtMostOne(m: Db, k: Key)
    requires forall x :: x in m ==> x == k
    ensures |m| <= 1
  {
    if m != map[] {
      assert m.Keys == {k};
    }
  }
}
