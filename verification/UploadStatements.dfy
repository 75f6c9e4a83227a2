/** Uploads on the account store: every run of the upload machine is a run of scoped
    transactions, its steps the statements they execute under the row policies. */
module UploadStatements {
  import opened Wrappers
  import opened Schema
  import opened RowSecurity
  import opened Tenancy
  import opened Transactions
  import BlobStorage
  import ReadById
  import ResumeContent
  import U = Uploads
  import UploadProperties

  type ResumeRows = map<string, U.ResumeRow>

  function RowKey(id: string): Key {
    Key(Resumes, id)
  }

  function Encode(row: U.ResumeRow): Row {
    ResumeContent.ResumeRow(row)
  }

  // ---- The statements of an upload and of an erasure ----

  function InsertRow(id: string, u: string, file: U.File): Statement {
    Insert(RowKey(id), Encode(U.ResumeRow(u, U.PENDING, file, true)))
  }

  function SetPath(id: string, path: string): Statement {
    Update((k: Key, row: Row) => k == RowKey(id), (row: Row) => row.columns["blob_storage_path" := Text(path)])
  }

  function DeactivateOthers(id: string, u: string): Statement {
    Update((k: Key, row: Row) => k.table == Resumes && row.owner == u && k.id != id,
           (row: Row) => row.columns["is_active" := Flag(false)])
  }

  // ---- The two states ----

  /** The row an upload has inserted, as it stands. */
  function OwnRow(up: U.Upload): U.ResumeRow {
    U.ResumeRow(up.user, up.path, up.file, true)
  }

  function Deactivated(row: U.ResumeRow): Row {
    Encode(row.(active := false))
  }

  /** The uncommitted rows of an upload: its own, and those it has deactivated. */
  predicate Pending(id: string, own: Row, off: set<string>, rows: ResumeRows, o: Overlay) {
    && (forall k :: k in o ==> k.table == Resumes && (k.id == id || k.id in off))
    && RowKey(id) in o && o[RowKey(id)] == Some(own)
    && (forall x :: x in off ==> x in rows && RowKey(x) in o && o[RowKey(x)] == Some(Deactivated(rows[x])))
  }

  predicate RowSame(users: set<string>, rows: ResumeRows, k: Key, row: Row) {
    match k.table
    case Users => k.id in users && row.owner == k.id && row.parents == map[]
    case AuthIdentities => row.owner in users && row.parents == map[Users := row.owner]
    case Resumes => k.id in rows && row == Encode(rows[k.id])
    case _ => false
  }

  predicate DbSame(users: set<string>, rows: ResumeRows, db: Db) {
    && (forall k :: k in db ==> RowSame(users, rows, k, db[k]))
    && (forall u :: u in users ==> u != "" && Key(Users, u) in db)
    && (forall id :: id in rows ==> rows[id].owner in users && RowKey(id) in db)
  }

  predicate BornSame(used: set<string>, users: set<string>, born: map<Key, string>) {
    && "" !in users
    && (forall k :: k in born && k.table == Resumes ==> k.id in used)
    && (forall k :: k in born && k.table == Users ==> k.id in users)
    && (forall k :: k in born && k.table == AuthIdentities ==> k.id in users)
  }

  predicate UploadSame(id: string, up: U.Upload, rows: ResumeRows, conn: Conn) {
    && conn.Open? && conn.user == up.user && conn.v == Some(up.user) && !conn.failed
    && Pending(id, Encode(OwnRow(up)), up.off, rows, conn.overlay)
  }

  /** Each upload under way is a transaction on a connection of its own. */
  predicate ConnsSame(uploads: map<string, U.Upload>, rows: ResumeRows, t: State, conns: map<string, nat>) {
    && conns.Keys == uploads.Keys
    && (forall x, y :: x in conns && y in conns && conns[x] == conns[y] ==> x == y)
    && (forall x :: x in uploads && x in conns ==> UploadSame(x, uploads[x], rows, ConnOf(t, conns[x])))
  }

  ghost predicate Same(a: U.State, t: State, conns: map<string, nat>) {
    && DbSame(a.users, a.rows, t.db) && BornSame(a.used, a.users + a.erasing, t.born)
    && ConnsSame(a.uploads, a.rows, t, conns)
  }

  lemma EmptyIsSame()
    ensures Same(U.EMPTY, EMPTY, map[])
  {
  }

  // ---- Effects of the statements ----

  /** An update writes the user's matching rows, each with its columns changed. */
  lemma UpdateEffect(u: string, view: Db, stmt: Statement)
    requires stmt.Update? && u != ""
    ensures
      var e := Execute(Some(u), view, stmt);
      && e.Some?
      && (forall k :: k in e.value.writes <==> k in view && view[k].owner == u && stmt.filter(k, view[k]))
      && (forall k :: k in e.value.writes ==> e.value.writes[k] == Some(view[k].(columns := stmt.change(view[k]))))
  {
  }

  lemma PathIsSet(up: U.Upload, path: string)
    ensures
      var row := Encode(OwnRow(up));
      row.(columns := row.columns["blob_storage_path" := Text(path)]) == Encode(OwnRow(up.(path := path)))
  {
  }

  lemma RowIsDeactivated(r: U.ResumeRow)
    ensures var row := Encode(r); row.(columns := row.columns["is_active" := Flag(false)]) == Deactivated(r)
  {
  }

  lemma SetPathWrites(view: Db, up: U.Upload, id: string, path: string)
    requires RowKey(id) in view && view[RowKey(id)] == Encode(OwnRow(up)) && up.user != ""
    ensures
      var e := Execute(Some(up.user), view, SetPath(id, path));
      e.Some? && e.value.writes == map[RowKey(id) := Some(Encode(OwnRow(up.(path := path))))]
  {
    UpdateEffect(up.user, view, SetPath(id, path));
    PathIsSet(up, path);
  }

  /** Setting the path of the transaction's own row leaves the rest of its writes. */
  lemma OwnRowChanged(id: string, own: Row, own': Row, off: set<string>, rows: ResumeRows, o: Overlay)
    requires Pending(id, own, off, rows, o) && id !in rows
    ensures Pending(id, own', off, rows, o + map[RowKey(id) := Some(own')])
  {
  }

  /** What the deactivation writes: every other row of the user, no longer active. */
  ghost predicate DeactivationWrites(off: set<string>, rows: ResumeRows, writes: Overlay) {
    && (forall k :: k in writes <==> k.table == Resumes && k.id in off)
    && (forall k :: k in writes ==> k.id in rows && writes[k] == Some(Deactivated(rows[k.id])))
  }

  /** A row of a transaction's view, before it has deactivated any. */
  lemma InView(users: set<string>, rows: ResumeRows, db: Db, id: string, own: Row, o: Overlay, k: Key)
    requires DbSame(users, rows, db) && Pending(id, own, {}, rows, o) && k.table == Resumes && k.id != id
    ensures k in Merge(db, o) <==> k.id in rows
    ensures k in Merge(db, o) ==> Merge(db, o)[k] == Encode(rows[k.id])
  {
    if k.id in rows {
      assert k == RowKey(k.id) && RowSame(users, rows, k, db[k]);
    }
  }

  lemma DeactivateWrites(users: set<string>, rows: ResumeRows, db: Db, id: string, up: U.Upload, o: Overlay,
                         off: set<string>)
    requires DbSame(users, rows, db) && up.user != "" && id !in rows
    requires Pending(id, Encode(OwnRow(up)), {}, rows, o)
    requires forall x :: x in off <==> x in rows && rows[x].owner == up.user
    ensures
      var e := Execute(Some(up.user), Merge(db, o), DeactivateOthers(id, up.user));
      e.Some? && DeactivationWrites(off, rows, e.value.writes)
  {
    var view, stmt := Merge(db, o), DeactivateOthers(id, up.user);
    UpdateEffect(up.user, view, stmt);
    var writes := Execute(Some(up.user), view, stmt).value.writes;
    forall k ensures k in writes <==> k.table == Resumes && k.id in off {
      if k.table == Resumes && k.id != id {
        InView(users, rows, db, id, Encode(OwnRow(up)), o, k);
      }
    }
    forall k | k in writes ensures k.id in rows && writes[k] == Some(Deactivated(rows[k.id])) {
      InView(users, rows, db, id, Encode(OwnRow(up)), o, k);
      RowIsDeactivated(rows[k.id]);
    }
  }

  lemma OthersDeactivated(id: string, own: Row, off: set<string>, rows: ResumeRows, o: Overlay, writes: Overlay)
    requires Pending(id, own, {}, rows, o) && DeactivationWrites(off, rows, writes) && off <= rows.Keys && id !in off
    ensures Pending(id, own, off, rows, o + writes)
  {
    forall x | x in off ensures RowKey(x) in writes {
    }
  }

  // ---- Steps of one upload beside the others ----

  lemma OneChanges(uploads: map<string, U.Upload>, rows: ResumeRows, t: State, t': State, conns: map<string, nat>,
                   id: string, up: U.Upload)
    requires ConnsSame(uploads, rows, t, conns) && id in uploads
    requires forall d :: d != conns[id] ==> ConnOf(t', d) == ConnOf(t, d)
    requires UploadSame(id, up, rows, ConnOf(t', conns[id]))
    ensures ConnsSame(uploads[id := up], rows, t', conns)
  {
  }

  lemma PathOnConn(t: State, c: nat, id: string, up: U.Upload, rows: ResumeRows, path: string)
    requires UploadSame(id, up, rows, ConnOf(t, c)) && up.user != "" && id !in rows
    ensures UploadSame(id, up.(path := path), rows, ConnOf(Apply(t, Run(c, SetPath(id, path))), c))
  {
    var o := ConnOf(t, c).overlay;
    StatementOnConn(t, c, SetPath(id, path));
    SetPathWrites(Merge(t.db, o), up, id, path);
    OwnRowChanged(id, Encode(OwnRow(up)), Encode(OwnRow(up.(path := path))), up.off, rows, o);
  }

  lemma DeactivationOnConn(t: State, c: nat, users: set<string>, rows: ResumeRows, id: string, up: U.Upload,
                           off: set<string>)
    requires DbSame(users, rows, t.db) && UploadSame(id, up, rows, ConnOf(t, c)) && up.off == {}
    requires up.user != "" && id !in rows
    requires forall x :: x in off <==> x in rows && rows[x].owner == up.user
    ensures UploadSame(id, up.(off := off), rows, ConnOf(Apply(t, Run(c, DeactivateOthers(id, up.user))), c))
  {
    var o := ConnOf(t, c).overlay;
    StatementOnConn(t, c, DeactivateOthers(id, up.user));
    DeactivateWrites(users, rows, t.db, id, up, o, off);
    var writes := EffectOf(t, c, DeactivateOthers(id, up.user)).value.writes;
    OthersDeactivated(id, Encode(OwnRow(up)), off, rows, o, writes);
  }

  /** A row is inserted by a transaction that has done nothing else. */
  lemma InsertOnConn(t: State, c: nat, id: string, u: string, file: U.File)
    requires u != "" && ConnOf(t, c) == Open(u, Some(u), map[], false)
    requires RowKey(id) !in t.born && RowKey(id) !in t.db && Key(Users, u) in t.db
    ensures Enabled(t, Run(c, InsertRow(id, u, file)))
    ensures
      var t' := Apply(t, Run(c, InsertRow(id, u, file)));
      && UploadSame(id, U.Upload(u, file, U.PENDING, {}, {}, U.Inserted), map[], ConnOf(t', c))
      && t'.db == t.db && t'.born == t.born[RowKey(id) := u]
      && (forall d :: d != c ==> ConnOf(t', d) == ConnOf(t, d))
  {
    var stmt := InsertRow(id, u, file);
    var e := EffectOf(t, c, stmt);
    assert Merge(t.db, map[]) == t.db;
    InsertedAlone(u, t.db, stmt);
    EffectOnConn(t, c, stmt, e);
    ShownAfterRun(t, c, stmt, e, "");
  }

  lemma InsertedAlone(u: string, view: Db, stmt: Statement)
    requires stmt.Insert? && stmt.key !in view && stmt.row.owner == u && u != ""
    requires stmt.row.parents == map[Users := u] && Key(Users, u) in view
    ensures Refs(stmt.row) == {Key(Users, u)}
    ensures Execute(Some(u), view, stmt) == Some(Effect(map[stmt.key := stmt.row], map[stmt.key := Some(stmt.row)]))
  {
    assert Users in stmt.row.parents && stmt.row.parents[Users] == u;
    assert Key(Users, u) in Refs(stmt.row);
  }

  // ---- The end of a transaction ----

  /** The commit puts the transaction's rows in the place of what they were. */
  lemma CommitDb(users: set<string>, rows: ResumeRows, rows': ResumeRows, db: Db, id: string, own: U.ResumeRow,
                 off: set<string>, o: Overlay)
    requires DbSame(users, rows, db) && Pending(id, Encode(own), off, rows, o) && id !in rows && own.owner in users
    requires rows'.Keys == rows.Keys + {id} && rows'[id] == own
    requires forall x :: x in rows ==> rows'[x] == if x in off then rows[x].(active := false) else rows[x]
    ensures DbSame(users, rows', Merge(db, o))
  {
    var after := Merge(db, o);
    forall k | k in after ensures RowSame(users, rows', k, after[k]) {
      if k in o {
        assert k == RowKey(k.id);
      } else {
        assert RowSame(users, rows, k, db[k]) && k != RowKey(id);
        assert k.table == Resumes ==> k.id !in off;
      }
    }
    forall u | u in users ensures Key(Users, u) in after {
      assert Key(Users, u) !in o;
    }
    forall x | x in rows' ensures rows'[x].owner in users && RowKey(x) in after {
    }
  }

  lemma OneKept(id: string, up: U.Upload, up': U.Upload, rows: ResumeRows, rows': ResumeRows, conn: Conn)
    requires UploadSame(id, up, rows, conn) && up' == up.(missed := up'.missed)
    requires forall x :: x in rows && x in up.off ==>
               x in rows' && rows'[x].(active := false) == rows[x].(active := false)
    ensures UploadSame(id, up', rows', conn)
  {
    forall x | x in up.off ensures x in rows' && Deactivated(rows'[x]) == Deactivated(rows[x]) {
    }
  }

  /** With one transaction over, the others are as they were. */
  lemma OneEnds(uploads: map<string, U.Upload>, uploads': map<string, U.Upload>, rows: ResumeRows, rows': ResumeRows,
                t: State, t': State, conns: map<string, nat>, id: string)
    requires ConnsSame(uploads, rows, t, conns) && id in uploads && uploads'.Keys == uploads.Keys - {id}
    requires forall x :: x in uploads' ==> uploads'[x] == uploads[x].(missed := uploads'[x].missed)
    requires forall d :: d != conns[id] ==> ConnOf(t', d) == ConnOf(t, d)
    requires forall x :: x in rows ==> x in rows' && rows'[x].(active := false) == rows[x].(active := false)
    ensures ConnsSame(uploads', rows', t', conns - {id})
  {
    forall x | x in uploads' ensures conns[x] != conns[id] && UploadSame(x, uploads'[x], rows', ConnOf(t', conns[x])) {
      OneKept(x, uploads[x], uploads'[x], rows, rows', ConnOf(t, conns[x]));
    }
  }

  // ---- Erasing a user's rows ----

  lemma StoreIsIntegral(users: set<string>, rows: ResumeRows, db: Db)
    requires DbSame(users, rows, db)
    ensures Integral(db) && OwnersAgree(db)
  {
    forall k | k in db ensures Declared(k, db[k]) && Refs(db[k]) <= {Key(Users, db[k].owner)} <= db.Keys {
      assert RowSame(users, rows, k, db[k]);
    }
    forall k, p | k in db && p in Refs(db[k]) && p in db ensures db[p].owner == db[k].owner {
      assert RowSame(users, rows, k, db[k]) && RowSame(users, rows, p, db[p]);
      assert p == Key(Users, db[k].owner);
    }
  }

  /** The delete takes the user's rows, by its cascade. */
  lemma EraseWrites(users: set<string>, rows: ResumeRows, db: Db, u: string)
    requires DbSame(users, rows, db) && u != ""
    ensures
      var e := Execute(Some(u), db, DeleteUserRow(u));
      && e.Some?
      && (forall k :: k in e.value.writes <==> k in db && db[k].owner == u)
      && (forall k :: k in e.value.writes ==> e.value.writes[k] == None)
  {
    var me := Key(Users, u);
    assert me in db ==> RowSame(users, rows, me, db[me]);
    StoreIsIntegral(users, rows, db);
    CascadeRemovesExactlyOwned(db, u);
    var hit := Matching(Some(u), db, (k: Key, row: Row) => k == me);
    assert hit.Keys == {me} * db.Keys;
  }

  lemma EraseDb(users: set<string>, rows: ResumeRows, rows': ResumeRows, db: Db, u: string, gone: Overlay)
    requires DbSame(users, rows, db)
    requires forall k :: k in gone <==> k in db && db[k].owner == u
    requires forall k :: k in gone ==> gone[k] == None
    requires forall x :: x in rows' <==> x in rows && rows[x].owner != u
    requires forall x :: x in rows' ==> rows'[x] == rows[x]
    ensures DbSame(users - {u}, rows', Merge(db, gone))
  {
    var after := Merge(db, gone);
    forall k | k in after ensures RowSame(users - {u}, rows', k, after[k]) {
      assert RowSame(users, rows, k, db[k]) && db[k].owner != u;
    }
    forall v | v in users - {u} ensures v != "" && Key(Users, v) in after {
      assert RowSame(users, rows, Key(Users, v), db[Key(Users, v)]);
    }
    forall x | x in rows' ensures rows'[x].owner in users - {u} && RowKey(x) in after {
      assert RowSame(users, rows, RowKey(x), db[RowKey(x)]);
    }
  }

  lemma EraseOnConn(t: State, c: nat, users: set<string>, rows: ResumeRows, rows': ResumeRows, u: string)
    requires DbSame(users, rows, t.db) && u != "" && ConnOf(t, c) == Open(u, Some(u), map[], false)
    requires forall x :: x in rows' <==> x in rows && rows[x].owner != u
    requires forall x :: x in rows' ==> rows'[x] == rows[x]
    ensures
      var e := EffectOf(t, c, DeleteUserRow(u));
      e.Some? && DbSame(users - {u}, rows', Merge(t.db, ConnOf(t, c).overlay + e.value.writes))
  {
    assert Merge(t.db, map[]) == t.db;
    EraseWrites(users, rows, t.db, u);
    var writes := Execute(Some(u), t.db, DeleteUserRow(u)).value.writes;
    assert map[] + writes == writes;
    EraseDb(users, rows, rows', t.db, u, writes);
  }

  // ---- Step by step ----

  /** The statements of a step, on a connection of its own or a new one. */
  function Statements(a: U.State, step: U.Step, c: nat): seq<Step>
    requires U.Enabled(a, step)
  {
    match step
    case Insert(id, u, file) => [Begin(c, u), SetUser(c), Run(c, InsertRow(id, u, file))]
    case SetPath(id) => [Run(c, SetPath(id, U.KeyOfUpload(id, a.uploads[id])))]
    case DeactivateOthers(id) => [Run(c, DeactivateOthers(id, a.uploads[id].user))]
    case Commit(id) => [Commit(c)]
    case Abort(id) => [Rollback(c)]
    case CreateUser(u) => [CreateAccount(u, u)]
    case EraseRows(u) => [Begin(c, u), SetUser(c), Run(c, DeleteUserRow(u)), Commit(c)]
    case _ => []
  }

  function ConnsAfter(conns: map<string, nat>, step: U.Step, c: nat): map<string, nat> {
    match step
    case Insert(id, _, _) => conns[id := c]
    case Commit(id) => conns - {id}
    case Abort(id) => conns - {id}
    case _ => conns
  }

  /** An upload under way has a user, and no committed row yet. */
  predicate UnderWay(a: U.State, id: string) {
    && id in a.uploads && id !in a.rows && a.uploads[id].user in a.users
    && (a.uploads[id].phase != U.Deactivated ==> a.uploads[id].off == {})
  }

  lemma UploadsAreUnderWay(a: U.State, id: string)
    requires U.Inv(a) && id in a.uploads
    ensures UnderWay(a, id)
  {
    assert U.UploadOk(a, id, a.uploads[id]) && U.SightOk(a, id, a.uploads[id]);
  }

  lemma PlaySetPath(a: U.State, id: string, t: State, conns: map<string, nat>)
    requires Same(a, t, conns) && UnderWay(a, id) && U.Enabled(a, U.SetPath(id))
    ensures
      var ts := Statements(a, U.SetPath(id), conns[id]);
      Runs(t, ts) && Same(U.Apply(a, U.SetPath(id)), Exec(t, ts), conns)
  {
    var up, c, path := a.uploads[id], conns[id], U.KeyOfUpload(id, a.uploads[id]);
    var step := Run(c, SetPath(id, path));
    RunOne(t, step);
    StatementOnConn(t, c, SetPath(id, path));
    PathOnConn(t, c, id, up, a.rows, path);
    OneChanges(a.uploads, a.rows, t, Apply(t, step), conns, id, up.(path := path, phase := U.PathSet));
  }

  lemma PlayDeactivate(a: U.State, id: string, t: State, conns: map<string, nat>)
    requires Same(a, t, conns) && UnderWay(a, id) && U.Enabled(a, U.DeactivateOthers(id))
    ensures
      var ts := Statements(a, U.DeactivateOthers(id), conns[id]);
      Runs(t, ts) && Same(U.Apply(a, U.DeactivateOthers(id)), Exec(t, ts), conns)
  {
    var up, c := a.uploads[id], conns[id];
    var off := U.RowsOf(a, up.user);
    assert off - {id} == off;
    var step := Run(c, DeactivateOthers(id, up.user));
    RunOne(t, step);
    StatementOnConn(t, c, DeactivateOthers(id, up.user));
    DeactivationOnConn(t, c, a.users, a.rows, id, up, off);
    OneChanges(a.uploads, a.rows, t, Apply(t, step), conns, id, up.(off := off, phase := U.Deactivated));
  }

  /** One upload's commit, as the next state shows it. */
  predicate CommitsTo(a: U.State, id: string, a': U.State)
    requires id in a.uploads
  {
    var up := a.uploads[id];
    && a'.users == a.users && a'.erasing == a.erasing && a'.used == a.used
    && a'.uploads.Keys == a.uploads.Keys - {id} && a'.rows.Keys == a.rows.Keys + {id} && a'.rows[id] == OwnRow(up)
    && (forall x :: x in a'.uploads ==> a'.uploads[x] == a.uploads[x].(missed := a'.uploads[x].missed))
    && (forall x :: x in a.rows ==> a'.rows[x] == if x in up.off then a.rows[x].(active := false) else a.rows[x])
  }

  lemma CommitsToNext(a: U.State, id: string)
    requires U.Enabled(a, U.Commit(id)) && id !in a.rows
    ensures CommitsTo(a, id, U.Apply(a, U.Commit(id)))
  {
  }

  lemma CommitOnConn(t: State, c: nat, id: string, up: U.Upload, users: set<string>, rows: ResumeRows,
                     rows': ResumeRows)
    requires DbSame(users, rows, t.db) && UploadSame(id, up, rows, ConnOf(t, c)) && id !in rows && up.user in users
    requires rows'.Keys == rows.Keys + {id} && rows'[id] == OwnRow(up)
    requires forall x :: x in rows ==> rows'[x] == if x in up.off then rows[x].(active := false) else rows[x]
    ensures
      var t' := Apply(t, Commit(c));
      && DbSame(users, rows', t'.db) && t'.born == t.born && (forall d :: d != c ==> ConnOf(t', d) == ConnOf(t, d))
  {
    CommitDb(users, rows, rows', t.db, id, OwnRow(up), up.off, ConnOf(t, c).overlay);
  }

  lemma CommitConns(a: U.State, id: string, a': U.State, t: State, conns: map<string, nat>)
    requires ConnsSame(a.uploads, a.rows, t, conns) && id in a.uploads && CommitsTo(a, id, a')
    ensures ConnsSame(a'.uploads, a'.rows, Apply(t, Commit(conns[id])), conns - {id})
  {
    var t' := Apply(t, Commit(conns[id]));
    CommitMovesOn(t, conns[id]);
    OneEnds(a.uploads, a'.uploads, a.rows, a'.rows, t, t', conns, id);
  }

  lemma CommitMovesOn(t: State, c: nat)
    requires Enabled(t, Commit(c))
    ensures Apply(t, Commit(c)).born == t.born && forall d :: d != c ==> ConnOf(Apply(t, Commit(c)), d) == ConnOf(t, d)
  {
  }

  lemma CommitSame(a: U.State, id: string, a': U.State, t: State, conns: map<string, nat>)
    requires Same(a, t, conns) && UnderWay(a, id) && CommitsTo(a, id, a')
    ensures Runs(t, [Commit(conns[id])]) && Same(a', Exec(t, [Commit(conns[id])]), conns - {id})
  {
    RunOne(t, Commit(conns[id]));
    CommitOnConn(t, conns[id], id, a.uploads[id], a.users, a.rows, a'.rows);
    CommitConns(a, id, a', t, conns);
  }

  lemma PlayAbort(a: U.State, id: string, t: State, conns: map<string, nat>)
    requires Same(a, t, conns) && UnderWay(a, id) && U.Enabled(a, U.Abort(id))
    ensures
      var ts := Statements(a, U.Abort(id), conns[id]);
      Runs(t, ts) && Same(U.Apply(a, U.Abort(id)), Exec(t, ts), conns - {id})
  {
    RunOne(t, Rollback(conns[id]));
    var a', t' := U.Apply(a, U.Abort(id)), Apply(t, Rollback(conns[id]));
    OneEnds(a.uploads, a'.uploads, a.rows, a.rows, t, t', conns, id);
  }

  lemma OneBegins(uploads: map<string, U.Upload>, rows: ResumeRows, t: State, t': State, conns: map<string, nat>,
                  id: string, up: U.Upload, c: nat)
    requires ConnsSame(uploads, rows, t, conns) && id !in uploads && ConnOf(t, c).Idle?
    requires forall d :: d != c ==> ConnOf(t', d) == ConnOf(t, d)
    requires UploadSame(id, up, rows, ConnOf(t', c))
    ensures ConnsSame(uploads[id := up], rows, t', conns[id := c])
  {
    forall x | x in uploads ensures conns[x] != c {
      assert UploadSame(x, uploads[x], rows, ConnOf(t, conns[x]));
    }
  }

  lemma ConnsLast(uploads: map<string, U.Upload>, rows: ResumeRows, t: State, t': State, conns: map<string, nat>,
                  c: nat)
    requires ConnsSame(uploads, rows, t, conns) && ConnOf(t, c).Idle?
    requires forall d :: d != c ==> ConnOf(t', d) == ConnOf(t, d)
    ensures ConnsSame(uploads, rows, t', conns)
  {
    forall x | x in uploads ensures conns[x] != c {
      assert UploadSame(x, uploads[x], rows, ConnOf(t, conns[x]));
    }
  }

  lemma InsertRuns(t: State, c: nat, id: string, u: string, file: U.File)
    requires u != "" && ConnOf(t, c).Idle?
    requires RowKey(id) !in t.born && RowKey(id) !in t.db && Key(Users, u) in t.db
    ensures
      var ts := [Begin(c, u), SetUser(c), Run(c, InsertRow(id, u, file))];
      && Runs(t, ts) && Exec(t, ts).db == t.db && Exec(t, ts).born == t.born[RowKey(id) := u]
      && UploadSame(id, U.Upload(u, file, U.PENDING, {}, {}, U.Inserted), map[], ConnOf(Exec(t, ts), c))
      && (forall d :: d != c ==> ConnOf(Exec(t, ts), d) == ConnOf(t, d))
  {
    Scoped(t, c, u);
    var t1 := Apply(t, Begin(c, u));
    var t2 := Apply(t1, SetUser(c));
    InsertOnConn(t2, c, id, u, file);
    RunThree(t, Begin(c, u), SetUser(c), Run(c, InsertRow(id, u, file)));
  }

  lemma PlayInsert(a: U.State, id: string, u: string, file: U.File, t: State, conns: map<string, nat>, c: nat)
    requires Same(a, t, conns) && U.Enabled(a, U.Insert(id, u, file)) && id !in a.rows && id !in a.uploads
    requires ConnOf(t, c).Idle?
    ensures
      var ts := Statements(a, U.Insert(id, u, file), c);
      Runs(t, ts) && Same(U.Apply(a, U.Insert(id, u, file)), Exec(t, ts), conns[id := c])
  {
    assert RowKey(id) in t.db ==> RowSame(a.users, a.rows, RowKey(id), t.db[RowKey(id)]);
    InsertRuns(t, c, id, u, file);
    var t' := Exec(t, Statements(a, U.Insert(id, u, file), c));
    OneBegins(a.uploads, a.rows, t, t', conns, id, U.Upload(u, file, U.PENDING, {}, {}, U.Inserted), c);
  }

  lemma AccountDb(users: set<string>, rows: ResumeRows, db: Db, u: string)
    requires DbSame(users, rows, db) && u != "" && u !in users
    ensures
      DbSame(users + {u}, rows,
             db[Key(Users, u) := Row(u, map[], map[])][Key(AuthIdentities, u) := Row(u, map[Users := u], map[])])
  {
    var db' := db[Key(Users, u) := Row(u, map[], map[])][Key(AuthIdentities, u) := Row(u, map[Users := u], map[])];
    forall k | k in db' ensures RowSame(users + {u}, rows, k, db'[k]) {
      if k in db { assert RowSame(users, rows, k, db[k]); }
    }
  }

  lemma ConnsAsTheyWere(uploads: map<string, U.Upload>, rows: ResumeRows, t: State, t': State, conns: map<string, nat>)
    requires ConnsSame(uploads, rows, t, conns) && t'.conns == t.conns
    ensures ConnsSame(uploads, rows, t', conns)
  {
  }

  lemma PlayCreateUser(a: U.State, u: string, t: State, conns: map<string, nat>, c: nat)
    requires Same(a, t, conns) && U.Enabled(a, U.CreateUser(u))
    ensures
      var ts := Statements(a, U.CreateUser(u), c);
      Runs(t, ts) && Same(U.Apply(a, U.CreateUser(u)), Exec(t, ts), conns)
  {
    RunOne(t, CreateAccount(u, u));
    AccountDb(a.users, a.rows, t.db, u);
    var t' := Apply(t, CreateAccount(u, u));
    ConnsAsTheyWere(a.uploads, a.rows, t, t', conns);
  }

  lemma EraseRuns(t: State, c: nat, users: set<string>, rows: ResumeRows, rows': ResumeRows, u: string)
    requires DbSame(users, rows, t.db) && u != "" && ConnOf(t, c).Idle?
    requires forall x :: x in rows' <==> x in rows && rows[x].owner != u
    requires forall x :: x in rows' ==> rows'[x] == rows[x]
    ensures
      var ts := [Begin(c, u), SetUser(c), Run(c, DeleteUserRow(u)), Commit(c)];
      && Runs(t, ts) && Exec(t, ts).born == t.born && DbSame(users - {u}, rows', Exec(t, ts).db)
      && (forall d :: d != c ==> ConnOf(Exec(t, ts), d) == ConnOf(t, d))
  {
    var delete := Run(c, DeleteUserRow(u));
    Scoped(t, c, u);
    RunThree(t, Begin(c, u), SetUser(c), delete);
    var t2 := Apply(Apply(t, Begin(c, u)), SetUser(c));
    StatementOnConn(t2, c, DeleteUserRow(u));
    EraseOnConn(t2, c, users, rows, rows', u);
    var t3 := Apply(t2, delete);
    RunOne(t3, Commit(c));
    RunsAppend(t, [Begin(c, u), SetUser(c), delete], [Commit(c)]);
    assert [Begin(c, u), SetUser(c), delete] + [Commit(c)] == [Begin(c, u), SetUser(c), delete, Commit(c)];
  }

  /** No upload has deactivated rows of another user. */
  predicate OffIsOwn(a: U.State) {
    forall x, y :: x in a.uploads && y in a.uploads[x].off && y in a.rows ==> a.rows[y].owner == a.uploads[x].user
  }

  lemma OffOfUploads(a: U.State)
    requires U.Inv(a)
    ensures OffIsOwn(a)
  {
    forall x, y | x in a.uploads && y in a.uploads[x].off && y in a.rows
      ensures a.rows[y].owner == a.uploads[x].user
    {
      assert U.SightOk(a, x, a.uploads[x]);
    }
  }

  lemma RowsGo(a: U.State, rows': ResumeRows, t: State, conns: map<string, nat>, u: string)
    requires ConnsSame(a.uploads, a.rows, t, conns) && OffIsOwn(a) && !U.Uploading(a, u)
    requires forall x :: x in rows' <==> x in a.rows && a.rows[x].owner != u
    requires forall x :: x in rows' ==> rows'[x] == a.rows[x]
    ensures ConnsSame(a.uploads, rows', t, conns)
  {
    forall x | x in a.uploads ensures UploadSame(x, a.uploads[x], rows', ConnOf(t, conns[x])) {
      OneKept(x, a.uploads[x], a.uploads[x], a.rows, rows', ConnOf(t, conns[x]));
    }
  }

  lemma PlayEraseRows(a: U.State, u: string, t: State, conns: map<string, nat>, c: nat)
    requires Same(a, t, conns) && OffIsOwn(a) && U.Enabled(a, U.EraseRows(u)) && ConnOf(t, c).Idle?
    ensures
      var ts := Statements(a, U.EraseRows(u), c);
      Runs(t, ts) && Same(U.Apply(a, U.EraseRows(u)), Exec(t, ts), conns)
  {
    var rows' := U.Apply(a, U.EraseRows(u)).rows;
    EraseRuns(t, c, a.users, a.rows, rows', u);
    var t' := Exec(t, Statements(a, U.EraseRows(u), c));
    ConnsLast(a.uploads, a.rows, t, t', conns, c);
    RowsGo(a, rows', t', conns, u);
  }

  lemma PlayStore(a: U.State, id: string, t: State, conns: map<string, nat>)
    requires Same(a, t, conns) && UnderWay(a, id) && U.Enabled(a, U.StoreBlob(id))
    ensures Runs(t, []) && Same(U.Apply(a, U.StoreBlob(id)), Exec(t, []), conns)
  {
    OneChanges(a.uploads, a.rows, t, t, conns, id, a.uploads[id].(phase := U.Stored));
  }

  /** A connection for a step: the upload's, or an idle one for a new transaction. */
  predicate Serves(t: State, conns: map<string, nat>, step: U.Step, c: nat) {
    match step
    case Insert(_, _, _) => ConnOf(t, c).Idle?
    case EraseRows(_) => ConnOf(t, c).Idle?
    case SetPath(id) => id in conns && c == conns[id]
    case DeactivateOthers(id) => id in conns && c == conns[id]
    case Commit(id) => id in conns && c == conns[id]
    case Abort(id) => id in conns && c == conns[id]
    case _ => true
  }

  lemma SomeServes(a: U.State, step: U.Step, t: State, conns: map<string, nat>) returns (c: nat)
    requires Same(a, t, conns) && U.Enabled(a, step)
    ensures Serves(t, conns, step, c)
  {
    SomeIdle(t);
    var idle: nat :| ConnOf(t, idle).Idle?;
    c := match step
      case Insert(_, _, _) => idle
      case EraseRows(_) => idle
      case SetPath(id) => conns[id]
      case DeactivateOthers(id) => conns[id]
      case Commit(id) => conns[id]
      case Abort(id) => conns[id]
      case _ => 0;
  }

  lemma PlayBegin(a: U.State, u: string, t: State, conns: map<string, nat>)
    requires Same(a, t, conns) && U.Enabled(a, U.BeginErasure(u))
    ensures Runs(t, []) && Same(U.Apply(a, U.BeginErasure(u)), Exec(t, []), conns)
  {
  }

  /** Each step of an upload or an erasure is what its statements do. */
  lemma StepIsItsStatements(a: U.State, step: U.Step, t: State, conns: map<string, nat>, c: nat)
    requires U.Inv(a) && Same(a, t, conns) && U.Enabled(a, step) && Serves(t, conns, step, c)
    ensures
      var ts := Statements(a, step, c);
      Runs(t, ts) && Same(U.Apply(a, step), Exec(t, ts), ConnsAfter(conns, step, c))
  {
    match step
    case Insert(id, u, file) =>
      assert id !in a.rows && id !in a.uploads;
      PlayInsert(a, id, u, file, t, conns, c);
    case StoreBlob(id) =>
      UploadsAreUnderWay(a, id);
      PlayStore(a, id, t, conns);
    case SetPath(id) =>
      UploadsAreUnderWay(a, id);
      PlaySetPath(a, id, t, conns);
    case DeactivateOthers(id) =>
      UploadsAreUnderWay(a, id);
      PlayDeactivate(a, id, t, conns);
    case Commit(id) =>
      UploadsAreUnderWay(a, id);
      CommitsToNext(a, id);
      CommitSame(a, id, U.Apply(a, step), t, conns);
    case Abort(id) =>
      UploadsAreUnderWay(a, id);
      PlayAbort(a, id, t, conns);
    case CreateUser(u) => PlayCreateUser(a, u, t, conns, c);
    case BeginErasure(u) => PlayBegin(a, u, t, conns);
    case EraseBlob(_, _) =>
    case EraseRows(u) =>
      OffOfUploads(a);
      PlayEraseRows(a, u, t, conns, c);
  }

  /** A run's statements, each step on the connection given for it. */
  function Transcript(a: U.State, steps: seq<U.Step>, cs: seq<nat>): seq<Step>
    requires U.Runs(a, steps) && |cs| == |steps|
    decreases |steps|
  {
    if steps == [] then []
    else Statements(a, steps[0], cs[0]) + Transcript(U.Apply(a, steps[0]), steps[1..], cs[1..])
  }

  lemma {:induction false} RunIsItsStatements(a: U.State, steps: seq<U.Step>, t: State, conns: map<string, nat>)
    returns (cs: seq<nat>, conns': map<string, nat>)
    requires U.Inv(a) && Same(a, t, conns) && U.Runs(a, steps)
    ensures |cs| == |steps|
    ensures var ts := Transcript(a, steps, cs); Runs(t, ts) && Same(U.Exec(a, steps), Exec(t, ts), conns')
    decreases |steps|
  {
    if steps == [] {
      cs, conns' := [], conns;
    } else {
      var c := SomeServes(a, steps[0], t, conns);
      var now := Statements(a, steps[0], c);
      StepIsItsStatements(a, steps[0], t, conns, c);
      U.StepKeepsInv(a, steps[0]);
      var a' := U.Apply(a, steps[0]);
      cs, conns' := RunIsItsStatements(a', steps[1..], Exec(t, now), ConnsAfter(conns, steps[0], c));
      RunsAppend(t, now, Transcript(a', steps[1..], cs));
      assert ([c] + cs)[1..] == cs;
      cs := [c] + cs;
    }
  }

  /** The stored resumes of a run of uploads and erasures are those its statements,
      executed under the policies from an empty store, have committed; every rule
      of the scoped transactions holds of it. */
  lemma UploadsAreScopedTransactions(steps: seq<U.Step>) returns (cs: seq<nat>)
    requires U.Runs(U.EMPTY, steps)
    ensures |cs| == |steps|
    ensures
      var a, ts := U.Exec(U.EMPTY, steps), Transcript(U.EMPTY, steps, cs);
      && Runs(EMPTY, ts) && Inv(Exec(EMPTY, ts))
      && (forall id :: id in a.rows <==> RowKey(id) in Exec(EMPTY, ts).db)
      && (forall id :: id in a.rows ==> Exec(EMPTY, ts).db[RowKey(id)] == Encode(a.rows[id]))
      && (forall u :: u in a.users <==> Key(Users, u) in Exec(EMPTY, ts).db)
  {
    U.EmptyIsSound();
    EmptyIsSound();
    EmptyIsSame();
    var conns;
    cs, conns := RunIsItsStatements(U.EMPTY, steps, EMPTY, map[]);
    var ts := Transcript(U.EMPTY, steps, cs);
    RunInv(EMPTY, ts);
    StoreShows(U.Exec(U.EMPTY, steps), Exec(EMPTY, ts).db);
  }

  lemma StoreShows(a: U.State, db: Db)
    requires DbSame(a.users, a.rows, db)
    ensures forall id :: id in a.rows <==> RowKey(id) in db
    ensures forall id :: id in a.rows ==> db[RowKey(id)] == Encode(a.rows[id])
    ensures forall u :: u in a.users <==> Key(Users, u) in db
  {
    forall id | RowKey(id) in db ensures id in a.rows && db[RowKey(id)] == Encode(a.rows[id]) {
      assert RowSame(a.users, a.rows, RowKey(id), db[RowKey(id)]);
    }
    forall u | Key(Users, u) in db ensures u in a.users {
      assert RowSame(a.users, a.rows, Key(Users, u), db[Key(Users, u)]);
    }
  }

  // ---- What the readers of a resume get ----

  /** What a user gets who asks for a resume by its id. */
  function FileFor(db: Db, blobs: BlobStorage.Blobs, u: string, id: string)
    : Result<ResumeContent.StoredFile, ResumeContent.ContentError>
  {
    ResumeContent.FileOf(ReadById.Own(db, u, RowKey(id)), blobs)
  }

  /** After any run of uploads and erasures, the owner of an uploaded resume gets its
      file byte for byte unless the owner's erasure has begun; anyone else, and
      anyone who asks for a resume that is not there, is told that there is none. */
  lemma UploadedFileComesBack(steps: seq<U.Step>) returns (cs: seq<nat>)
    requires U.Runs(U.EMPTY, steps)
    ensures |cs| == |steps|
    ensures
      var a, ts := U.Exec(U.EMPTY, steps), Transcript(U.EMPTY, steps, cs);
      && Runs(EMPTY, ts)
      && (forall id, u :: id in a.rows && a.rows[id].owner !in a.erasing ==>
            FileFor(Exec(EMPTY, ts).db, a.blobs, u, id) ==
              if u == a.rows[id].owner
              then Ok(ResumeContent.StoredFile(a.rows[id].file.content, a.rows[id].file.mimeType))
              else Err(ResumeContent.NoSuchResume))
      && (forall id, u :: id !in a.rows ==>
            FileFor(Exec(EMPTY, ts).db, a.blobs, u, id) == Err(ResumeContent.NoSuchResume))
  {
    cs := UploadsAreScopedTransactions(steps);
    var a, db := U.Exec(U.EMPTY, steps), Exec(EMPTY, Transcript(U.EMPTY, steps, cs)).db;
    U.EmptyIsSound();
    forall id, u | id in a.rows && a.rows[id].owner !in a.erasing
      ensures FileFor(db, a.blobs, u, id) ==
                if u == a.rows[id].owner
                then Ok(ResumeContent.StoredFile(a.rows[id].file.content, a.rows[id].file.mimeType))
                else Err(ResumeContent.NoSuchResume)
    {
      UploadProperties.NoRowWithoutItsFile(U.EMPTY, steps, id);
      ResumeContent.RowLeadsToItsFile(db, a.blobs, u, id, a.rows[id]);
    }
  }
}
