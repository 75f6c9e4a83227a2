/** Resume uploads, many at once: the statements of each upload's transaction, the
    blob written in its midst, and account erasure, in any interleaving. Each
    statement reads the rows committed before it (READ COMMITTED). */
module Uploads {
  import opened BlobStorage

  datatype File = File(mimeType: string, extension: string, content: Bytes)

  datatype ResumeRow = ResumeRow(owner: string, path: string, file: File, active: bool)

  datatype Phase = Inserted | Stored | PathSet | Deactivated

  /** A transaction under way for the row of one upload. `path` is the row's path
      so far, `off` the committed rows it has deactivated, and `missed` the user's
      rows committed since then, which it never saw. */
  datatype Upload = Upload(user: string, file: File, path: string, off: set<string>, missed: set<string>, phase: Phase)

  /** `erasing` holds the users whose erasure has begun, `latest` the row each user
      committed last, `used` every row id there ever was. */
  datatype State = State(
    rows: map<string, ResumeRow>,
    blobs: Blobs,
    users: set<string>,
    erasing: set<string>,
    uploads: map<string, Upload>,
    used: set<string>,
    latest: map<string, string>)

  datatype Step =
    | Insert(id: string, user: string, file: File)
    | StoreBlob(id: string)
    | SetPath(id: string)
    | DeactivateOthers(id: string)
    | Commit(id: string)
    | Abort(id: string)                        // whatever failed
    | CreateUser(user: string)
    | BeginErasure(user: string)
    | EraseBlob(user: string, key: string)
    | EraseRows(user: string)

  const PENDING := "pending"

  function KeyOfUpload(id: string, up: Upload): string {
    KeyFor(up.user, id, up.file.extension)
  }

  predicate InPhase(s: State, id: string, phase: Phase) {
    id in s.uploads && s.uploads[id].phase == phase
  }

  predicate Uploading(s: State, u: string) {
    exists id :: id in s.uploads && s.uploads[id].user == u
  }

  /** Ids come from the database as fresh UUIDs. Deleting the user's row waits for
      the locks of the user's uploads. */
  predicate Enabled(s: State, step: Step) {
    match step
    case Insert(id, u, _) => id !in s.used && '.' !in id && u in s.users
    case StoreBlob(id) => InPhase(s, id, Inserted)
    case SetPath(id) => InPhase(s, id, Stored)
    case DeactivateOthers(id) => InPhase(s, id, PathSet)
    case Commit(id) => InPhase(s, id, Deactivated)
    case Abort(id) => id in s.uploads
    case CreateUser(u) => u != "" && u !in s.users && u !in s.erasing && u !in s.latest && '/' !in u
    case BeginErasure(u) => u in s.users
    case EraseBlob(u, key) => u in s.erasing && Prefix(u) <= key
    case EraseRows(u) => u in s.erasing && !Uploading(s, u)
  }

  function RowsOf(s: State, u: string): set<string> {
    set id | id in s.rows && s.rows[id].owner == u
  }

  function ActiveOf(s: State, u: string): set<string> {
    set id | id in s.rows && s.rows[id].owner == u && s.rows[id].active
  }

  function Committed(s: State, id: string): map<string, ResumeRow>
    requires id in s.uploads
  {
    var up := s.uploads[id];
    map x | x in s.rows.Keys + {id} ::
      if x == id then ResumeRow(up.user, up.path, up.file, true)
      else if x in up.off then s.rows[x].(active := false)
      else s.rows[x]
  }

  /** An upload past its deactivation misses a row that its user commits now. */
  function Missing(up: Upload, u: string, id: string): Upload {
    if up.user == u && up.phase == Deactivated then up.(missed := up.missed + {id}) else up
  }

  function Apply(s: State, step: Step): State
    requires Enabled(s, step)
  {
    match step
    case Insert(id, u, file) =>
      s.(uploads := s.uploads[id := Upload(u, file, PENDING, {}, {}, Inserted)], used := s.used + {id})
    case StoreBlob(id) =>
      var up := s.uploads[id];
      s.(blobs := s.blobs[KeyOfUpload(id, up) := up.file.content], uploads := s.uploads[id := up.(phase := Stored)])
    case SetPath(id) =>
      var up := s.uploads[id];
      s.(uploads := s.uploads[id := up.(path := KeyOfUpload(id, up), phase := PathSet)])
    case DeactivateOthers(id) =>
      var up := s.uploads[id];
      s.(uploads := s.uploads[id := up.(off := RowsOf(s, up.user) - {id}, phase := Deactivated)])
    case Commit(id) =>
      var u := s.uploads[id].user;
      s.(rows := Committed(s, id),
         uploads := map x | x in s.uploads && x != id :: Missing(s.uploads[x], u, id),
         latest := s.latest[u := id])
    case Abort(id) => s.(uploads := s.uploads - {id})
    case CreateUser(u) => s.(users := s.users + {u})
    case BeginErasure(u) => s.(erasing := s.erasing + {u})
    case EraseBlob(_, key) => s.(blobs := s.blobs - {key})
    case EraseRows(u) => s.(rows := s.rows - RowsOf(s, u), users := s.users - {u})
  }

  predicate Runs(s: State, steps: seq<Step>)
    decreases |steps|
  {
    steps == [] || (Enabled(s, steps[0]) && Runs(Apply(s, steps[0]), steps[1..]))
  }

  function Exec(s: State, steps: seq<Step>): State
    requires Runs(s, steps)
    decreases |steps|
  {
    if steps == [] then s else Exec(Apply(s, steps[0]), steps[1..])
  }

  // ---- What every step keeps ----

  /** The file is in the container, unless erasing its owner may have taken it. */
  predicate FileKept(blobs: Blobs, erasing: set<string>, owner: string, key: string, file: File) {
    owner in erasing || (key in blobs && blobs[key] == file.content)
  }

  predicate RowOk(s: State, id: string, row: ResumeRow) {
    && id in s.used && '.' !in id && '/' !in row.owner && row.owner in s.users && id !in s.uploads
    && row.path == KeyFor(row.owner, id, row.file.extension)
    && FileKept(s.blobs, s.erasing, row.owner, row.path, row.file)
  }

  predicate UploadOk(s: State, id: string, up: Upload) {
    && id in s.used && '.' !in id && '/' !in up.user && up.user in s.users
    && up.path == (if up.phase == Inserted || up.phase == Stored then PENDING else KeyOfUpload(id, up))
    && (up.phase != Inserted ==> FileKept(s.blobs, s.erasing, up.user, KeyOfUpload(id, up), up.file))
  }

  /** What an upload has deactivated and missed is together all its user has. */
  predicate SightOk(s: State, id: string, up: Upload) {
    && up.off !! up.missed && up.off !! s.uploads.Keys && up.missed !! s.uploads.Keys && up.off + up.missed <= s.used
    && (up.phase != Deactivated ==> up.off == {} && up.missed == {})
    && (forall x :: x in up.off && x in s.rows ==> s.rows[x].owner == up.user)
    && (up.phase == Deactivated ==> RowsOf(s, up.user) <= up.off + up.missed)
    && (up.missed != {} ==> up.user in s.latest && s.latest[up.user] in up.missed)
  }

  predicate LatestOk(s: State, u: string, id: string) {
    && id in s.used && id !in s.uploads
    && (u in s.users ==> id in s.rows)
    && (id in s.rows ==> s.rows[id].owner == u && s.rows[id].active)
  }

  ghost predicate Inv(s: State) {
    && (forall u :: u in s.users || u in s.erasing ==> '/' !in u)
    && (forall id :: id in s.rows ==> RowOk(s, id, s.rows[id]))
    && (forall id :: id in s.uploads ==> UploadOk(s, id, s.uploads[id]))
    && (forall id :: id in s.uploads ==> SightOk(s, id, s.uploads[id]))
    && (forall u :: u in s.latest ==> LatestOk(s, u, s.latest[u]))
  }

  /** Before anyone has signed in. */
  const EMPTY := State(map[], map[], {}, {}, map[], {}, map[])

  lemma EmptyIsSound()
    ensures Inv(EMPTY)
  {
  }

  lemma StepKeepsInv(s: State, step: Step)
    requires Inv(s) && Enabled(s, step)
    ensures Inv(Apply(s, step))
  {
    match step
    case Insert(id, u, file) => InsertKeepsInv(s, id, u, file);
    case StoreBlob(id) => StoreKeepsInv(s, id);
    case SetPath(id) => PathKeepsInv(s, id);
    case DeactivateOthers(id) => DeactivateKeepsInv(s, id);
    case Commit(id) => CommitKeepsInv(s, id);
    case Abort(id) => AbortKeepsInv(s, id);
    case EraseBlob(u, key) => EraseBlobKeepsInv(s, u, key);
    case EraseRows(u) => EraseRowsKeepsInv(s, u);
    case CreateUser(u) => UsersKeepInv(s, Apply(s, step));
    case BeginErasure(u) => UsersKeepInv(s, Apply(s, step));
  }

  lemma UsersKeepInv(s: State, s': State)
    requires Inv(s) && s' == s.(users := s'.users, erasing := s'.erasing)
    requires s.users <= s'.users && s.erasing <= s'.erasing
    requires forall u :: u in s'.users || u in s'.erasing ==> '/' !in u
    requires forall u :: u in s'.users ==> (u in s.latest ==> u in s.users)
    ensures Inv(s')
  {
    forall id | id in s'.uploads ensures SightOk(s', id, s'.uploads[id]) {
      assert SightOk(s, id, s.uploads[id]);
    }
  }

  lemma InsertKeepsInv(s: State, id: string, u: string, file: File)
    requires Inv(s) && Enabled(s, Insert(id, u, file))
    ensures Inv(Apply(s, Insert(id, u, file)))
  {
    var s' := Apply(s, Insert(id, u, file));
    forall x | x in s'.uploads ensures SightOk(s', x, s'.uploads[x]) && UploadOk(s', x, s'.uploads[x]) {
      if x != id {
        assert SightOk(s, x, s.uploads[x]) && UploadOk(s, x, s.uploads[x]);
        assert RowsOf(s', s.uploads[x].user) == RowsOf(s, s.uploads[x].user);
      }
    }
  }

  /** Writing a blob under the key of one row or upload leaves every other's file. */
  lemma KeysApart(u: string, id: string, ext: string, u': string, id': string, ext': string)
    requires '/' !in u && '/' !in u' && '.' !in id && '.' !in id' && id != id'
    ensures KeyFor(u, id, ext) != KeyFor(u', id', ext')
  {
    KeysAreInjective(u, id, ext, u', id', ext');
  }

  lemma StoreKeepsInv(s: State, id: string)
    requires Inv(s) && Enabled(s, StoreBlob(id))
    ensures Inv(Apply(s, StoreBlob(id)))
  {
    var s' := Apply(s, StoreBlob(id));
    var up := s.uploads[id];
    assert UploadOk(s, id, up);
    forall x | x in s'.rows ensures RowOk(s', x, s'.rows[x]) {
      RowBesideStore(s, id, x);
    }
    forall x | x in s'.uploads ensures UploadOk(s', x, s'.uploads[x]) {
      UploadBesideStore(s, id, x);
    }
    SightLasts(s, s', id);
  }

  lemma RowBesideStore(s: State, id: string, x: string)
    requires Enabled(s, StoreBlob(id)) && UploadOk(s, id, s.uploads[id]) && x in s.rows && RowOk(s, x, s.rows[x])
    ensures RowOk(Apply(s, StoreBlob(id)), x, s.rows[x])
  {
    var up := s.uploads[id];
    KeysApart(up.user, id, up.file.extension, s.rows[x].owner, x, s.rows[x].file.extension);
  }

  lemma UploadBesideStore(s: State, id: string, x: string)
    requires Enabled(s, StoreBlob(id)) && UploadOk(s, id, s.uploads[id])
    requires x in s.uploads && UploadOk(s, x, s.uploads[x])
    ensures UploadOk(Apply(s, StoreBlob(id)), x, Apply(s, StoreBlob(id)).uploads[x])
  {
    var up := s.uploads[id];
    if x != id {
      KeysApart(up.user, id, up.file.extension, s.uploads[x].user, x, s.uploads[x].file.extension);
    }
  }

  /** A change of one upload's phase before its deactivation. */
  lemma SightLasts(s: State, s': State, id: string)
    requires forall x :: x in s.uploads ==> SightOk(s, x, s.uploads[x])
    requires s'.rows == s.rows && s'.latest == s.latest && s'.used == s.used
    requires id in s.uploads && id in s'.uploads && s'.uploads == s.uploads[id := s'.uploads[id]]
    requires s.uploads[id].phase != Deactivated && s'.uploads[id].phase != Deactivated
    requires s'.uploads[id].off == {} && s'.uploads[id].missed == {}
    ensures forall x :: x in s'.uploads ==> SightOk(s', x, s'.uploads[x])
  {
    forall x | x in s'.uploads ensures SightOk(s', x, s'.uploads[x]) {
      assert SightOk(s, x, s.uploads[x]);
      assert RowsOf(s', s'.uploads[x].user) == RowsOf(s, s'.uploads[x].user);
    }
  }

  /** A step that changes one upload in place leaves rows and latest uploads sound. */
  lemma RowsLast(s: State, s': State)
    requires Inv(s) && s' == s.(uploads := s'.uploads) && s'.uploads.Keys <= s.uploads.Keys
    ensures forall id :: id in s'.rows ==> RowOk(s', id, s'.rows[id])
    ensures forall u :: u in s'.latest ==> LatestOk(s', u, s'.latest[u])
  {
  }

  lemma PathKeepsInv(s: State, id: string)
    requires Inv(s) && Enabled(s, SetPath(id))
    ensures Inv(Apply(s, SetPath(id)))
  {
    var s' := Apply(s, SetPath(id));
    RowsLast(s, s');
    assert UploadOk(s, id, s.uploads[id]) && SightOk(s, id, s.uploads[id]);
    SightLasts(s, s', id);
    forall x | x in s'.uploads ensures UploadOk(s', x, s'.uploads[x]) {
      assert UploadOk(s, x, s.uploads[x]);
    }
  }

  lemma DeactivateKeepsInv(s: State, id: string)
    requires Inv(s) && Enabled(s, DeactivateOthers(id))
    ensures Inv(Apply(s, DeactivateOthers(id)))
  {
    var s' := Apply(s, DeactivateOthers(id));
    RowsLast(s, s');
    assert UploadOk(s, id, s.uploads[id]);
    forall x | x in s'.uploads ensures SightOk(s', x, s'.uploads[x]) && UploadOk(s', x, s'.uploads[x]) {
      assert SightOk(s, x, s.uploads[x]) && UploadOk(s, x, s.uploads[x]);
      assert RowsOf(s', s.uploads[x].user) == RowsOf(s, s.uploads[x].user);
    }
  }

  lemma CommitKeepsInv(s: State, id: string)
    requires Inv(s) && Enabled(s, Commit(id))
    ensures Inv(Apply(s, Commit(id)))
  {
    var s' := Apply(s, Commit(id));
    assert UploadOk(s, id, s.uploads[id]) && SightOk(s, id, s.uploads[id]);
    RowsOkAfterCommit(s, id);
    forall x | x in s'.uploads ensures UploadOk(s', x, s'.uploads[x]) && SightOk(s', x, s'.uploads[x]) {
      UploadBesideCommit(s, id, x);
      SightAfterCommit(s, id, x);
    }
    forall u | u in s'.latest ensures LatestOk(s', u, s'.latest[u]) {
      if u != s.uploads[id].user {
        LatestAfterCommit(s, id, u);
      }
    }
  }

  lemma UploadBesideCommit(s: State, id: string, x: string)
    requires Enabled(s, Commit(id)) && x in s.uploads && x != id && UploadOk(s, x, s.uploads[x])
    ensures UploadOk(Apply(s, Commit(id)), x, Apply(s, Commit(id)).uploads[x])
  {
  }

  lemma RowsOkAfterCommit(s: State, id: string)
    requires Inv(s) && Enabled(s, Commit(id))
    ensures forall x :: x in Committed(s, id) ==> RowOk(Apply(s, Commit(id)), x, Committed(s, id)[x])
  {
    assert UploadOk(s, id, s.uploads[id]);
    forall x | x in Committed(s, id) ensures RowOk(Apply(s, Commit(id)), x, Committed(s, id)[x]) {
      if x != id { assert RowOk(s, x, s.rows[x]); }
    }
  }

  /** A commit adds its own row and takes none away or to another user. */
  lemma RowsAfterCommit(s: State, id: string, u: string)
    requires id in s.uploads && id !in s.rows
    ensures Committed(s, id).Keys == s.rows.Keys + {id}
    ensures forall x :: x in s.rows ==> Committed(s, id)[x].owner == s.rows[x].owner
    ensures
      (set x | x in Committed(s, id) && Committed(s, id)[x].owner == u)
      == RowsOf(s, u) + if u == s.uploads[id].user then {id} else {}
  {
  }

  lemma SightAfterCommit(s: State, id: string, x: string)
    requires Inv(s) && Enabled(s, Commit(id)) && x in s.uploads && x != id
    ensures SightOk(Apply(s, Commit(id)), x, Apply(s, Commit(id)).uploads[x])
  {
    assert id !in s.rows;
    SightKeptByCommit(s, id, x);
  }

  lemma SightKeptByCommit(s: State, id: string, x: string)
    requires Enabled(s, Commit(id)) && id !in s.rows && id in s.used && x in s.uploads && x != id
    requires SightOk(s, x, s.uploads[x])
    ensures SightOk(Apply(s, Commit(id)), x, Apply(s, Commit(id)).uploads[x])
  {
    var s' := Apply(s, Commit(id));
    var mine := s.uploads[x];
    RowsAfterCommit(s, id, mine.user);
    assert RowsOf(s', mine.user) == RowsOf(s, mine.user) + if mine.user == s.uploads[id].user then {id} else {};
    assert s'.uploads.Keys == s.uploads.Keys - {id};
  }

  lemma LatestAfterCommit(s: State, id: string, u: string)
    requires Inv(s) && Enabled(s, Commit(id)) && u in s.latest && u != s.uploads[id].user
    ensures LatestOk(Apply(s, Commit(id)), u, s.latest[u])
  {
    assert LatestOk(s, u, s.latest[u]) && SightOk(s, id, s.uploads[id]);
  }

  lemma AbortKeepsInv(s: State, id: string)
    requires Inv(s) && Enabled(s, Abort(id))
    ensures Inv(Apply(s, Abort(id)))
  {
    var s' := Apply(s, Abort(id));
    forall x | x in s'.uploads ensures SightOk(s', x, s'.uploads[x]) && UploadOk(s', x, s'.uploads[x]) {
      assert SightOk(s, x, s.uploads[x]) && UploadOk(s, x, s.uploads[x]);
      assert RowsOf(s', s.uploads[x].user) == RowsOf(s, s.uploads[x].user);
    }
  }

  lemma EraseBlobKeepsInv(s: State, u: string, key: string)
    requires Inv(s) && Enabled(s, EraseBlob(u, key))
    ensures Inv(Apply(s, EraseBlob(u, key)))
  {
    var s' := Apply(s, EraseBlob(u, key));
    forall x | x in s'.rows ensures RowOk(s', x, s'.rows[x]) {
      assert RowOk(s, x, s.rows[x]);
      if s.rows[x].owner != u {
        PrefixIsOwn(s.rows[x].owner, x, s.rows[x].file.extension, u);
      }
    }
    forall x | x in s'.uploads ensures UploadOk(s', x, s'.uploads[x]) && SightOk(s', x, s'.uploads[x]) {
      assert UploadOk(s, x, s.uploads[x]) && SightOk(s, x, s.uploads[x]);
      assert RowsOf(s', s.uploads[x].user) == RowsOf(s, s.uploads[x].user);
      if s.uploads[x].user != u {
        PrefixIsOwn(s.uploads[x].user, x, s.uploads[x].file.extension, u);
      }
    }
  }

  lemma EraseRowsKeepsInv(s: State, u: string)
    requires Inv(s) && Enabled(s, EraseRows(u))
    ensures Inv(Apply(s, EraseRows(u)))
  {
    var s' := Apply(s, EraseRows(u));
    forall x | x in s'.uploads ensures UploadOk(s', x, s'.uploads[x]) && SightOk(s', x, s'.uploads[x]) {
      assert UploadOk(s, x, s.uploads[x]) && SightOk(s, x, s.uploads[x]);
      assert RowsOf(s', s.uploads[x].user) <= RowsOf(s, s.uploads[x].user);
    }
    forall x | x in s'.rows ensures RowOk(s', x, s'.rows[x]) {
      assert RowOk(s, x, s.rows[x]);
    }
    forall v | v in s'.latest ensures LatestOk(s', v, s'.latest[v]) {
      assert LatestOk(s, v, s.latest[v]);
    }
  }
}
