/** What uploads guarantee over whole runs: files are never missing, the last upload
    is the active one, and a failed upload leaves next to nothing. */
module UploadProperties {
  import opened BlobStorage
  import opened Uploads

  lemma {:induction false} RunKeepsInv(s: State, steps: seq<Step>)
    requires Inv(s) && Runs(s, steps)
    ensures Inv(Exec(s, steps))
    decreases |steps|
  {
    if steps != [] {
      StepKeepsInv(s, steps[0]);
      RunKeepsInv(Apply(s, steps[0]), steps[1..]);
    }
  }

  /** Whatever is interleaved or fails, a committed row never holds the placeholder:
      its path is the key of its own upload, under its owner's prefix, and the file
      uploaded for it is there, unless its owner's erasure has begun. */
  lemma NoRowWithoutItsFile(s: State, steps: seq<Step>, id: string)
    requires Inv(s) && Runs(s, steps) && id in Exec(s, steps).rows
    ensures
      var e := Exec(s, steps);
      var row := e.rows[id];
      && row.path == KeyFor(row.owner, id, row.file.extension) && row.path != PENDING && Prefix(row.owner) <= row.path
      && (row.owner !in e.erasing ==> row.path in e.blobs && e.blobs[row.path] == row.file.content)
  {
    RunKeepsInv(s, steps);
    var row := Exec(s, steps).rows[id];
    assert RowOk(Exec(s, steps), id, row);
    KeyIsNotPending(row.owner, id, row.file.extension);
    PrefixIsOwn(row.owner, id, row.file.extension, row.owner);
  }

  /** In every interleaving the row of a user's last committed upload is active;
      so a user who ever completed an upload has an active resume as long as the
      account exists. */
  lemma LastUploadIsActive(s: State, steps: seq<Step>, u: string)
    requires Inv(s) && Runs(s, steps)
    ensures
      var e := Exec(s, steps);
      u in e.latest && u in e.users ==> e.latest[u] in ActiveOf(e, u)
  {
    RunKeepsInv(s, steps);
    var e := Exec(s, steps);
    if u in e.latest {
      assert LatestOk(e, u, e.latest[u]);
    }
  }

  lemma ActiveAfterCommit(s: State, id: string, v: string)
    requires Enabled(s, Commit(id)) && id !in s.rows && s.uploads[id].off * s.rows.Keys <= RowsOf(s, s.uploads[id].user)
    ensures
      ActiveOf(Apply(s, Commit(id)), v)
      == if v == s.uploads[id].user then {id} + (ActiveOf(s, v) - s.uploads[id].off) else ActiveOf(s, v)
  {
    var u, off, s' := s.uploads[id].user, s.uploads[id].off, Apply(s, Commit(id));
    forall x ensures x in ActiveOf(s', v) <==> if x == id then v == u else x in ActiveOf(s, v) && (v == u ==>
        x !in off) {
      if x in off && x in s.rows {
        assert x in off * s.rows.Keys;
      }
    }
  }

  lemma CommitSees(s: State, id: string)
    requires Inv(s) && Enabled(s, Commit(id))
    ensures id !in s.rows && s.uploads[id].off * s.rows.Keys <= RowsOf(s, s.uploads[id].user)
    ensures SightOk(s, id, s.uploads[id])
  {
    assert UploadOk(s, id, s.uploads[id]) && SightOk(s, id, s.uploads[id]);
  }

  /** Exactly one resume is active after a commit if and only if the upload missed
      no row of its user. */
  lemma OneActiveIffNoneMissed(s: State, id: string)
    requires Inv(s) && Enabled(s, Commit(id))
    ensures
      var u := s.uploads[id].user;
      ActiveOf(Apply(s, Commit(id)), u) == {id} <==> s.uploads[id].missed == {}
  {
    var up := s.uploads[id];
    CommitSees(s, id);
    ActiveAfterCommit(s, id, up.user);
    if up.missed == {} {
      assert ActiveOf(s, up.user) <= RowsOf(s, up.user) <= up.off;
    } else {
      var last := s.latest[up.user];
      assert LatestOk(s, up.user, last) && UploadOk(s, id, up);
      assert last in ActiveOf(s, up.user) - up.off && last != id;
    }
  }

  predicate IsOf(step: Step, id: string) {
    match step
    case Insert(x, _, _) => x == id
    case StoreBlob(x) => x == id
    case SetPath(x) => x == id
    case DeactivateOthers(x) => x == id
    case Commit(x) => x == id
    case Abort(x) => x == id
    case _ => false
  }

  /** The rows a user's uploads commit during a run. */
  function CommittedBy(s: State, steps: seq<Step>, u: string): set<string>
    requires Runs(s, steps)
    decreases |steps|
  {
    if steps == [] then {}
    else
      (if steps[0].Commit? && s.uploads[steps[0].id].user == u then {steps[0].id} else {})
      + CommittedBy(Apply(s, steps[0]), steps[1..], u)
  }

  lemma {:induction false} MissedIsCommittedSince(s: State, steps: seq<Step>, id: string)
    requires InPhase(s, id, Deactivated) && Runs(s, steps) && forall i :: 0 <= i < |steps| ==> !IsOf(steps[i], id)
    ensures InPhase(Exec(s, steps), id, Deactivated) && Exec(s, steps).uploads[id].user == s.uploads[id].user
    ensures Exec(s, steps).uploads[id].missed == s.uploads[id].missed + CommittedBy(s, steps, s.uploads[id].user)
    decreases |steps|
  {
    if steps != [] {
      OthersLeaveUpload(s, steps[0], id);
      MissedIsCommittedSince(Apply(s, steps[0]), steps[1..], id);
    }
  }

  lemma OthersLeaveUpload(s: State, step: Step, id: string)
    requires id in s.uploads && Enabled(s, step) && !IsOf(step, id)
    ensures id in Apply(s, step).uploads
    ensures Apply(s, step).uploads[id] ==
            if step.Commit? then Missing(s.uploads[id], s.uploads[step.id].user, step.id) else s.uploads[id]
  {
  }

  /** Whatever happens between an upload's deactivation of the others and its
      commit, the commit leaves exactly one active resume if and only if no other
      upload of the same user was committed in between. */
  lemma OneActiveIffNoCommitBetween(s: State, id: string, between: seq<Step>)
    requires Inv(s) && Enabled(s, DeactivateOthers(id)) && Runs(Apply(s, DeactivateOthers(id)), between)
    requires forall i :: 0 <= i < |between| ==> !IsOf(between[i], id)
    ensures
      var u, s' := s.uploads[id].user, Apply(s, DeactivateOthers(id));
      && Enabled(Exec(s', between), Commit(id))
      && (ActiveOf(Apply(Exec(s', between), Commit(id)), u) == {id} <==> CommittedBy(s', between, u) == {})
  {
    var s' := Apply(s, DeactivateOthers(id));
    assert SightOk(s, id, s.uploads[id]);
    StepKeepsInv(s, DeactivateOthers(id));
    RunKeepsInv(s', between);
    MissedIsCommittedSince(s', between, id);
    OneActiveIffNoneMissed(Exec(s', between), id);
  }

  // ---- Uploads that do not overlap ----

  predicate StepIsAlone(s: State, step: Step, u: string) {
    step.Insert? && step.user == u ==> !Uploading(s, u)
  }

  /** No upload of the user begins while another of the user's is under way. */
  predicate NoOverlap(s: State, steps: seq<Step>, u: string)
    requires Runs(s, steps)
    decreases |steps|
  {
    steps == [] || (StepIsAlone(s, steps[0], u) && NoOverlap(Apply(s, steps[0]), steps[1..], u))
  }

  /** The user has one upload under way at most, it has missed nothing, and of the
      user's resumes only the latest is active. */
  predicate Alone(s: State, u: string) {
    && (forall x, y :: x in s.uploads && y in s.uploads && s.uploads[x].user == u && s.uploads[y].user == u ==> x == y)
    && (forall x :: x in s.uploads && s.uploads[x].user == u ==> s.uploads[x].missed == {})
    && (forall id :: id in ActiveOf(s, u) ==> u in s.latest && s.latest[u] == id)
  }

  lemma AloneStep(s: State, step: Step, u: string)
    requires Inv(s) && Enabled(s, step) && StepIsAlone(s, step, u) && Alone(s, u)
    ensures Alone(Apply(s, step), u)
  {
    match step
    case Commit(id) => AloneCommit(s, id, u);
    case EraseRows(v) => AloneErase(s, v, u);
    case Insert(id, v, file) => AloneInsert(s, id, v, file, u);
    case _ =>
      StepBeforeCommit(s, step);
      AloneSameRows(s, Apply(s, step), u);
  }

  lemma StepBeforeCommit(s: State, step: Step)
    requires Enabled(s, step) && !step.Insert? && !step.Commit? && !step.EraseRows?
    ensures
      var s' := Apply(s, step);
      && s'.rows == s.rows && s'.latest == s.latest && s'.uploads.Keys <= s.uploads.Keys
      && forall x :: x in s'.uploads ==>
          s'.uploads[x].user == s.uploads[x].user && s'.uploads[x].missed == s.uploads[x].missed
  {
  }

  lemma AloneCommit(s: State, id: string, u: string)
    requires Inv(s) && Enabled(s, Commit(id)) && Alone(s, u)
    ensures Alone(Apply(s, Commit(id)), u)
  {
    CommitSees(s, id);
    ActiveAfterCommit(s, id, u);
    if s.uploads[id].user == u {
      OwnCommitAlone(s, id, u);
    } else {
      OtherCommitAlone(s, id, u);
    }
  }

  lemma OwnCommitAlone(s: State, id: string, u: string)
    requires Inv(s) && Enabled(s, Commit(id)) && Alone(s, u) && s.uploads[id].user == u
    ensures Alone(Apply(s, Commit(id)), u)
  {
    OneActiveIffNoneMissed(s, id);
    assert forall x :: x in Apply(s, Commit(id)).uploads ==> Apply(s, Commit(id)).uploads[x].user != u;
  }

  lemma OtherCommitAlone(s: State, id: string, u: string)
    requires Enabled(s, Commit(id)) && Alone(s, u) && s.uploads[id].user != u
    requires ActiveOf(Apply(s, Commit(id)), u) == ActiveOf(s, u)
    ensures Alone(Apply(s, Commit(id)), u)
  {
  }

  lemma AloneErase(s: State, v: string, u: string)
    requires Alone(s, u) && Enabled(s, EraseRows(v))
    ensures Alone(Apply(s, EraseRows(v)), u)
  {
    assert forall x :: x in ActiveOf(Apply(s, EraseRows(v)), u) ==> x in ActiveOf(s, u);
  }

  lemma AloneSameRows(s: State, s': State, u: string)
    requires Alone(s, u) && s'.rows == s.rows && s'.latest == s.latest && s'.uploads.Keys <= s.uploads.Keys
    requires forall x :: x in s'.uploads ==>
              s'.uploads[x].user == s.uploads[x].user && s'.uploads[x].missed == s.uploads[x].missed
    ensures Alone(s', u)
  {
    assert ActiveOf(s', u) == ActiveOf(s, u);
  }

  lemma AloneInsert(s: State, id: string, v: string, file: File, u: string)
    requires Alone(s, u) && Enabled(s, Insert(id, v, file)) && (v == u ==> !Uploading(s, u))
    ensures Alone(Apply(s, Insert(id, v, file)), u)
  {
    assert ActiveOf(Apply(s, Insert(id, v, file)), u) == ActiveOf(s, u);
  }

  lemma {:induction false} AloneRun(s: State, steps: seq<Step>, u: string)
    requires Inv(s) && Alone(s, u) && Runs(s, steps) && NoOverlap(s, steps, u)
    ensures Alone(Exec(s, steps), u)
    decreases |steps|
  {
    if steps != [] {
      AloneStep(s, steps[0], u);
      StepKeepsInv(s, steps[0]);
      AloneRun(Apply(s, steps[0]), steps[1..], u);
    }
  }

  /** When one user's uploads do not overlap, however other users' do, exactly one
      resume of that user is active once an upload was completed, and it is the
      newest. */
  lemma ExactlyTheNewestIsActive(s: State, steps: seq<Step>, u: string)
    requires Inv(s) && Alone(s, u) && Runs(s, steps) && NoOverlap(s, steps, u)
    ensures
      var e := Exec(s, steps);
      ActiveOf(e, u) == if u in e.latest && u in e.users then {e.latest[u]} else {}
  {
    RunKeepsInv(s, steps);
    AloneRun(s, steps, u);
    LastUploadIsActive(s, steps, u);
    var e := Exec(s, steps);
    forall x | x in ActiveOf(e, u) ensures u in e.users {
      assert RowOk(e, x, e.rows[x]);
    }
  }

  // ---- Other users' rows ----

  /** The step changes no committed row of the user. */
  predicate LeavesRowsOf(s: State, step: Step, u: string) {
    && (step.Commit? ==> step.id in s.uploads && s.uploads[step.id].user != u)
    && (step.EraseRows? ==> step.user != u)
  }

  predicate AllLeaveRowsOf(s: State, steps: seq<Step>, u: string)
    requires Runs(s, steps)
    decreases |steps|
  {
    steps == [] || (LeavesRowsOf(s, steps[0], u) && AllLeaveRowsOf(Apply(s, steps[0]), steps[1..], u))
  }

  lemma StepLeavesOthers(s: State, step: Step, u: string)
    requires Inv(s) && Enabled(s, step) && LeavesRowsOf(s, step, u)
    ensures RowsOf(Apply(s, step), u) == RowsOf(s, u)
    ensures forall id :: id in RowsOf(s, u) ==> Apply(s, step).rows[id] == s.rows[id]
  {
    if step.Commit? {
      assert UploadOk(s, step.id, s.uploads[step.id]) && SightOk(s, step.id, s.uploads[step.id]);
      assert step.id !in s.rows;
      RowsAfterCommit(s, step.id, u);
    }
  }

  /** Other users' uploads and erasures, and a user's own uploads short of their
      commits, leave the user's resume rows as they are. */
  lemma {:induction false} RunsLeaveOthers(s: State, steps: seq<Step>, u: string)
    requires Inv(s) && Runs(s, steps) && AllLeaveRowsOf(s, steps, u)
    ensures RowsOf(Exec(s, steps), u) == RowsOf(s, u)
    ensures forall id :: id in RowsOf(s, u) ==> Exec(s, steps).rows[id] == s.rows[id]
    decreases |steps|
  {
    if steps != [] {
      StepLeavesOthers(s, steps[0], u);
      StepKeepsInv(s, steps[0]);
      RunsLeaveOthers(Apply(s, steps[0]), steps[1..], u);
    }
  }

  function UpTo(id: string, u: string, file: File): seq<Step> {
    [Insert(id, u, file), StoreBlob(id), SetPath(id), DeactivateOthers(id)]
  }

  /** Overlapping uploads can leave two resumes active: both deactivate what they
      see, then both commit. */
  lemma OverlappingUploadsLeaveTwoActive(s: State, u: string, a: string, b: string, file: File)
    requires u in s.users && RowsOf(s, u) == {} && a != b && a !in s.used && b !in s.used && '.' !in a && '.' !in b
    requires s.uploads == map[] && a !in s.rows && b !in s.rows
    ensures
      var steps := UpTo(a, u, file) + UpTo(b, u, file) + [Commit(a), Commit(b)];
      Runs(s, steps) && ActiveOf(Exec(s, steps), u) == {a, b}
  {
    var s4 := FourSteps(s, a, u, file, UpTo(b, u, file) + [Commit(a), Commit(b)]);
    var s8 := FourSteps(s4, b, u, file, [Commit(a), Commit(b)]);
    assert UpTo(a, u, file) + (UpTo(b, u, file) + [Commit(a), Commit(b)]) == UpTo(a, u, file) + UpTo(b, u,
        file) + [Commit(a), Commit(b)];
    assert RowsOf(s8, u) == RowsOf(s, u);
    TwoCommits(s8, a, b, u);
  }

  lemma TwoCommits(s: State, a: string, b: string, u: string)
    requires Enabled(s, Commit(a)) && Enabled(s, Commit(b)) && a != b && a !in s.rows && b !in s.rows
    requires RowsOf(s, u) == {}
    requires s.uploads[a].user == u && s.uploads[b].user == u && s.uploads[a].off == {} && s.uploads[b].off == {}
    ensures Runs(s, [Commit(a), Commit(b)]) && ActiveOf(Exec(s, [Commit(a), Commit(b)]), u) == {a, b}
  {
    var s' := Apply(s, Commit(a));
    Unfold(s', Commit(b), []);
    Unfold(s, Commit(a), [Commit(b)]);
    assert [Commit(a)] + [Commit(b)] == [Commit(a), Commit(b)] && [Commit(b)] + [] == [Commit(b)];
    assert ActiveOf(s, u) <= RowsOf(s, u);
    ActiveAfterCommit(s, a, u);
    assert s'.uploads[b].off * s'.rows.Keys == {};
    ActiveAfterCommit(s', b, u);
  }

  lemma FourSteps(s: State, id: string, u: string, file: File, rest: seq<Step>) returns (s': State)
    requires Enabled(s, Insert(id, u, file)) && RowsOf(s, u) == {}
    ensures s'.rows == s.rows && s'.users == s.users && s'.used == s.used + {id}
    ensures s'.uploads == s.uploads[id := Upload(u, file, KeyFor(u, id, file.extension), {}, {}, Deactivated)]
    ensures Runs(s', rest) <==> Runs(s, UpTo(id, u, file) + rest)
    ensures Runs(s', rest) ==> Exec(s, UpTo(id, u, file) + rest) == Exec(s', rest)
  {
    var s1 := Apply(s, Insert(id, u, file));
    var s2 := Apply(s1, StoreBlob(id));
    var s3 := Apply(s2, SetPath(id));
    assert RowsOf(s3, u) == RowsOf(s, u);
    s' := Apply(s3, DeactivateOthers(id));
    assert s'.uploads[id] == Upload(u, file, KeyFor(u, id, file.extension), {}, {}, Deactivated);
    UnfoldFour(s, s1, s2, s3, s', Insert(id, u, file), StoreBlob(id), SetPath(id), DeactivateOthers(id), rest);
  }

  lemma UnfoldFour(s: State, s1: State, s2: State, s3: State, s4: State, a: Step, b: Step, c: Step, d: Step,
                   rest: seq<Step>)
    requires Enabled(s, a) && s1 == Apply(s, a) && Enabled(s1, b) && s2 == Apply(s1, b)
    requires Enabled(s2, c) && s3 == Apply(s2, c) && Enabled(s3, d) && s4 == Apply(s3, d)
    ensures Runs(s, [a, b, c, d] + rest) <==> Runs(s4, rest)
    ensures Runs(s4, rest) ==> Exec(s, [a, b, c, d] + rest) == Exec(s4, rest)
  {
    Unfold(s3, d, rest);
    Unfold(s2, c, [d] + rest);
    Unfold(s1, b, [c] + ([d] + rest));
    Unfold(s, a, [b] + ([c] + ([d] + rest)));
    assert [a, b, c, d] + rest == [a] + ([b] + ([c] + ([d] + rest)));
  }

  lemma Unfold(s: State, step: Step, rest: seq<Step>)
    requires Enabled(s, step)
    ensures Runs(s, [step] + rest) <==> Runs(Apply(s, step), rest)
    ensures Runs(s, [step] + rest) ==> Exec(s, [step] + rest) == Exec(Apply(s, step), rest)
  {
    assert ([step] + rest)[1..] == rest;
  }

  // ---- Failed uploads ----

  /** The run with every step of one upload struck out. */
  function Purge(id: string, steps: seq<Step>): seq<Step> {
    if steps == [] then []
    else (if IsOf(steps[0], id) then [] else [steps[0]]) + Purge(id, steps[1..])
  }

  /** `t` is `s` as it would be had upload `id` never been tried, but for the blob
      under `key`. */
  predicate Besides(id: string, key: string, s: State, t: State) {
    && s.rows == t.rows && s.users == t.users && s.erasing == t.erasing && s.latest == t.latest
    && s.uploads - {id} == t.uploads && t.used <= s.used
    && s.blobs - {key} == t.blobs - {key}
    && (id in s.uploads ==> KeyOfUpload(id, s.uploads[id]) == key)
  }

  predicate KeepsKey(id: string, key: string, step: Step) {
    step.Insert? && step.id == id ==> KeyFor(step.user, id, step.file.extension) == key
  }

  lemma StruckStep(id: string, key: string, s: State, t: State, step: Step)
    requires Besides(id, key, s, t) && Enabled(s, step) && IsOf(step, id) && step != Commit(id)
    requires KeepsKey(id, key, step)
    ensures Besides(id, key, Apply(s, step), t)
  {
    var s' := Apply(s, step);
    assert s'.uploads - {id} == s.uploads - {id};
    assert s'.blobs - {key} == s.blobs - {key};
  }

  lemma KeptStep(id: string, key: string, s: State, t: State, step: Step)
    requires Besides(id, key, s, t) && Enabled(s, step) && !IsOf(step, id)
    ensures Enabled(t, step) && Besides(id, key, Apply(s, step), Apply(t, step))
  {
    SameUploads(id, s.uploads, t.uploads);
    KeptBlobs(key, s, t, step);
    KeptRows(id, s, t, step);
  }

  lemma SameUploads(id: string, s: map<string, Upload>, t: map<string, Upload>)
    requires s - {id} == t
    ensures forall x :: x in t <==> x in s && x != id
    ensures forall x :: x in t ==> t[x] == s[x]
  {
  }

  lemma KeptRows(id: string, s: State, t: State, step: Step)
    requires s.rows == t.rows && s.latest == t.latest && s.uploads - {id} == t.uploads
    requires Enabled(s, step) && Enabled(t, step) && !IsOf(step, id)
    ensures Apply(s, step).rows == Apply(t, step).rows && Apply(s, step).latest == Apply(t, step).latest
    ensures Apply(s, step).uploads - {id} == Apply(t, step).uploads
  {
    if step.Commit? {
      KeptCommit(id, s, t, step.id);
    } else {
      KeptUncommitted(id, s, t, step);
    }
  }

  lemma KeptUncommitted(id: string, s: State, t: State, step: Step)
    requires s.rows == t.rows && s.latest == t.latest && s.uploads - {id} == t.uploads
    requires Enabled(s, step) && Enabled(t, step) && !IsOf(step, id) && !step.Commit?
    ensures Apply(s, step).rows == Apply(t, step).rows && Apply(s, step).latest == Apply(t, step).latest
    ensures Apply(s, step).uploads - {id} == Apply(t, step).uploads
  {
    SameUploads(id, s.uploads, t.uploads);
    assert forall u :: RowsOf(s, u) == RowsOf(t, u);
  }

  lemma KeptCommit(id: string, s: State, t: State, c: string)
    requires s.rows == t.rows && s.uploads - {id} == t.uploads && c != id
    requires Enabled(s, Commit(c)) && Enabled(t, Commit(c))
    ensures Apply(s, Commit(c)).rows == Apply(t, Commit(c)).rows
    ensures s.latest == t.latest ==> Apply(s, Commit(c)).latest == Apply(t, Commit(c)).latest
    ensures Apply(s, Commit(c)).uploads - {id} == Apply(t, Commit(c)).uploads
  {
    SameUploads(id, s.uploads, t.uploads);
  }

  lemma KeptBlobs(key: string, s: State, t: State, step: Step)
    requires s.blobs - {key} == t.blobs - {key} && Enabled(s, step) && Enabled(t, step)
    requires step.StoreBlob? ==> s.uploads[step.id] == t.uploads[step.id]
    ensures Apply(s, step).blobs - {key} == Apply(t, step).blobs - {key}
  {
    forall k | k != key ensures k in s.blobs <==> k in t.blobs
    {
      assert k in s.blobs - {key} <==> k in t.blobs - {key};
    }
    forall k | k != key && k in s.blobs ensures s.blobs[k] == t.blobs[k]
    {
      assert (s.blobs - {key})[k] == (t.blobs - {key})[k];
    }
  }

  lemma {:induction false} PurgeRun(id: string, key: string, s: State, t: State, steps: seq<Step>)
    requires Besides(id, key, s, t) && Runs(s, steps)
    requires forall i :: 0 <= i < |steps| ==> steps[i] != Commit(id) && KeepsKey(id, key, steps[i])
    ensures Runs(t, Purge(id, steps)) && Besides(id, key, Exec(s, steps), Exec(t, Purge(id, steps)))
    decreases |steps|
  {
    if steps != [] {
      var step, rest := steps[0], Purge(id, steps[1..]);
      if IsOf(step, id) {
        StruckStep(id, key, s, t, step);
        PurgeRun(id, key, Apply(s, step), t, steps[1..]);
        assert [] + rest == rest;
      } else {
        KeptStep(id, key, s, t, step);
        PurgeRun(id, key, Apply(s, step), Apply(t, step), steps[1..]);
        assert ([step] + rest)[1..] == rest;
      }
    }
  }

  /** An upload that does not commit, wherever it failed and whatever else went on,
      leaves every row, account and other upload as if it had not been tried, and
      of blobs at most its own, under its user's prefix. */
  lemma FailedUploadLeavesAtMostItsBlob(s: State, steps: seq<Step>, id: string, u: string, file: File)
    requires Runs(s, steps) && id !in s.uploads && '/' !in u
    requires forall i :: 0 <= i < |steps| && steps[i].Insert? && steps[i].id == id ==> steps[i] == Insert(id, u, file)
    requires forall i :: 0 <= i < |steps| ==> steps[i] != Commit(id)
    ensures Runs(s, Purge(id, steps))
    ensures
      var e, without := Exec(s, steps), Exec(s, Purge(id, steps));
      var key := KeyFor(u, id, file.extension);
      && e.rows == without.rows && e.users == without.users && e.uploads - {id} == without.uploads
      && e.blobs - {key} == without.blobs - {key} && Prefix(u) <= key
  {
    var key := KeyFor(u, id, file.extension);
    assert s.uploads - {id} == s.uploads;
    PurgeRun(id, key, s, s, steps);
    PrefixIsOwn(u, id, file.extension, u);
  }
}
