/** The resume service: storing an upload, and reading a stored file back. */
module Resumes {
  import opened Wrappers
  import opened BlobStorage
  import opened Uploads
  import opened UploadProperties

  const PDF := "application/pdf"
  const DOCX := "application/vnd.openxmlformats-officedocument.wordprocessingml.document"
  const TEXT := "text/plain"

  const MAX_UPLOAD_BYTES := 5 * 1024 * 1024

  function ExtensionFor(mimeType: string): Option<string> {
    if mimeType == PDF then Some("pdf")
    else if mimeType == DOCX then Some("docx")
    else if mimeType == TEXT then Some("txt")
    else None
  }

  /** A file as the request carries it, with the size the request states. */
  datatype Multipart = Multipart(buffer: Bytes, mimeType: string, size: nat)

  datatype UploadError = NoFile | TooLarge(size: nat) | UnsupportedType(mimeType: string) | TransactionFailed

  /** The checks made before the database is touched, in the order they are made. */
  function Accept(file: Option<Multipart>): Result<File, UploadError> {
    if file == None || file.value.buffer == [] then Err(NoFile)
    else if file.value.size > MAX_UPLOAD_BYTES then Err(TooLarge(file.value.size))
    else match ExtensionFor(file.value.mimeType)
      case None => Err(UnsupportedType(file.value.mimeType))
      case Some(extension) => Ok(File(file.value.mimeType, extension, file.value.buffer))
  }

  /** Which files are taken, and what a refused one is told: first that it is
      missing or empty, then that it is over five mebibytes, then its type. */
  lemma AcceptsExactly(file: Option<Multipart>)
    ensures Accept(file) == Err(NoFile) <==> file == None || |file.value.buffer| == 0
    ensures (exists n :: Accept(file) == Err(TooLarge(n))) <==>
              file.Some? && |file.value.buffer| > 0 && file.value.size > 5242880
    ensures Accept(file).Err? && Accept(file).error.TooLarge? ==> Accept(file).error.size == file.value.size
    ensures Accept(file).Err? && Accept(file).error.UnsupportedType? ==>
              Accept(file).error.mimeType == file.value.mimeType && file.value.mimeType !in {PDF, DOCX, TEXT}
    ensures Accept(file).Err? ==> !Accept(file).error.TransactionFailed?
    ensures Accept(file).Ok? <==>
            file.Some? && |file.value.buffer| > 0 && file.value.size <= 5242880
            && file.value.mimeType in {PDF, DOCX, TEXT}
    ensures Accept(file).Ok? ==>
              && Accept(file).value.content == file.value.buffer && Accept(file).value.mimeType == file.value.mimeType
              && Accept(file).value.extension ==
                   (if file.value.mimeType == PDF then "pdf" else if file.value.mimeType == DOCX then "docx" else "txt")
  {
    if Accept(file).Err? && Accept(file).error.TooLarge? {
      assert Accept(file) == Err(TooLarge(Accept(file).error.size));
    }
  }

  datatype Uploaded = Uploaded(id: string, mimeType: string, isActive: bool)

  /** What others do before each of the upload's actions, and which of them fails.
      A failing blob request may still have arrived. */
  datatype Environment = Environment(others: nat -> seq<Step>, fails: nat -> bool, arrives: bool)

  /** The steps of others that can happen now. */
  function Elsewhere(s: State, id: string, steps: seq<Step>): (r: seq<Step>)
    ensures Runs(s, r)
    ensures forall i :: 0 <= i < |r| ==> !IsOf(r[i], id)
    decreases |steps|
  {
    if steps == [] then []
    else if !IsOf(steps[0], id) && Enabled(s, steps[0]) then
      var rest := Elsewhere(Apply(s, steps[0]), id, steps[1..]);
      assert ([steps[0]] + rest)[1..] == rest;
      [steps[0]] + rest
    else Elsewhere(s, id, steps[1..])
  }

  lemma {:induction false} RunsAppend(s: State, a: seq<Step>, b: seq<Step>)
    requires Runs(s, a) && Runs(Exec(s, a), b)
    ensures Runs(s, a + b) && Exec(s, a + b) == Exec(Exec(s, a), b)
    decreases |a|
  {
    if a == [] {
      assert a + b == b;
    } else {
      assert (a + b)[1..] == a[1..] + b;
      RunsAppend(Apply(s, a[0]), a[1..], b);
    }
  }

  /** The same upload at the same point, whatever others it has seen. */
  predicate SameUpload(p: Upload, q: Upload) {
    p.user == q.user && p.file == q.file && p.path == q.path && p.phase == q.phase
  }

  function UploadAt(user: string, file: File, path: string, phase: Phase): Upload {
    Upload(user, file, path, {}, {}, phase)
  }

  /** What a step makes of the upload that takes it. */
  function AfterStep(id: string, up: Upload, step: Step): Upload {
    match step
    case StoreBlob(_) => up.(phase := Stored)
    case SetPath(_) => up.(path := KeyOfUpload(id, up), phase := PathSet)
    case DeactivateOthers(_) => up.(phase := Deactivated)
    case _ => up
  }

  /** The row a step commits. */
  predicate CommittedRow(s: State, id: string, up: Upload) {
    && up.user in s.latest && s.latest[up.user] == id
    && id in s.rows && s.rows[id] == ResumeRow(up.user, up.path, up.file, true)
  }

  lemma OwnStep(s: State, id: string, step: Step)
    requires id in s.uploads && IsOf(step, id) && Enabled(s, step) && !step.Insert?
    ensures !step.Commit? && !step.Abort? ==>
              id in Apply(s, step).uploads && SameUpload(Apply(s, step).uploads[id], AfterStep(id, s.uploads[id], step))
    ensures step.Commit? ==> CommittedRow(Apply(s, step), id, s.uploads[id])
  {
  }

  lemma {:induction false} ElsewhereLeaves(s: State, id: string, steps: seq<Step>)
    requires Runs(s, steps) && forall i :: 0 <= i < |steps| ==> !IsOf(steps[i], id)
    requires id in s.uploads
    ensures id in Exec(s, steps).uploads && SameUpload(Exec(s, steps).uploads[id], s.uploads[id])
    decreases |steps|
  {
    if steps != [] {
      OthersLeaveUpload(s, steps[0], id);
      ElsewhereLeaves(Apply(s, steps[0]), id, steps[1..]);
    }
  }

  /** The steps are the upload's of one file, or others'. */
  ghost predicate StepsOf(trace: seq<Step>, id: string, user: string, file: File, committed: bool) {
    && (forall i :: 0 <= i < |trace| && trace[i].Insert? && trace[i].id == id ==> trace[i] == Insert(id, user, file))
    && (!committed ==> forall i :: 0 <= i < |trace| ==> trace[i] != Commit(id))
  }

  lemma OneMoreStep(start: State, trace: seq<Step>, step: Step, id: string, user: string, file: File)
    requires Runs(start, trace) && Enabled(Exec(start, trace), step) && StepsOf(trace, id, user, file, false)
    requires IsOf(step, id)
    requires step.Insert? ==> step == Insert(id, user, file)
    ensures Runs(start, trace + [step]) && Exec(start, trace + [step]) == Apply(Exec(start, trace), step)
    ensures StepsOf(trace + [step], id, user, file, step.Commit?)
  {
    RunsAppend(start, trace, [step]);
  }

  /** A row can be inserted: its id is new and its user has an account. */
  predicate Insertable(s: State, id: string, u: string) {
    id !in s.used && u in s.users
  }

  /** Storing the blob, setting the path, deactivating and committing all succeed. */
  predicate RestSucceeds(env: Environment) {
    !env.fails(1) && !env.fails(2) && !env.fails(3) && !env.fails(4)
  }

  class ResumesService {
    const store: BlobStore
    var state: State

    /** The container is the one whose blobs the state speaks of. */
    ghost predicate Valid()
      reads this, store
    {
      Inv(state) && state.blobs == store.blobs
    }

    constructor (state: State, store: BlobStore)
      requires Inv(state) && state.blobs == store.blobs
      ensures Valid() && this.state == state && this.store == store
    {
      this.state := state;
      this.store := store;
    }

    /** Others act while the upload waits. */
    method Wait(ghost start: State, ghost before: seq<Step>, id: string, ghost user: string, ghost file: File,
                others: seq<Step>)
      returns (ghost trace: seq<Step>)
      requires Valid() && Runs(start, before) && state == Exec(start, before) && StepsOf(before, id, user, file, false)
      modifies this, store
      ensures Valid() && Runs(start, trace) && state == Exec(start, trace) && StepsOf(trace, id, user, file, false)
      ensures id in old(state).uploads ==> id in state.uploads && SameUpload(state.uploads[id], old(state).uploads[id])
      ensures state == Exec(old(state), Elsewhere(old(state), id, others))
    {
      var theirs := Elsewhere(state, id, others);
      if id in state.uploads {
        ElsewhereLeaves(state, id, theirs);
      }
      RunsAppend(start, before, theirs);
      RunKeepsInv(state, theirs);
      state := Exec(state, theirs);
      store.blobs := state.blobs;
      trace := before + theirs;
    }

    /** Others act, then the upload takes its next statement. */
    method Act(ghost start: State, ghost before: seq<Step>, id: string, ghost user: string, ghost file: File,
               others: seq<Step>, step: Step)
      returns (ghost trace: seq<Step>)
      requires Valid() && Runs(start, before) && state == Exec(start, before) && StepsOf(before, id, user, file, false)
      requires id in state.uploads && IsOf(step, id) && !step.Insert? && !step.StoreBlob? && Enabled(state, step)
      modifies this, store
      ensures Valid() && Runs(start, trace) && state == Exec(start, trace)
      ensures StepsOf(trace, id, user, file, step.Commit?)
      ensures !step.Commit? && !step.Abort? ==>
                id in state.uploads && SameUpload(state.uploads[id], AfterStep(id, old(state).uploads[id], step))
      ensures step.Commit? ==> CommittedRow(state, id, old(state).uploads[id])
    {
      trace := Wait(start, before, id, user, file, others);
      OneMoreStep(start, trace, step, id, user, file);
      StepKeepsInv(state, step);
      OwnStep(state, id, step);
      state := Apply(state, step);
      trace := trace + [step];
    }

    /** Others act, then the file goes to the container under the upload's key. */
    method PutBlob(ghost start: State, ghost before: seq<Step>, id: string, ghost user: string, file: File,
                   others: seq<Step>,
                   fails: bool, arrives: bool)
      returns (ok: bool, ghost trace: seq<Step>)
      requires Valid() && Runs(start, before) && state == Exec(start, before) && StepsOf(before, id, user, file, false)
      requires InPhase(state, id, Inserted) && state.uploads[id].file == file
      modifies this, store
      ensures Valid() && Runs(start, trace) && state == Exec(start, trace) && StepsOf(trace, id, user, file, false)
      ensures ok == !fails && id in state.uploads
      ensures SameUpload(state.uploads[id],
                if ok || arrives then AfterStep(id, old(state).uploads[id], StoreBlob(id)) else old(state).uploads[id])
    {
      trace := Wait(start, before, id, user, file, others);
      ok := store.Upload(KeyOfUpload(id, state.uploads[id]), file.content, fails, arrives);
      if ok || arrives {
        OneMoreStep(start, trace, StoreBlob(id), id, user, file);
        StepKeepsInv(state, StoreBlob(id));
        OwnStep(state, id, StoreBlob(id));
        state := Apply(state, StoreBlob(id));
        trace := trace + [StoreBlob(id)];
      }
    }

    /** The checks, then the transaction: insert, store the blob, set the path,
        deactivate the others, commit; on the first failure all is rolled back but
        the blob. A result is returned exactly if the row is committed, and an
        accepted file is stored exactly if none of the five actions fails, the id is
        new and the user's account is there when the row is inserted. */
    method Upload(userId: string, file: Option<Multipart>, newId: string, env: Environment)
      returns (r: Result<Uploaded, UploadError>, ghost trace: seq<Step>)
      requires Valid() && newId !in state.uploads && '.' !in newId && '/' !in userId
      modifies this, store
      ensures Valid() && Runs(old(state), trace) && state == Exec(old(state), trace)
      ensures Accept(file).Err? ==> r == Err(Accept(file).error) && state == old(state)
      ensures Accept(file).Ok? && r.Err? ==> r.error == TransactionFailed
      ensures Accept(file).Ok? ==>
                var inserting := Exec(old(state), Elsewhere(old(state), newId, env.others(0)));
                (r.Ok? <==> !env.fails(0) && RestSucceeds(env) && Insertable(inserting, newId, userId))
      ensures r.Ok? ==>
                && r.value == Uploaded(newId, file.value.mimeType, true) && newId in state.rows
                && state.rows[newId] == ResumeRow(userId, KeyFor(userId, newId, Accept(file).value.extension),
                    Accept(file).value, true)
                && userId in state.latest && state.latest[userId] == newId
      ensures r.Err? ==>
                && Runs(old(state), Purge(newId, trace)) && state.rows == Exec(old(state), Purge(newId, trace)).rows
                && (Accept(file).Ok? ==>
                      var key := KeyFor(userId, newId, Accept(file).value.extension);
                      state.blobs - {key} == Exec(old(state), Purge(newId, trace)).blobs - {key})
    {
      ghost var start := state;
      trace := [];
      var accepted := Accept(file);
      if accepted.Err? {
        return Err(accepted.error), trace;
      }
      var content := accepted.value;
      r, trace := Transaction(start, userId, content, newId, env);
      if r.Err? {
        FailedUploadLeavesAtMostItsBlob(start, trace, newId, userId, content);
      }
    }

    method Transaction(ghost start: State, userId: string, file: File, newId: string, env: Environment)
      returns (r: Result<Uploaded, UploadError>, ghost trace: seq<Step>)
      requires Valid() && state == start && newId !in state.uploads && '.' !in newId
      modifies this, store
      ensures Valid() && Runs(start, trace) && state == Exec(start, trace) && StepsOf(trace, newId, userId, file, r.Ok?)
      ensures r.Err? ==> r.error == TransactionFailed
      ensures
        var inserting := Exec(start, Elsewhere(start, newId, env.others(0)));
        r.Ok? <==> !env.fails(0) && RestSucceeds(env) && Insertable(inserting, newId, userId)
      ensures r.Ok? ==> r.value == Uploaded(newId, file.mimeType, true)
      ensures
        var path := KeyFor(userId, newId, file.extension);
        r.Ok? ==> CommittedRow(state, newId, UploadAt(userId, file, path, Deactivated))
    {
      trace := Wait(start, [], newId, userId, file, env.others(0));
      var insert := Insert(newId, userId, file);
      if env.fails(0) || !Enabled(state, insert) {
        return Err(TransactionFailed), trace;
      }
      OneMoreStep(start, trace, insert, newId, userId, file);
      StepKeepsInv(state, insert);
      state := Apply(state, insert);
      trace := trace + [insert];
      r, trace := AfterInsert(start, trace, userId, file, newId, env);
    }

    /** The rest of the transaction, once the row is inserted. */
    method AfterInsert(ghost start: State, ghost before: seq<Step>, userId: string, file: File, newId: string,
                       env: Environment)
      returns (r: Result<Uploaded, UploadError>, ghost trace: seq<Step>)
      requires Valid() && Runs(start, before) && state == Exec(start, before)
      requires StepsOf(before, newId, userId, file, false)
      requires newId in state.uploads && SameUpload(state.uploads[newId], UploadAt(userId, file, PENDING, Inserted))
      modifies this, store
      ensures Valid() && Runs(start, trace) && state == Exec(start, trace) && StepsOf(trace, newId, userId, file, r.Ok?)
      ensures r.Err? ==> r.error == TransactionFailed
      ensures r.Ok? <==> RestSucceeds(env)
      ensures r.Ok? ==> r.value == Uploaded(newId, file.mimeType, true)
      ensures
        var path := KeyFor(userId, newId, file.extension);
        r.Ok? ==> CommittedRow(state, newId, UploadAt(userId, file, path, Deactivated))
    {
      var stored;
      stored, trace := PutBlob(start, before, newId, userId, file, env.others(1), env.fails(1), env.arrives);
      if stored && !env.fails(2) {
        trace := Act(start, trace, newId, userId, file, env.others(2), SetPath(newId));
        if !env.fails(3) {
          trace := Act(start, trace, newId, userId, file, env.others(3), DeactivateOthers(newId));
          if !env.fails(4) {
            trace := Act(start, trace, newId, userId, file, env.others(4), Commit(newId));
            return Ok(Uploaded(newId, file.mimeType, true)), trace;
          }
        }
      }
      trace := Act(start, trace, newId, userId, file, env.others(5), Abort(newId));
      r := Err(TransactionFailed);
    }
  }
}
