/** Deleting an account: the files first, then the rows, then the session. */
module AccountDeletion {
  import opened Wrappers
  import opened BlobStorage
  import opened Schema
  import opened RowSecurity
  import opened Tenancy
  import opened Transactions
  import opened UserContext

  datatype DeletionError = NotConfirmed | BlobsFailed | RowsFailed

  /** `deleteUserData`: one statement, the cascade does the rest. */
  function DeleteUserData(u: string): Callback<bool> {
    answers =>
      if answers == [] then Ask(_ => DeleteUserRow(u))
      else if answers[0] == None then Throw("delete failed")
      else Return(true)
  }

  lemma DeletionIsOneStatement(u: string, env: UserContext.Environment, answers: seq<Option<Db>>, stmts: seq<Statement>)
    requires Asked(DeleteUserData(u), env, answers, stmts)
    ensures |stmts| <= 1 && forall i :: 0 <= i < |stmts| ==> IsDeletion(stmts[i], u)
  {
    forall i | 0 <= i < |stmts| ensures answers[..i] == [] && IsDeletion(stmts[i], u) {
      assert DeleteUserData(u)(answers[..i]).Ask?;
    }
    if |stmts| > 0 {
      assert answers[..|stmts| - 1] == [];
    }
  }

  /** DELETE FROM users WHERE id = u */
  ghost predicate IsDeletion(stmt: Statement, u: string) {
    stmt.Delete? && forall k, row :: stmt.filter(k, row) <==> k == Key(Users, u)
  }

  lemma DeletionIsCareful(u: string)
    ensures Careful(DeleteUserData(u), u, {}) && Settles(DeleteUserData(u), 1)
  {
  }

  /** The callback returns only if its one statement did not fail, and throws only
      if it did. */
  lemma DeletionSettles(u: string, env: UserContext.Environment, answers: seq<Option<Db>>, stmts: seq<Statement>)
    requires Asked(DeleteUserData(u), env, answers, stmts)
    ensures DeleteUserData(u)(answers).Return? ==> |stmts| == 1 && IsDeletion(stmts[0], u) && None !in answers
    ensures DeleteUserData(u)(answers).Throw? ==> None in answers
    ensures Faultless(env) ==> Untroubled(env, stmts)
  {
    DeletionIsOneStatement(u, env, answers, stmts);
  }

  lemma DeletionHits(part: Db, u: string, filter: (Key, Row) -> bool)
    requires u != "" && (forall k, row :: filter(k, row) <==> k == Key(Users, u)) && forall k :: k in part ==>
              part[k].owner == u
    ensures Matching(Some(u), part, filter).Keys == {Key(Users, u)} * part.Keys
  {
  }

  lemma DeletionWrites(part: Db, u: string, stmt: Statement)
    requires IsDeletion(stmt, u) && u != "" && forall k :: k in part ==> part[k].owner == u
    ensures Written(part, u, [stmt]) == map k | k in Doomed(part, {Key(Users, u)} * part.Keys) :: None
  {
    DeletionEffect(part, u, stmt);
    WrittenByOne(part, u, stmt);
  }

  lemma WrittenByOne(part: Db, u: string, stmt: Statement)
    requires Execute(Some(u), part, stmt).Some?
    ensures Written(part, u, [stmt]) == Execute(Some(u), part, stmt).value.writes
  {
    var none: seq<Statement> := [];
    assert Merge(part, map[]) == part;
    WrittenOneMore(part, u, none, stmt);
    assert none + [stmt] == [stmt];
    var writes := Execute(Some(u), part, stmt).value.writes;
    assert map[] + writes == writes;
  }

  lemma DeletionEffect(part: Db, u: string, stmt: Statement)
    requires IsDeletion(stmt, u) && u != "" && forall k :: k in part ==> part[k].owner == u
    ensures Execute(Some(u), part, stmt).Some?
    ensures Execute(Some(u), part, stmt).value.writes == map k | k in Doomed(part, {Key(Users, u)} * part.Keys) :: None
  {
    DeletionHits(part, u, stmt.filter);
    var hit := Matching(Some(u), part, stmt.filter);
    assert Execute(Some(u), part, stmt) == Some(Effect(hit, map k | k in Doomed(part, hit.Keys) :: None));
  }

  /** The deletion's writes leave nothing of the user's rows. */
  lemma DeletionEmptiesPart(db: Db, u: string, stmt: Statement)
    requires Integral(Part(db, u)) && u != "" && IsDeletion(stmt, u)
    ensures Merge(Part(db, u), Written(Part(db, u), u, [stmt])) == map[]
  {
    var part := Part(db, u);
    CascadeRemovesExactlyOwned(part, u);
    assert Owned(part, u) == part.Keys;
    DeletionWrites(part, u, stmt);
    AllDeleted(part, Doomed(part, {Key(Users, u)} * part.Keys));
  }

  /** What a deletion's transaction comes to. */
  lemma DeletionResult(before: Db, after: Db, u: string, env: UserContext.Environment, r: Result<bool, Error>,
                       answers: seq<Option<Db>>, stmts: seq<Statement>)
    requires Asked(DeleteUserData(u), env, answers, stmts) && Integral(Part(before, u)) && u != ""
    requires r.Ok? ==> DeleteUserData(u)(answers) == Return(r.value)
    requires r.Err? && r.error.CallbackFailed? ==> DeleteUserData(u)(answers) == Throw(r.error.error)
    requires (r == Err(NoConnection) ==> env.connectFails) && (r == Err(DatabaseFailed) ==>
              env.beginFails || env.setFails || env.commitFails)
    requires Untroubled(env, stmts) ==> None !in answers
    requires r.Err? ==> Part(after, u) == Part(before, u)
    requires r.Ok? && None !in answers ==> Part(after, u) == Merge(Part(before, u), Written(Part(before, u), u, stmts))
    ensures Part(after, u) == if r.Ok? then map[] else Part(before, u)
    ensures Integral(Part(after, u)) && (Faultless(env) ==> r.Ok?)
  {
    DeletionSettles(u, env, answers, stmts);
    if r.Ok? {
      assert stmts == [stmts[0]];
      DeletionEmptiesPart(before, u, stmts[0]);
    }
  }

  lemma AllDeleted(part: Db, dead: set<Key>)
    requires dead == part.Keys
    ensures Merge(part, map k | k in dead :: None) == map[]
  {
  }

  /** Users other than `u` have their rows as if `u` had not acted. */
  ghost predicate OthersUntouched(s: State, trace: seq<Step>, u: string)
    requires Runs(s, trace)
  {
    Runs(s, Purge(u, s, trace))
    && forall x :: x != u ==> Part(Exec(s, trace).db, x) == Part(Exec(s, Purge(u, s, trace)).db, x)
  }

  lemma OthersAreUntouched(s: State, trace: seq<Step>, u: string)
    requires Inv(s) && Runs(s, trace) && NothingOpen(s, u)
    ensures OthersUntouched(s, trace, u)
  {
    NonInterference(u, s, trace, u + "x");
    forall x | x != u ensures Part(Exec(s, trace).db, x) == Part(Exec(s, Purge(u, s, trace)).db, x) {
      NonInterference(u, s, trace, x);
    }
  }

  class MeController {
    const pool: Pool
    const blobs: BlobStore

    constructor (pool: Pool, blobs: BlobStore)
      ensures this.pool == pool && this.blobs == blobs
    {
      this.pool := pool;
      this.blobs := blobs;
    }

    /** The rows of a user, in one transaction of the user's own. */
    method DeleteRows(userId: string, env: UserContext.Environment) returns (ok: bool, ghost trace: seq<Step>)
      requires Erasable(pool, userId) && env.alone
      modifies pool
      ensures Erasable(pool, userId)
      ensures Runs(old(pool.state), trace) && pool.state == Exec(old(pool.state), trace)
      ensures OthersUntouched(old(pool.state), trace, userId)
      ensures Part(pool.state.db, userId) == if ok then map[] else Part(old(pool.state).db, userId)
      ensures Faultless(env) ==> ok
    {
      ghost var start := pool.state;
      ghost var t;
      var deleted;
      DeletionIsCareful(userId);
      deleted, t := pool.WithUserContext(userId, DeleteUserData(userId), 1, {}, env);
      trace := t.trace;
      DeletionResult(start.db, pool.state.db, userId, env, deleted, t.answers, t.stmts);
      OthersAreUntouched(start, trace, userId);
      ok := deleted.Ok?;
    }

    /** The files of a user; cut short, some of them, and no other's. */
    method DeleteFiles(userId: string, blobsFail: nat -> bool, arrives: bool) returns (r: Result<nat, nat>)
      modifies blobs
      ensures r.Ok? ==>
                && blobs.blobs == Cleared(old(blobs.blobs), Prefix(userId))
                && r.value == |Under(old(blobs.blobs), Prefix(userId))|
      ensures Cleared(blobs.blobs, Prefix(userId)) == Cleared(old(blobs.blobs), Prefix(userId))
      ensures (forall n :: !blobsFail(n)) ==> r.Ok?
    {
      r := blobs.DeleteByPrefix(Prefix(userId), blobsFail, arrives);
    }

    /** However the request ends, with no other work of the user's about: nothing
        happens without the confirmation; the user's rows go only after every file
        under the user's prefix, so no file is left that no row leads to; without
        faults it completes; completed, all files and rows of the user are gone, no
        other file is, and other users' rows are as if it had never run. On every
        exit another request can follow. */
    method DeleteAccount(userId: string, confirm: Option<string>, blobsFail: nat -> bool, arrives: bool,
                         env: UserContext.Environment)
      returns (r: Result<nat, DeletionError>, sessionCleared: bool, ghost trace: seq<Step>)
      requires Erasable(pool, userId) && env.alone
      modifies pool, blobs
      ensures Erasable(pool, userId)
      ensures Runs(old(pool.state), trace) && pool.state == Exec(old(pool.state), trace)
      ensures OthersUntouched(old(pool.state), trace, userId)
      ensures r == Err(NotConfirmed) <==> confirm != Some("DELETE")
      ensures r == Err(NotConfirmed) ==> blobs.blobs == old(blobs.blobs) && pool.state == old(pool.state)
      ensures Part(pool.state.db, userId) == if r.Ok? then map[] else Part(old(pool.state).db, userId)
      ensures r == Err(RowsFailed) || r.Ok? ==> blobs.blobs == Cleared(old(blobs.blobs), Prefix(userId))
      ensures r.Ok? ==> r.value == |Under(old(blobs.blobs), Prefix(userId))|
      ensures Key(Users, userId) in old(pool.state).db && Key(Users, userId) !in pool.state.db ==>
                Under(blobs.blobs, Prefix(userId)) == {}
      ensures confirm == Some("DELETE") && (forall n :: !blobsFail(n)) && Faultless(env) ==> r.Ok?
      ensures Cleared(blobs.blobs, Prefix(userId)) == Cleared(old(blobs.blobs), Prefix(userId))
      ensures sessionCleared == r.Ok?
    {
      trace, sessionCleared := [], false;
      OthersAreUntouched(pool.state, trace, userId);
      if confirm != Some("DELETE") {
        return Err(NotConfirmed), false, trace;
      }

      var blobsDeleted := DeleteFiles(userId, blobsFail, arrives);
      UserRowIsOwn(old(pool.state), pool.state.db, userId);
      if blobsDeleted.Err? {
        return Err(BlobsFailed), false, trace;
      }

      var deleted;
      deleted, trace := DeleteRows(userId, env);
      UserRowStays(old(pool.state), pool.state, userId);
      if !deleted {
        return Err(RowsFailed), false, trace;
      }
      r, sessionCleared := Ok(blobsDeleted.value), true;
    }

    /** Rerunning completes the erasure: a request aborted anywhere, then any work of
        other users on rows and files, then a request in which nothing fails, and
        no row and no file of the user is left. */
    method DeleteAccountAgain(userId: string, blobsFail: nat -> bool, arrives: bool, env: UserContext.Environment,
                              others: seq<Step>, theirs: Blobs, retry: UserContext.Environment)
      requires Erasable(pool, userId) && env.alone && retry.alone && Faultless(retry)
      modifies pool, blobs
      ensures Erasable(pool, userId)
      ensures Part(pool.state.db, userId) == map[] && Under(blobs.blobs, Prefix(userId)) == {}
      ensures Key(Users, userId) !in pool.state.db
    {
      var r, sessionCleared;
      ghost var trace;
      r, sessionCleared, trace := DeleteAccount(userId, Some("DELETE"), blobsFail, arrives, env);
      trace := pool.Elapse(userId, others);
      blobs.OthersWrite(Prefix(userId), theirs);
      r, sessionCleared, trace := DeleteAccount(userId, Some("DELETE"), _ => false, false, retry);
      NoRowsNoUser(pool.state, userId);
    }
  }

  /** The user's rows refer to rows that are there, and no transaction of the user is
      open: what a request to delete the account starts from. */
  ghost predicate Erasable(pool: Pool, u: string)
    reads pool
  {
    pool.Valid() && u != "" && Integral(Part(pool.state.db, u)) && NothingOpen(pool.state, u)
  }

  lemma UserRowStays(s: State, s': State, u: string)
    requires Inv(s)
    ensures Part(s'.db, u) == Part(s.db, u) && Key(Users, u) in s.db ==> Key(Users, u) in s'.db
  {
    if Part(s'.db, u) == Part(s.db, u) {
      UserRowIsOwn(s, s'.db, u);
    }
  }

  /** A user without rows is not there. */
  lemma NoRowsNoUser(s: State, u: string)
    requires Inv(s) && Part(s.db, u) == map[]
    ensures Key(Users, u) !in s.db
  {
    assert Part(map[], u) == map[];
    UserRowIsOwn(s, map[], u);
  }

  lemma UserRowIsOwn(s: State, db: Db, u: string)
    requires Inv(s) && Part(db, u) == Part(s.db, u)
    ensures Key(Users, u) in s.db ==> Key(Users, u) in db
  {
    if Key(Users, u) in s.db {
      assert AtHome(s.born, Key(Users, u), s.db[Key(Users, u)]);
      assert Key(Users, u) in Part(s.db, u);
    }
  }
}
