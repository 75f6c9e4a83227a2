/** `findOrCreateUser` and the database function behind it, as they are written,
    while other sign-ins and account deletions go on. */
module IdentityService {
  import opened Wrappers
  import opened Admission
  import opened SignIn

  /** What others do each time the call waits, the ids the database picks, and what
      fails. */
  datatype Environment = Environment(others: nat -> seq<Step>, newUser: string, newRow: string, fails: nat -> bool)

  predicate IsOf(step: Step, call: nat) {
    match step
    case Check(c, _, _, _) => c == call
    case Lookup(c, _) => c == call
    case InsertUser(c, _) => c == call
    case InsertIdentity(c, _) => c == call
    case Commit(c) => c == call
    case Fail(c) => c == call
    case DeleteAccount(_) => false
  }

  function Elsewhere(s: State, call: nat, steps: seq<Step>): (r: seq<Step>)
    ensures Runs(s, r)
    ensures forall i :: 0 <= i < |r| ==> !IsOf(r[i], call)
    decreases |steps|
  {
    if steps == [] then []
    else if !IsOf(steps[0], call) && Enabled(s, steps[0]) then
      var rest := Elsewhere(Apply(s, steps[0]), call, steps[1..]);
      assert ([steps[0]] + rest)[1..] == rest;
      [steps[0]] + rest
    else Elsewhere(s, call, steps[1..])
  }

  lemma {:induction false} RunsAppend(s: State, a: seq<Step>, b: seq<Step>)
    requires Runs(s, a) && Runs(Exec(s, a), b)
    ensures Runs(s, a + b) && Exec(s, a + b) == Exec(Exec(s, a), b)
    decreases |a|
  {
    if a == [] {
      assert a + b == b;
    } else {
      assert (a + b)[1..] == a[1..] + b;
      RunsAppend(Apply(s, a[0]), a[1..], b);
    }
  }

  lemma {:induction false} ElsewhereLeaves(s: State, call: nat, steps: seq<Step>)
    requires Runs(s, steps) && forall i :: 0 <= i < |steps| ==> !IsOf(steps[i], call)
    ensures call in Exec(s, steps).calls <==> call in s.calls
    ensures call in s.calls ==> Exec(s, steps).calls[call] == s.calls[call]
    decreases |steps|
  {
    if steps != [] {
      ElsewhereLeaves(Apply(s, steps[0]), call, steps[1..]);
    }
  }

  ghost predicate NoCommit(trace: seq<Step>, call: nat) {
    forall i :: 0 <= i < |trace| ==> trace[i] != Commit(call)
  }

  // ---- When a sign-in is due ----

  /** Where others have brought the state when the call goes on. */
  function Later(s: State, call: nat, others: seq<Step>): State {
    Exec(s, Elsewhere(s, call, others))
  }

  /** The identity can be inserted, and commits: the id is new, no other call holds
      the subject uncommitted, none has it, and nothing fails. */
  predicate IdentitySucceeds(s: State, call: nat, subject: Subject, env: Environment) {
    !env.fails(2) && env.newRow !in s.used && !Contended(s, call, subject) && !Taken(s, subject) && !env.fails(3)
  }

  /** From where the user is inserted: its id is new, and where others have brought
      the state after that, the identity can be inserted. */
  predicate CreationSucceeds(s: State, call: nat, subject: Subject, env: Environment) {
    && !env.fails(1) && Enabled(s, InsertUser(call, env.newUser))
    && IdentitySucceeds(Later(Apply(s, InsertUser(call, env.newUser)), call, env.others(2)), call, subject, env)
  }

  /** The row a successful creation has committed. */
  predicate Created(s: State, call: Call, env: Environment) {
    env.newRow in s.identities && s.identities[env.newRow] == Identity(env.newUser, call.subject, call.email, call.list)
  }

  /** Another sign-in of the subject has won: its identity is there. */
  predicate IdentityConflicts(s: State, call: nat, subject: Subject, env: Environment) {
    !env.fails(2) && env.newRow !in s.used && !Contended(s, call, subject) && Taken(s, subject)
  }

  predicate CreationConflicts(s: State, call: nat, subject: Subject, env: Environment) {
    && !env.fails(1) && Enabled(s, InsertUser(call, env.newUser))
    && IdentityConflicts(Later(Apply(s, InsertUser(call, env.newUser)), call, env.others(2)), call, subject, env)
  }

  class IdentityService {
    var state: State

    ghost predicate Valid()
      reads this
    {
      Inv(state)
    }

    constructor (state: State)
      requires Inv(state)
      ensures Valid() && this.state == state
    {
      this.state := state;
    }

    /** Others act while the call waits. */
    method Wait(ghost start: State, ghost before: seq<Step>, call: nat, others: seq<Step>)
      returns (ghost trace: seq<Step>)
      requires Valid() && Runs(start, before) && state == Exec(start, before) && NoCommit(before, call)
      modifies this
      ensures Valid() && Runs(start, trace) && state == Exec(start, trace) && NoCommit(trace, call)
      ensures call in state.calls <==> call in old(state).calls
      ensures call in state.calls ==> state.calls[call] == old(state).calls[call]
      ensures state == Later(old(state), call, others)
    {
      var theirs := Elsewhere(state, call, others);
      ElsewhereLeaves(state, call, theirs);
      RunsAppend(start, before, theirs);
      RunKeepsInv(state, theirs);
      state := Exec(state, theirs);
      trace := before + theirs;
    }

    /** The call takes its next step at once. */
    method Take(ghost start: State, ghost before: seq<Step>, call: nat, step: Step) returns (ghost trace: seq<Step>)
      requires Valid() && Runs(start, before) && state == Exec(start, before) && NoCommit(before, call)
      requires IsOf(step, call) && Enabled(state, step)
      modifies this
      ensures Valid() && Runs(start, trace) && state == Exec(start, trace) && state == Apply(old(state), step)
      ensures step != Commit(call) ==> NoCommit(trace, call)
    {
      RunsAppend(start, before, [step]);
      StepKeepsInv(state, step);
      state := Apply(state, step);
      trace := before + [step];
    }

    /** auth_find_or_create_user: select the identity and return its user early, or
        insert a user and then the identity. */
    method AuthFindOrCreateUser(ghost start: State, ghost before: seq<Step>, call: nat, subject: Subject,
                                env: Environment)
      returns (r: Result<string, Refusal>, ghost trace: seq<Step>)
      requires Valid() && Runs(start, before) && state == Exec(start, before) && NoCommit(before, call)
      requires call in state.calls && state.calls[call].phase == Admitted && state.calls[call].subject == subject
      modifies this
      ensures Valid() && Runs(start, trace) && state == Exec(start, trace)
      ensures r.Ok? ==> HasIdentity(state, subject, r.value) && r.value in state.users
      ensures r.Err? ==> r.error != NotPermitted && NoCommit(trace, call)
      ensures r == Err(Conflict) ==> Taken(state, subject)
      ensures
        var looking := Later(old(state), call, env.others(0));
        && (env.fails(0) ==> r == Err(DatabaseFailed))
        && (!env.fails(0) && Taken(looking, subject) ==>
              && r.Ok? && HasIdentity(looking, subject, r.value)
              && state.users == looking.users && state.identities == looking.identities)
        && (!env.fails(0) && !Taken(looking, subject) ==>
              Enabled(looking, Lookup(call, None)) &&
              var creating := Later(Apply(looking, Lookup(call, None)), call, env.others(1));
              && (r.Ok? <==> CreationSucceeds(creating, call, subject, env))
              && (r == Err(Conflict) <==> CreationConflicts(creating, call, subject, env))
              && (r.Ok? ==> r.value == env.newUser && Created(state, old(state).calls[call], env)))
    {
      trace := Wait(start, before, call, env.others(0));
      if env.fails(0) {
        r, trace := Abandon(start, trace, call);
        return;
      }
      if Taken(state, subject) {
        var row :| row in state.identities && state.identities[row].subject == subject;
        var user := state.identities[row].user;
        assert IdentityOk(state, row);
        trace := Take(start, trace, call, Lookup(call, Some(row)));
        assert state.identities[row].user == user;
        return Ok(user), trace;
      }
      trace := Take(start, trace, call, Lookup(call, None));
      r, trace := Create(start, trace, call, subject, env);
    }

    method Abandon(ghost start: State, ghost before: seq<Step>, call: nat)
      returns (r: Result<string, Refusal>, ghost trace: seq<Step>)
      requires Valid() && Runs(start, before) && state == Exec(start, before) && NoCommit(before, call)
      requires InCall(state, call)
      modifies this
      ensures Valid() && Runs(start, trace) && state == Exec(start, trace) && NoCommit(trace, call)
      ensures r == Err(DatabaseFailed)
    {
      trace := Take(start, before, call, Fail(call));
      r := Err(DatabaseFailed);
    }

    /** The two inserts. The second is refused if another sign-in has committed the
        subject's identity, and given up if one still holds it uncommitted when the
        wait for it is over. */
    method Create(ghost start: State, ghost before: seq<Step>, call: nat, subject: Subject, env: Environment)
      returns (r: Result<string, Refusal>, ghost trace: seq<Step>)
      requires Valid() && Runs(start, before) && state == Exec(start, before) && NoCommit(before, call)
      requires call in state.calls && state.calls[call].phase == Unknown && state.calls[call].subject == subject
      modifies this
      ensures Valid() && Runs(start, trace) && state == Exec(start, trace)
      ensures r.Ok? ==> HasIdentity(state, subject, r.value) && r.value in state.users
      ensures r.Err? ==> r.error != NotPermitted && NoCommit(trace, call)
      ensures r == Err(Conflict) ==> Taken(state, subject)
      ensures
        var creating := Later(old(state), call, env.others(1));
        && (r.Ok? <==> CreationSucceeds(creating, call, subject, env))
        && (r == Err(Conflict) <==> CreationConflicts(creating, call, subject, env))
      ensures r.Ok? ==> r.value == env.newUser && Created(state, old(state).calls[call], env)
    {
      trace := Wait(start, before, call, env.others(1));
      if env.fails(1) || env.newUser in state.used {
        r, trace := Abandon(start, trace, call);
        return;
      }
      trace := Take(start, trace, call, InsertUser(call, env.newUser));
      r, trace := CreateIdentity(start, trace, call, subject, env);
    }

    method CreateIdentity(ghost start: State, ghost before: seq<Step>, call: nat, subject: Subject, env: Environment)
      returns (r: Result<string, Refusal>, ghost trace: seq<Step>)
      requires Valid() && Runs(start, before) && state == Exec(start, before) && NoCommit(before, call)
      requires call in state.calls && state.calls[call].phase == UserInserted(env.newUser)
      requires state.calls[call].subject == subject
      modifies this
      ensures Valid() && Runs(start, trace) && state == Exec(start, trace)
      ensures r.Ok? ==> HasIdentity(state, subject, r.value) && r.value in state.users
      ensures r.Err? ==> r.error != NotPermitted && NoCommit(trace, call)
      ensures r == Err(Conflict) ==> Taken(state, subject)
      ensures
        var identifying := Later(old(state), call, env.others(2));
        && (r.Ok? <==> IdentitySucceeds(identifying, call, subject, env))
        && (r == Err(Conflict) <==> IdentityConflicts(identifying, call, subject, env))
      ensures r.Ok? ==> r.value == env.newUser && Created(state, old(state).calls[call], env)
    {
      trace := Wait(start, before, call, env.others(2));
      if env.fails(2) || env.newRow in state.used || Contended(state, call, subject) {
        r, trace := Abandon(start, trace, call);
        return;
      }
      var taken := Taken(state, subject);
      trace := Take(start, trace, call, InsertIdentity(call, env.newRow));
      if taken {
        return Err(Conflict), trace;
      }

      trace := Wait(start, trace, call, env.others(3));
      if env.fails(3) {
        r, trace := Abandon(start, trace, call);
        return;
      }
      trace := Take(start, trace, call, Commit(call));
      assert state.identities[env.newRow].user == env.newUser;
      r := Ok(env.newUser);
    }

    /** Admission comes first, and a subject that is not on the list creates nothing.
        A returned user is the subject's own; a call that loses a race is refused,
        and the subject then has the winner's identity. Unless the lookup fails, a
        subject that has an identity when the call looks gets that identity's user,
        and nothing is created; one that has none gets the new user exactly if the
        creation can go through, and then has an identity with its subject and email. */
    method FindOrCreateUser(call: nat, subject: Subject, email: Option<string>, list: Option<string>, env: Environment)
      returns (r: Result<string, Refusal>, ghost trace: seq<Step>)
      requires Valid() && call !in state.calls
      modifies this
      ensures Valid() && Runs(old(state), trace) && state == Exec(old(state), trace)
      ensures r == Err(NotPermitted) <==> !IsAdmitted(list, subject)
      ensures r == Err(NotPermitted) ==> state.users == old(state).users && state.identities == old(state).identities
      ensures r.Ok? ==> HasIdentity(state, subject, r.value) && r.value in state.users
      ensures r.Err? ==> NoCommit(trace, call)
      ensures r == Err(Conflict) ==> Taken(state, subject)
      ensures IsAdmitted(list, subject) ==>
                var checked := Apply(old(state), Check(call, subject, email, list));
                var looking := Later(checked, call, env.others(0));
                && (env.fails(0) ==> r == Err(DatabaseFailed))
                && (!env.fails(0) && Taken(looking, subject) ==>
                      && r.Ok? && HasIdentity(looking, subject, r.value)
                      && state.users == looking.users && state.identities == looking.identities)
                && (!env.fails(0) && !Taken(looking, subject) ==>
                      Enabled(looking, Lookup(call, None)) &&
                      var creating := Later(Apply(looking, Lookup(call, None)), call, env.others(1));
                      && (r.Ok? <==> CreationSucceeds(creating, call, subject, env))
                      && (r == Err(Conflict) <==> CreationConflicts(creating, call, subject, env))
                      && (r.Ok? ==>
                            r.value == env.newUser && Created(state, Call(subject, email, list, Admitted), env)))
    {
      ghost var start := state;
      trace := Take(start, [], call, Check(call, subject, email, list));
      if !IsAdmitted(list, subject) {
        return Err(NotPermitted), trace;
      }
      r, trace := AuthFindOrCreateUser(start, trace, call, subject, env);
    }
  }
}
