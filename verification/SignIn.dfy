/** Signing in: the admission check, then `auth_find_or_create_user`, statement by
    statement, with any number of sign-ins and account deletions interleaved. */
module SignIn {
  import opened Wrappers
  import opened Admission

  /** A row of auth_identities. `list` records the allow-list it was admitted by. */
  datatype Identity = Identity(user: string, subject: Subject, email: Option<string>, list: Option<string>)

  datatype Refusal = NotPermitted | Conflict | DatabaseFailed

  datatype Phase =
    | Admitted                          // past the admission check
    | Unknown                           // the lookup found no identity
    | UserInserted(user: string)
    | IdentityInserted(user: string, row: string)
    | Returned(user: string)
    | Refused(refusal: Refusal)

  datatype Call = Call(subject: Subject, email: Option<string>, list: Option<string>, phase: Phase)

  datatype Success = Success(subject: Subject, user: string)

  /** Committed rows, the calls, and what was ever used, returned and deleted. */
  datatype State = State(
    users: set<string>,
    identities: map<string, Identity>,
    calls: map<nat, Call>,
    used: set<string>,
    returned: seq<Success>,
    deleted: set<string>)

  datatype Step =
    | Check(call: nat, subject: Subject, email: Option<string>, list: Option<string>)
    | Lookup(call: nat, found: Option<string>)   // SELECT ... INTO takes any row there is
    | InsertUser(call: nat, user: string)
    | InsertIdentity(call: nat, row: string)
    | Commit(call: nat)
    | Fail(call: nat)                      // whatever fails, the function's writes are rolled back
    | DeleteAccount(user: string)

  predicate InCall(s: State, call: nat) {
    call in s.calls && !s.calls[call].phase.Returned? && !s.calls[call].phase.Refused?
  }

  predicate Taken(s: State, subject: Subject) {
    exists row :: row in s.identities && s.identities[row].subject == subject
  }

  /** Another call has inserted the subject's identity and not committed: the unique
      index makes a second insertion wait for it. */
  predicate Contended(s: State, call: nat, subject: Subject) {
    exists c :: c in s.calls && c != call && s.calls[c].phase.IdentityInserted? && s.calls[c].subject == subject
  }

  predicate Enabled(s: State, step: Step) {
    match step
    case Check(c, _, _, _) => c !in s.calls
    case Lookup(c, found) =>
      && c in s.calls && s.calls[c].phase == Admitted
      && (match found
          case None => !Taken(s, s.calls[c].subject)
          case Some(row) => row in s.identities && s.identities[row].subject == s.calls[c].subject)
    case InsertUser(c, u) => c in s.calls && s.calls[c].phase == Unknown && u !in s.used
    case InsertIdentity(c, row) =>
      c in s.calls && s.calls[c].phase.UserInserted? && row !in s.used && !Contended(s, c, s.calls[c].subject)
    case Commit(c) => c in s.calls && s.calls[c].phase.IdentityInserted?
    case Fail(c) => InCall(s, c)
    case DeleteAccount(u) => true
  }

  function SetPhase(s: State, c: nat, phase: Phase): State
    requires c in s.calls
  {
    s.(calls := s.calls[c := s.calls[c].(phase := phase)])
  }

  function Return(s: State, c: nat, u: string): State
    requires c in s.calls
  {
    SetPhase(s, c, Returned(u)).(returned := s.returned + [Success(s.calls[c].subject, u)])
  }

  /** The row a call is about to commit. */
  function RowOf(call: Call): Identity
    requires call.phase.IdentityInserted?
  {
    Identity(call.phase.user, call.subject, call.email, call.list)
  }

  function Apply(s: State, step: Step): State
    requires Enabled(s, step)
  {
    match step
    case Check(c, subject, email, list) =>
      var phase := if IsAdmitted(list, subject) then Admitted else Refused(NotPermitted);
      s.(calls := s.calls[c := Call(subject, email, list, phase)])
    case Lookup(c, found) =>
      if found == None then SetPhase(s, c, Unknown) else Return(s, c, s.identities[found.value].user)
    case InsertUser(c, u) => SetPhase(s, c, UserInserted(u)).(used := s.used + {u})
    case InsertIdentity(c, row) =>
      var s' := s.(used := s.used + {row});
      if Taken(s, s.calls[c].subject) then SetPhase(s', c, Refused(Conflict))
      else SetPhase(s', c, IdentityInserted(s.calls[c].phase.user, row))
    case Commit(c) =>
      var call := s.calls[c];
      Return(s, c, call.phase.user)
        .(users := s.users + {call.phase.user}, identities := s.identities[call.phase.row := RowOf(call)])
    case Fail(c) => SetPhase(s, c, Refused(DatabaseFailed))
    case DeleteAccount(u) =>
      s.(users := s.users - {u},
         identities := map row | row in s.identities && s.identities[row].user != u :: s.identities[row],
         deleted := if u in s.users then s.deleted + {u} else s.deleted)
  }

  predicate Runs(s: State, steps: seq<Step>)
    decreases |steps|
  {
    steps == [] || (Enabled(s, steps[0]) && Runs(Apply(s, steps[0]), steps[1..]))
  }

  function Exec(s: State, steps: seq<Step>): State
    requires Runs(s, steps)
    decreases |steps|
  {
    if steps == [] then s else Exec(Apply(s, steps[0]), steps[1..])
  }

  /** Before anyone has signed in. */
  const EMPTY := State({}, map[], map[], {}, [], {})

  // ---- What every step keeps ----

  predicate IdentityOk(s: State, row: string)
    requires row in s.identities
  {
    var i := s.identities[row];
    && row in s.used && i.user in s.used && i.user in s.users && IsAdmitted(i.list, i.subject)
    && (forall r :: r in s.identities && s.identities[r].subject == i.subject ==> r == row)
    && (forall r :: r in s.identities && s.identities[r].user == i.user ==> r == row)
  }

  /** What a call under way has inserted is its own. */
  predicate CallOk(s: State, c: nat)
    requires c in s.calls
  {
    var call := s.calls[c];
    && (!call.phase.Refused? ==> IsAdmitted(call.list, call.subject))
    && (call.phase.UserInserted? || call.phase.IdentityInserted? ==>
          && call.phase.user in s.used && call.phase.user !in s.users && call.phase.user !in s.deleted
          && forall r :: r in s.identities ==> s.identities[r].user != call.phase.user)
    && (call.phase.IdentityInserted? ==>
          call.phase.row in s.used && call.phase.row !in s.identities && !Taken(s, call.subject))
  }

  /** The user, identity row or subject that a call holds uncommitted. */
  predicate Apart(a: Call, b: Call) {
    && ((a.phase.UserInserted? || a.phase.IdentityInserted?) && (b.phase.UserInserted? || b.phase.IdentityInserted?) ==>
          a.phase.user != b.phase.user)
    && (a.phase.IdentityInserted? && b.phase.IdentityInserted? ==> a.phase.row != b.phase.row && a.subject != b.subject)
  }

  predicate HasIdentity(s: State, subject: Subject, u: string) {
    exists row :: row in s.identities && s.identities[row].subject == subject && s.identities[row].user == u
  }

  predicate UserOk(s: State, u: string) {
    exists row :: row in s.identities && s.identities[row].user == u
  }

  predicate ReturnOk(s: State, r: Success) {
    r.user in s.deleted || HasIdentity(s, r.subject, r.user)
  }

  ghost predicate Inv(s: State) {
    && (forall row :: row in s.identities ==> IdentityOk(s, row))
    && (forall c :: c in s.calls ==> CallOk(s, c))
    && (forall c, d :: c in s.calls && d in s.calls && c != d ==> Apart(s.calls[c], s.calls[d]))
    && (forall u :: u in s.users ==> UserOk(s, u))
    && (forall i :: 0 <= i < |s.returned| ==> ReturnOk(s, s.returned[i]))
    && s.users !! s.deleted && s.users + s.deleted <= s.used
  }

  lemma EmptyIsSound()
    ensures Inv(EMPTY)
  {
  }

  lemma StepKeepsInv(s: State, step: Step)
    requires Inv(s) && Enabled(s, step)
    ensures Inv(Apply(s, step))
  {
    match step
    case Check(c, subject, email, list) => PhaseKeepsInv(s, Apply(s, step), c);
    case Lookup(c, found) => LookupKeepsInv(s, c, found);
    case InsertUser(c, u) => PhaseKeepsInv(s, Apply(s, step), c);
    case InsertIdentity(c, row) => InsertKeepsInv(s, c, row);
    case Fail(c) => PhaseKeepsInv(s, Apply(s, step), c);
    case Commit(c) => CommitKeepsInv(s, c);
    case DeleteAccount(u) => DeletionKeepsInv(s, u);
  }

  /** A step that moves one call on and touches no committed row. */
  lemma PhaseKeepsInv(s: State, s': State, c: nat)
    requires Inv(s) && c in s'.calls && s' == s.(calls := s.calls[c := s'.calls[c]], used := s'.used)
    requires s.used <= s'.used
    requires CallOk(s', c) && forall d :: d in s.calls && d != c ==>
              Apart(s'.calls[c], s.calls[d]) && Apart(s.calls[d], s'.calls[c])
    ensures Inv(s')
  {
    forall row | row in s'.identities ensures IdentityOk(s', row) {
      assert IdentityOk(s, row);
    }
    forall d | d in s'.calls ensures CallOk(s', d) {
      if d != c {
        assert CallOk(s, d);
        assert Taken(s', s'.calls[d].subject) == Taken(s, s.calls[d].subject);
      }
    }
    forall u | u in s'.users ensures UserOk(s', u) {
      assert UserOk(s, u);
    }
    forall i | 0 <= i < |s'.returned| ensures ReturnOk(s', s'.returned[i]) {
      assert ReturnOk(s, s.returned[i]);
    }
  }

  /** Returning a committed identity's user. */
  lemma ReturnKeepsInv(s: State, c: nat, u: string)
    requires Inv(s) && InCall(s, c) && HasIdentity(s, s.calls[c].subject, u)
    ensures Inv(Return(s, c, u))
  {
    var mid, s' := SetPhase(s, c, Returned(u)), Return(s, c, u);
    assert CallOk(s, c);
    PhaseKeepsInv(s, mid, c);
    ReturnedKeepInv(mid, s', Success(s.calls[c].subject, u));
  }

  lemma ReturnedKeepInv(s: State, s': State, r: Success)
    requires Inv(s) && s' == s.(returned := s.returned + [r]) && ReturnOk(s, r)
    ensures Inv(s')
  {
    forall row | row in s'.identities ensures IdentityOk(s', row) { assert IdentityOk(s, row); }
    forall d | d in s'.calls ensures CallOk(s', d) {
      assert CallOk(s, d);
      assert Taken(s', s'.calls[d].subject) == Taken(s, s.calls[d].subject);
    }
    forall u | u in s'.users ensures UserOk(s', u) { assert UserOk(s, u); }
    forall i | 0 <= i < |s'.returned| ensures ReturnOk(s', s'.returned[i]) {
      assert i < |s.returned| ==> ReturnOk(s, s.returned[i]);
      assert ReturnOk(s', s'.returned[i]) == ReturnOk(s, s'.returned[i]);
    }
  }

  lemma LookupKeepsInv(s: State, c: nat, found: Option<string>)
    requires Inv(s) && Enabled(s, Lookup(c, found))
    ensures Inv(Apply(s, Lookup(c, found)))
  {
    assert CallOk(s, c);
    match found
    case None => PhaseKeepsInv(s, Apply(s, Lookup(c, found)), c);
    case Some(row) => ReturnKeepsInv(s, c, s.identities[row].user);
  }

  lemma InsertKeepsInv(s: State, c: nat, row: string)
    requires Inv(s) && Enabled(s, InsertIdentity(c, row))
    ensures Inv(Apply(s, InsertIdentity(c, row)))
  {
    var s' := Apply(s, InsertIdentity(c, row));
    assert CallOk(s, c);
    assert row !in s.identities by {
      assert forall r :: r in s.identities ==> IdentityOk(s, r);
    }
    assert Taken(s', s.calls[c].subject) == Taken(s, s.calls[c].subject);
    forall d | d in s.calls && d != c ensures Apart(s'.calls[c], s.calls[d]) && Apart(s.calls[d], s'.calls[c]) {
      assert Apart(s.calls[c], s.calls[d]) && CallOk(s, d);
      if s'.calls[c].phase.IdentityInserted? && s.calls[d].phase.IdentityInserted? {
        assert s.calls[d].subject != s.calls[c].subject;
      }
    }
    PhaseKeepsInv(s, s', c);
  }

  lemma CommitKeepsInv(s: State, c: nat)
    requires Inv(s) && Enabled(s, Commit(c))
    ensures Inv(Apply(s, Commit(c)))
  {
    var call := s.calls[c];
    var u, row := call.phase.user, call.phase.row;
    var done := SetPhase(s, c, Returned(u));
    assert CallOk(s, c);
    PhaseKeepsInv(s, done, c);
    NewIdentityKeepsInv(done, done.(users := s.users + {u}, identities := s.identities[row := RowOf(call)]), row,
        RowOf(call), c);
    var mid := done.(users := s.users + {u}, identities := s.identities[row := RowOf(call)]);
    assert HasIdentity(mid, call.subject, u) by { assert mid.identities[row].user == u; }
    ReturnedKeepInv(mid, Apply(s, Commit(c)), Success(call.subject, u));
  }

  /** A new user with a new identity, whose subject nobody has, committed or not. */
  lemma NewIdentityKeepsInv(s: State, s': State, row: string, i: Identity, c: nat)
    requires Inv(s) && s' == s.(users := s.users + {i.user}, identities := s.identities[row := i])
    requires row in s.used && row !in s.identities && i.user in s.used && i.user !in s.users && i.user !in s.deleted
    requires IsAdmitted(i.list, i.subject) && !Taken(s, i.subject)
    requires forall r :: r in s.identities ==> s.identities[r].user != i.user
    requires forall d :: d in s.calls && (s.calls[d].phase.UserInserted? || s.calls[d].phase.IdentityInserted?) ==>
               s.calls[d].phase.user != i.user
    requires forall d :: d in s.calls && s.calls[d].phase.IdentityInserted? ==>
              s.calls[d].phase.row != row && s.calls[d].subject != i.subject
    ensures Inv(s')
  {
    IdentitiesBesideNew(s, s', row, i);
    forall d | d in s'.calls ensures CallOk(s', d) {
      CallBesideNew(s, s', row, i, d);
    }
    UsersBesideNew(s, s', row, i);
  }

  lemma IdentitiesBesideNew(s: State, s': State, row: string, i: Identity)
    requires forall r :: r in s.identities ==> IdentityOk(s, r)
    requires s' == s.(users := s.users + {i.user}, identities := s.identities[row := i])
    requires row in s.used && row !in s.identities && i.user in s.used
    requires IsAdmitted(i.list, i.subject) && !Taken(s, i.subject)
    requires forall r :: r in s.identities ==> s.identities[r].user != i.user
    ensures forall r :: r in s'.identities ==> IdentityOk(s', r)
  {
    forall r | r in s'.identities ensures IdentityOk(s', r) {
      if r != row { IdentityBesideNew(s, s', row, i, r); }
    }
  }

  lemma UsersBesideNew(s: State, s': State, row: string, i: Identity)
    requires row !in s.identities && s' == s.(users := s.users + {i.user}, identities := s.identities[row := i])
    requires forall u :: u in s.users ==> UserOk(s, u)
    requires forall k :: 0 <= k < |s.returned| ==> ReturnOk(s, s.returned[k])
    ensures forall u :: u in s'.users ==> UserOk(s', u)
    ensures forall k :: 0 <= k < |s'.returned| ==> ReturnOk(s', s'.returned[k])
  {
    forall u | u in s'.users ensures UserOk(s', u) {
      if u == i.user { assert s'.identities[row].user == u; } else { UserKept(s, s', u); }
    }
    forall k | 0 <= k < |s'.returned| ensures ReturnOk(s', s'.returned[k]) {
      assert ReturnOk(s, s.returned[k]);
      if s.returned[k].user !in s.deleted { IdentityKept(s, s', s.returned[k].subject, s.returned[k].user); }
    }
  }

  lemma IdentityBesideNew(s: State, s': State, row: string, i: Identity, r: string)
    requires r in s.identities && IdentityOk(s, r)
    requires s' == s.(users := s.users + {i.user}, identities := s.identities[row := i])
    requires r != row && s.identities[r].user != i.user && s.identities[r].subject != i.subject
    ensures IdentityOk(s', r)
  {
    assert forall x :: x in s'.identities && x != row ==> x in s.identities && s'.identities[x] == s.identities[x];
  }

  lemma CallBesideNew(s: State, s': State, row: string, i: Identity, d: nat)
    requires d in s.calls && CallOk(s, d) && s' == s.(users := s.users + {i.user}, identities := s.identities[row := i])
    requires s.calls[d].phase.UserInserted? || s.calls[d].phase.IdentityInserted? ==> s.calls[d].phase.user != i.user
    requires s.calls[d].phase.IdentityInserted? ==> s.calls[d].phase.row != row && s.calls[d].subject != i.subject
    ensures CallOk(s', d)
  {
    assert forall r :: r in s'.identities && r != row ==> r in s.identities && s'.identities[r] == s.identities[r];
  }

  lemma UserKept(s: State, s': State, u: string)
    requires UserOk(s, u) && forall r :: r in s.identities && s.identities[r].user == u ==>
              r in s'.identities && s'.identities[r] == s.identities[r]
    ensures UserOk(s', u)
  {
    var r :| r in s.identities && s.identities[r].user == u;
    assert s'.identities[r].user == u;
  }

  lemma IdentityKept(s: State, s': State, subject: Subject, u: string)
    requires HasIdentity(s, subject, u)
    requires forall r :: r in s.identities && s.identities[r].user == u ==>
              r in s'.identities && s'.identities[r] == s.identities[r]
    ensures HasIdentity(s', subject, u)
  {
    var r :| r in s.identities && s.identities[r].subject == subject && s.identities[r].user == u;
    assert s'.identities[r].user == u;
  }

  lemma DeletionKeepsInv(s: State, u: string)
    requires Inv(s) && Enabled(s, DeleteAccount(u))
    ensures Inv(Apply(s, DeleteAccount(u)))
  {
    var s' := Apply(s, DeleteAccount(u));
    forall row | row in s'.identities ensures IdentityOk(s', row) {
      IdentityBesideDeletion(s, u, row);
    }
    forall d | d in s'.calls ensures CallOk(s', d) {
      CallBesideDeletion(s, u, d);
    }
    forall v | v in s'.users ensures UserOk(s', v) {
      assert UserOk(s, v);
      UserKept(s, s', v);
    }
    forall i | 0 <= i < |s'.returned| ensures ReturnOk(s', s'.returned[i]) {
      ReturnBesideDeletion(s, u, s.returned[i]);
    }
  }

  lemma IdentityBesideDeletion(s: State, u: string, row: string)
    requires Enabled(s, DeleteAccount(u)) && row in s.identities && IdentityOk(s, row) && s.identities[row].user != u
    ensures IdentityOk(Apply(s, DeleteAccount(u)), row)
  {
  }

  lemma CallBesideDeletion(s: State, u: string, d: nat)
    requires Enabled(s, DeleteAccount(u)) && d in s.calls && CallOk(s, d)
    ensures CallOk(Apply(s, DeleteAccount(u)), d)
  {
    var s' := Apply(s, DeleteAccount(u));
    if s'.calls[d].phase.IdentityInserted? && Taken(s', s'.calls[d].subject) {
      assert Taken(s, s.calls[d].subject);
    }
  }

  lemma ReturnBesideDeletion(s: State, u: string, r: Success)
    requires Enabled(s, DeleteAccount(u)) && ReturnOk(s, r)
    requires forall row :: row in s.identities ==> s.identities[row].user in s.users
    ensures ReturnOk(Apply(s, DeleteAccount(u)), r)
  {
    var s' := Apply(s, DeleteAccount(u));
    if r.user !in s'.deleted {
      IdentityKept(s, s', r.subject, r.user);
    }
  }

  lemma {:induction false} RunKeepsInv(s: State, steps: seq<Step>)
    requires Inv(s) && Runs(s, steps)
    ensures Inv(Exec(s, steps))
    decreases |steps|
  {
    if steps != [] {
      StepKeepsInv(s, steps[0]);
      RunKeepsInv(Apply(s, steps[0]), steps[1..]);
    }
  }

  // ---- What sign-in guarantees ----

  /** In every state that any interleaving reaches: a subject has at most one
      identity, no user is without one, and different subjects never share a user,
      whatever their email addresses. */
  lemma OneUserPerSubject(s: State, steps: seq<Step>)
    requires Inv(s) && Runs(s, steps)
    ensures
      var e := Exec(s, steps);
      && (forall r, r' :: r in e.identities && r' in e.identities ==>
            (e.identities[r].subject == e.identities[r'].subject <==> r == r')
            && (e.identities[r].user == e.identities[r'].user <==> r == r'))
      && (forall u :: u in e.users <==> exists r :: r in e.identities && e.identities[r].user == u)
  {
    RunKeepsInv(s, steps);
    var e := Exec(s, steps);
    forall r, r' | r in e.identities && r' in e.identities
      ensures e.identities[r].subject == e.identities[r'].subject <==> r == r'
      ensures e.identities[r].user == e.identities[r'].user <==> r == r'
    {
      assert IdentityOk(e, r);
    }
    forall u ensures u in e.users <==> exists r :: r in e.identities && e.identities[r].user == u {
      if u in e.users {
        assert UserOk(e, u);
      }
      forall r | r in e.identities && e.identities[r].user == u ensures u in e.users {
        assert IdentityOk(e, r);
      }
    }
  }

  /** Every identity was on the allow-list that its sign-in checked. */
  lemma EveryIdentityWasAdmitted(s: State, steps: seq<Step>, row: string)
    requires Inv(s) && Runs(s, steps) && row in Exec(s, steps).identities
    ensures IsAdmitted(Exec(s, steps).identities[row].list, Exec(s, steps).identities[row].subject)
  {
    RunKeepsInv(s, steps);
    assert IdentityOk(Exec(s, steps), row);
  }

  /** Any two successful sign-ins of one subject return the same user, unless the
      account one of them returned has been deleted. */
  lemma SameSubjectSameUser(s: State, steps: seq<Step>, i: nat, j: nat)
    requires Inv(s) && Runs(s, steps) && i < |Exec(s, steps).returned| && j < |Exec(s, steps).returned|
    ensures
      var e := Exec(s, steps);
      var a, b := e.returned[i], e.returned[j];
      && (a.subject == b.subject && a.user !in e.deleted && b.user !in e.deleted ==> a.user == b.user)
      && (a.user == b.user && a.user !in e.deleted ==> a.subject == b.subject)
  {
    RunKeepsInv(s, steps);
    var e := Exec(s, steps);
    var a, b := e.returned[i], e.returned[j];
    assert ReturnOk(e, a) && ReturnOk(e, b);
    if a.user !in e.deleted && b.user !in e.deleted {
      var r :| r in e.identities && e.identities[r].subject == a.subject && e.identities[r].user == a.user;
      var r' :| r' in e.identities && e.identities[r'].subject == b.subject && e.identities[r'].user == b.user;
      assert IdentityOk(e, r) && IdentityOk(e, r');
    }
  }
}
