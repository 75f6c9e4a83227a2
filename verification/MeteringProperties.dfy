/** What every interleaving of metered calls keeps. */
module MeteringProperties {
  import opened Wrappers
  import opened Budget
  import opened Metering

  // ---- Facts about every reachable state ----

  /** A flight past pricing has a priced model and an affordable prompt. */
  predicate Affordable(w: Setting, f: Flight) {
    var worst := WorstCaseAttemptCost(f.request.model, Prompt(f), f.request.maxTokens);
    worst.Some? && worst.value <= w.ceiling
  }

  predicate FlightOk(w: Setting, f: Flight) {
    && 1 <= f.attempt <= MaxAttempts(f.request)
    && (f.phase.AwaitReply? || f.phase.LogUsage? || f.phase.Judge? ==> Affordable(w, f))
  }

  /** A row says what its call's request said. */
  predicate RowBelongs(s: State, row: UsageRow) {
    && row.call in s.flights && row.user == s.flights[row.call].request.user
    && row.conversation == s.flights[row.call].request.conversation
  }

  /** Rows in the log belong to accounts that exist, rows gone to erased ones. */
  predicate RowsOk(s: State) {
    && (forall i :: 0 <= i < |s.log| ==>
        s.log[i].month <= s.month && RowBelongs(s, s.log[i]) && s.log[i].user !in s.erased)
    && (forall i :: 0 <= i < |s.gone| ==> RowBelongs(s, s.gone[i]) && s.gone[i].user in s.erased)
    && (forall i :: 0 <= i < |s.lost| ==> RowBelongs(s, s.lost[i]))
  }

  predicate Sound(w: Setting, s: State) {
    RowsOk(s) && forall c :: c in s.flights ==> FlightOk(w, s.flights[c])
  }

  lemma SoundStep(w: Setting, s: State, step: Step)
    requires Sound(w, s)
    ensures Sound(w, Apply(w, s, step))
  {
    if step.EraseAccount? {
      ErasureKeepsRowsOk(w, s, step.user);
    } else {
      RowsOkStep(w, s, step);
    }
  }

  lemma RequestsStay(w: Setting, s: State, step: Step)
    ensures forall k :: k in s.flights ==>
              k in Apply(w, s, step).flights && Apply(w, s, step).flights[k].request == s.flights[k].request
  {
  }

  lemma RowsOkStep(w: Setting, s: State, step: Step)
    requires RowsOk(s) && !step.EraseAccount?
    ensures RowsOk(Apply(w, s, step))
  {
    RequestsStay(w, s, step);
    if step.Insert? && Enabled(s, step) {
      RowsOkInsert(w, s, step);
    } else {
      LogsRest(w, s, step);
      MonthsGoOn(w, s, step);
    }
  }

  lemma LogsRest(w: Setting, s: State, step: Step)
    requires !(step.Insert? && Enabled(s, step)) && !step.EraseAccount?
    ensures
      var s' := Apply(w, s, step);
      s'.log == s.log && s'.gone == s.gone && s'.lost == s.lost
  {
  }

  lemma MonthsGoOn(w: Setting, s: State, step: Step)
    requires !step.EraseAccount?
    ensures s.month <= Apply(w, s, step).month && Apply(w, s, step).erased == s.erased
  {
  }

  lemma RowsOkInsert(w: Setting, s: State, step: Step)
    requires RowsOk(s) && step.Insert? && Enabled(s, step)
    ensures RowsOk(Apply(w, s, step))
  {
    RequestsStay(w, s, step);
  }

  lemma ErasureKeepsRowsOk(w: Setting, s: State, u: string)
    requires RowsOk(s)
    ensures RowsOk(Apply(w, s, EraseAccount(u)))
  {
    var s' := Apply(w, s, EraseAccount(u));
    LiveRows(s.log, {u});
    forall i | 0 <= i < |s'.log|
      ensures s'.log[i].month <= s.month && RowBelongs(s', s'.log[i]) && s'.log[i].user !in s'.erased
    {
      assert s'.log[i] in s'.log;
    }
    forall i | 0 <= i < |s'.gone| ensures RowBelongs(s', s'.gone[i]) && s'.gone[i].user in s'.erased {
      assert i >= |s.gone| ==> s'.gone[i] in Dead(s.log, {u});
    }
  }

  // ---- Money: every charge is logged, gone with its account, reported lost, or about to be written ----

  function Charged(exchanges: seq<Exchange>, call: nat): real {
    if exchanges == [] then 0.0
    else
      var e := exchanges[|exchanges| - 1];
      Charged(exchanges[..|exchanges| - 1], call) + if e.call == call then e.cost else 0.0
  }

  /** Cost of the reply the call has received but not yet accounted for. */
  function Unwritten(s: State, call: nat): real {
    if call in s.flights && s.flights[call].phase.LogUsage?
    then ReplyCost(s.flights[call].request.model, s.flights[call].phase.reply)
    else 0.0
  }

  predicate Balanced(s: State, call: nat) {
    Charged(s.exchanges, call)
    == CallCost(s.log, call) + CallCost(s.gone, call) + CallCost(s.lost, call) + Unwritten(s, call)
  }

  lemma OneMoreExchange(exchanges: seq<Exchange>, e: Exchange)
    ensures forall k :: Charged(exchanges + [e], k) == Charged(exchanges, k) + if e.call == k then e.cost else 0.0
  {
    var after := exchanges + [e];
    assert after[..|after| - 1] == exchanges && after[|after| - 1] == e;
  }

  /** A charge is owed a row by the call that made it. */
  predicate Charges(s: State, s': State, e: Exchange, k: nat) {
    && s'.exchanges == s.exchanges + [e] && s'.log == s.log && s'.gone == s.gone && s'.lost == s.lost
    && Unwritten(s', k) == Unwritten(s, k) + if e.call == k then e.cost else 0.0
  }

  lemma ReplyCharges(w: Setting, s: State, step: Step, k: nat) returns (e: Exchange)
    requires step.ProviderReply? && Enabled(s, step)
    ensures Charges(s, Apply(w, s, step), e, k)
  {
    var f := s.flights[step.call];
    e := Exchange(step.call, f.system, f.spent, step.reply, ReplyCost(f.request.model, step.reply));
  }

  lemma BalancedCharge(s: State, s': State, e: Exchange, k: nat)
    requires Charges(s, s', e, k) && Balanced(s, k)
    ensures Balanced(s', k)
  {
    OneMoreExchange(s.exchanges, e);
  }

  /** A row says what its reply cost, unpriced models at nothing. */
  lemma RowCostsItsReply(s: State, call: nat, f: Flight, reply: Reply)
    ensures RowOf(s, call, f, reply).cost == ReplyCost(f.request.model, reply)
  {
    if Price(f.request.model).Some? {
      StoredCostIsExact(f.request.model, reply.inputTokens, reply.outputTokens);
    }
  }

  lemma OneMoreCost(log: seq<UsageRow>, row: UsageRow, k: nat)
    ensures CallCost(log + [row], k) == CallCost(log, k) + if row.call == k then row.cost else 0.0
  {
    OneMoreRow(log, row);
  }

  /** A row that was unwritten is now in the log or among the lost. */
  predicate WritesRow(s: State, s': State, row: UsageRow, k: nat) {
    && s'.exchanges == s.exchanges && s'.gone == s.gone
    && (|| (s'.log == s.log + [row] && s'.lost == s.lost)
        || (s'.log == s.log && s'.lost == s.lost + [row]))
    && Unwritten(s', k) == Unwritten(s, k) - if row.call == k then row.cost else 0.0
  }

  lemma InsertWrites(w: Setting, s: State, step: Step, k: nat) returns (row: UsageRow)
    requires step.Insert? && Enabled(s, step)
    ensures WritesRow(s, Apply(w, s, step), row, k)
    ensures row.call == step.call && row.attempt == s.flights[step.call].attempt
  {
    var f := s.flights[step.call];
    row := RowOf(s, step.call, f, f.phase.reply);
    RowCostsItsReply(s, step.call, f, f.phase.reply);
  }

  lemma BalancedWrite(s: State, s': State, row: UsageRow, k: nat)
    requires WritesRow(s, s', row, k) && Balanced(s, k)
    ensures Balanced(s', k)
  {
    OneMoreCost(s.log, row, k);
    OneMoreCost(s.lost, row, k);
  }

  lemma BalancedErasure(w: Setting, s: State, u: string, k: nat)
    requires Balanced(s, k)
    ensures Balanced(Apply(w, s, EraseAccount(u)), k)
  {
    LiveSplitsCalls(s.log, {u}, k);
    CostsAddUp(s.gone, Dead(s.log, {u}), k);
  }

  /** The other steps move no money. */
  lemma MoneyRests(w: Setting, s: State, step: Step, k: nat)
    requires !(Enabled(s, step) && (step.ProviderReply? || step.Insert?)) && !step.EraseAccount?
    ensures
      var s' := Apply(w, s, step);
      && s'.log == s.log && s'.gone == s.gone && s'.lost == s.lost && s'.exchanges == s.exchanges
      && Unwritten(s', k) == Unwritten(s, k)
  {
  }

  lemma BalancedStep(w: Setting, s: State, step: Step, k: nat)
    requires Sound(w, s) && Balanced(s, k)
    ensures Balanced(Apply(w, s, step), k)
  {
    if step.EraseAccount? {
      BalancedErasure(w, s, step.user, k);
    } else if step.ProviderReply? && Enabled(s, step) {
      var e := ReplyCharges(w, s, step, k);
      BalancedCharge(s, Apply(w, s, step), e, k);
    } else if step.Insert? && Enabled(s, step) {
      var row := InsertWrites(w, s, step, k);
      BalancedWrite(s, Apply(w, s, step), row, k);
    } else {
      MoneyRests(w, s, step, k);
    }
  }

  lemma {:induction false} BalancedRun(w: Setting, s: State, steps: seq<Step>, k: nat)
    requires Sound(w, s) && Balanced(s, k)
    ensures Sound(w, Exec(w, s, steps)) && Balanced(Exec(w, s, steps), k)
    decreases |steps|
  {
    if steps != [] {
      SoundStep(w, s, steps[0]);
      BalancedStep(w, s, steps[0], k);
      BalancedRun(w, Apply(w, s, steps[0]), steps[1..], k);
    }
  }

  /** No row of a user whose account exists is gone. */
  lemma NothingGone(s: State, k: nat)
    requires RowsOk(s) && (k in s.flights ==> s.flights[k].request.user !in s.erased)
    ensures CallCost(s.gone, k) == 0.0
  {
    forall i | 0 <= i < |s.gone| ensures s.gone[i].call != k {
      assert RowBelongs(s, s.gone[i]);
    }
    NoRowsNoCost(s.gone, k);
  }

  /** Metering is conserved in every run, erasures included: what the provider
      charged for a call is what its log rows and its lost rows say, what went with
      its owner's account, and the reply it is about to log. As long as the account
      exists nothing of it has gone. */
  lemma MoneyIsConserved(w: Setting, s: State, steps: seq<Step>, k: nat)
    requires Sound(w, s) && Balanced(s, k)
    ensures
      var e := Exec(w, s, steps);
      && Sound(w, e) && Balanced(e, k)
      && (k in e.flights && e.flights[k].request.user !in e.erased ==>
            Charged(e.exchanges, k) == CallCost(e.log, k) + CallCost(e.lost, k) + Unwritten(e, k))
  {
    BalancedRun(w, s, steps, k);
    var e := Exec(w, s, steps);
    if k in e.flights && e.flights[k].request.user !in e.erased {
      NothingGone(e, k);
    }
  }

  /** One step takes from the log the rows of whom it erases, and adds at the end. */
  lemma LogAfterStep(w: Setting, s: State, step: Step, erased: set<string>)
    requires Apply(w, s, step).erased <= erased
    ensures Live(s.log, erased) <= Live(Apply(w, s, step).log, erased)
    ensures s.lost <= Apply(w, s, step).lost && s.gone <= Apply(w, s, step).gone
    ensures s.exchanges <= Apply(w, s, step).exchanges
    ensures s.month <= Apply(w, s, step).month && s.erased <= Apply(w, s, step).erased
  {
    if step.EraseAccount? {
      LiveTwice(s.log, {step.user}, erased);
      assert {step.user} + erased == erased;
    } else if step.Insert? && Enabled(s, step) {
      var f := s.flights[step.call];
      LiveOneMore(s.log, RowOf(s, step.call, f, f.phase.reply), erased);
    }
  }

  lemma {:induction false} ErasedGrows(w: Setting, s: State, steps: seq<Step>)
    ensures s.erased <= Exec(w, s, steps).erased
    decreases |steps|
  {
    if steps != [] {
      ErasedGrows(w, Apply(w, s, steps[0]), steps[1..]);
    }
  }

  lemma {:induction false} LiveLogGrows(w: Setting, s: State, steps: seq<Step>, erased: set<string>)
    requires Exec(w, s, steps).erased <= erased
    ensures Live(s.log, erased) <= Live(Exec(w, s, steps).log, erased)
    ensures s.lost <= Exec(w, s, steps).lost && s.gone <= Exec(w, s, steps).gone
    ensures s.exchanges <= Exec(w, s, steps).exchanges && s.month <= Exec(w, s, steps).month
    decreases |steps|
  {
    if steps != [] {
      ErasedGrows(w, Apply(w, s, steps[0]), steps[1..]);
      LogAfterStep(w, s, steps[0], erased);
      LiveLogGrows(w, Apply(w, s, steps[0]), steps[1..], erased);
    }
  }

  /** A usage row stays exactly as long as its owner's account: in every run the
      rows of users not erased stay, in order, in front of what is added, and no
      row of an erased user does. Reports of lost rows stay in any case. */
  lemma RowsStayUntilErased(w: Setting, s: State, steps: seq<Step>)
    requires Sound(w, s)
    ensures
      var e := Exec(w, s, steps);
      && Live(s.log, e.erased) <= e.log
      && (forall r :: r in s.log ==> (r in e.log <==> r.user !in e.erased))
      && s.lost <= e.lost && s.exchanges <= e.exchanges && s.month <= e.month && s.erased <= e.erased
  {
    var e := Exec(w, s, steps);
    SoundRun(w, s, steps);
    ErasedGrows(w, s, steps);
    LiveLogGrows(w, s, steps, e.erased);
    LiveOfLive(e.log, e.erased);
    LiveRows(s.log, e.erased);
    forall r | r in s.log ensures r in e.log <==> r.user !in e.erased {
      if r.user !in e.erased {
        var i :| 0 <= i < |Live(s.log, e.erased)| && Live(s.log, e.erased)[i] == r;
        assert e.log[i] == r;
      }
    }
  }

  lemma {:induction false} SoundRun(w: Setting, s: State, steps: seq<Step>)
    requires Sound(w, s)
    ensures Sound(w, Exec(w, s, steps))
    decreases |steps|
  {
    if steps != [] {
      SoundStep(w, s, steps[0]);
      SoundRun(w, Apply(w, s, steps[0]), steps[1..]);
    }
  }

  // ---- The monthly cap ----

  /** Attempts of `user` that passed the budget check and are not yet logged. */
  predicate Pending(f: Flight, user: string) {
    f.request.user == user && (f.phase.PriceAttempt? || f.phase.AwaitReply? || f.phase.LogUsage?)
  }

  function PendingCalls(s: State, user: string): set<nat> {
    set c | c in s.flights && Pending(s.flights[c], user)
  }

  /** The provider charges no more input than estimated and no more output than
      allowed: the assumption behind the worst-case price. */
  predicate HonestReply(s: State, step: Step, user: string) {
    step.ProviderReply? && step.call in s.flights && s.flights[step.call].request.user == user ==>
      && step.reply.inputTokens <= EstimateTokens(Prompt(s.flights[step.call]))
      && step.reply.outputTokens <= s.flights[step.call].request.maxTokens
  }

  /** Along the whole run at most `n` attempts of `user` are in flight, and every
      reply to them is within its estimates. */
  predicate Calm(w: Setting, s: State, steps: seq<Step>, user: string, n: nat)
    decreases |steps|
  {
    && |PendingCalls(s, user)| <= n
    && (steps == [] || (HonestReply(s, steps[0], user) && Calm(w, Apply(w, s, steps[0]), steps[1..], user, n)))
  }

  function Times(n: nat, c: real): real {
    if n == 0 then 0.0 else c + Times(n - 1, c)
  }

  lemma {:induction false} TimesMonotone(m: nat, n: nat, c: real)
    requires m <= n && 0.0 <= c
    ensures Times(m, c) <= Times(n, c)
  {
    if m < n { TimesMonotone(m, n - 1, c); }
  }

  /** Replies waiting to be logged cost at most the ceiling. */
  predicate CheapReplies(w: Setting, s: State, user: string) {
    forall c :: c in s.flights && s.flights[c].request.user == user && s.flights[c].phase.LogUsage? ==>
      0.0 <= ReplyCost(s.flights[c].request.model, s.flights[c].phase.reply) <= w.ceiling
  }

  predicate UnderCap(w: Setting, s: State, user: string, n: nat) {
    && CheapReplies(w, s, user)
    && (|| MonthSpend(s.log, user, s.month) < w.cap
        || MonthSpend(s.log, user, s.month) + Times(|PendingCalls(s, user)|, w.ceiling) < w.cap + Times(n, w.ceiling))
    && (forall m :: 0 <= m < s.month ==> MonthSpend(s.log, user, m) < w.cap + Times(n, w.ceiling))
  }

  /** How a step changes the set of pending attempts. */
  lemma PendingChange(w: Setting, s: State, step: Step, user: string)
    requires Sound(w, s)
    ensures
      var before, after := PendingCalls(s, user), PendingCalls(Apply(w, s, step), user);
      && (step.BudgetCheck? && after != before ==>
            after == before + {step.call} && SpentSince(s.log, user, s.month) < w.cap)
      && (step.Insert? && Enabled(s, step) && s.flights[step.call].request.user == user ==>
            step.call in before && after == before - {step.call})
      && (!step.BudgetCheck? ==> after <= before)
  {
    var s' := Apply(w, s, step);
    assert step.BudgetCheck? && Enabled(s, step) && Pending(s'.flights[step.call], user) ==>
        PendingCalls(s', user) == PendingCalls(s, user) + {step.call};
    assert step.BudgetCheck? && Enabled(s, step) && !Pending(s'.flights[step.call], user) ==>
        PendingCalls(s', user) == PendingCalls(s, user);
  }

  lemma CheapReply(w: Setting, s: State, step: Step, user: string)
    requires step.ProviderReply? && Enabled(s, step) && Sound(w, s) && HonestReply(s, step, user)
    requires s.flights[step.call].request.user == user
    ensures 0.0 <= ReplyCost(s.flights[step.call].request.model, step.reply) <= w.ceiling
  {
    var f := s.flights[step.call];
    WithinWorstCase(f.request.model, Prompt(f), f.request.maxTokens, step.reply.inputTokens, step.reply.outputTokens);
  }

  lemma CheapStep(w: Setting, s: State, step: Step, user: string)
    requires Sound(w, s) && CheapReplies(w, s, user) && HonestReply(s, step, user)
    ensures CheapReplies(w, Apply(w, s, step), user)
  {
    if step.ProviderReply? && Enabled(s, step) {
      if s.flights[step.call].request.user == user {
        CheapReply(w, s, step, user);
      }
    } else {
      RepliesRest(w, s, step);
    }
  }

  /** Only the provider's answer makes a call wait to be logged. */
  lemma RepliesRest(w: Setting, s: State, step: Step)
    requires !(step.ProviderReply? && Enabled(s, step))
    ensures
      var s' := Apply(w, s, step);
      forall c :: c in s'.flights && s'.flights[c].phase.LogUsage? ==> c in s.flights && s.flights[c] == s'.flights[c]
  {
  }

  /** Spending grows by no more than the ceiling that the attempt had reserved. */
  lemma ReserveCovers(w: Setting, spend: real, cost: real, p: nat, n: nat)
    requires 1 <= p <= n && 0.0 <= cost <= w.ceiling
    requires spend < w.cap || spend + Times(p, w.ceiling) < w.cap + Times(n, w.ceiling)
    ensures spend + cost + Times(p - 1, w.ceiling) < w.cap + Times(n, w.ceiling)
  {
    TimesMonotone(p, n, w.ceiling);
  }

  lemma InsertLogs(w: Setting, s: State, step: Step, user: string)
    requires step.Insert? && Enabled(s, step) && !Refused(s, step.call, step.fails)
    requires s.flights[step.call].request.user == user
    requires Sound(w, s)
    ensures
      var s' := Apply(w, s, step);
      var f := s.flights[step.call];
      && s'.month == s.month
      && forall m :: MonthSpend(s'.log, user, m) ==
           MonthSpend(s.log, user, m) + if m == s.month then ReplyCost(f.request.model, f.phase.reply) else 0.0
  {
    var f := s.flights[step.call];
    RowCostsItsReply(s, step.call, f, f.phase.reply);
    OneMoreRow(s.log, RowOf(s, step.call, f, f.phase.reply));
  }

  /** A logged attempt costs at most the ceiling and is no longer pending. */
  lemma InsertStep(w: Setting, s: State, step: Step, user: string, n: nat)
    requires step.Insert? && Enabled(s, step) && !Refused(s, step.call, step.fails)
    requires s.flights[step.call].request.user == user
    requires Sound(w, s) && UnderCap(w, s, user, n) && |PendingCalls(s, user)| <= n && w.ceiling >= 0.0
    ensures UnderCap(w, Apply(w, s, step), user, n)
  {
    var f := s.flights[step.call];
    InsertLogs(w, s, step, user);
    RepliesRest(w, s, step);
    PendingChange(w, s, step, user);
    var p := |PendingCalls(s, user)|;
    assert |PendingCalls(Apply(w, s, step), user)| == p - 1;
    ReserveCovers(w, MonthSpend(s.log, user, s.month), ReplyCost(f.request.model, f.phase.reply), p, n);
  }

  /** An erasure leaves every month's spending or takes it away. */
  lemma ErasureStep(w: Setting, s: State, erased: string, user: string, n: nat)
    requires UnderCap(w, s, user, n) && w.cap > 0.0 && w.ceiling >= 0.0
    ensures UnderCap(w, Apply(w, s, EraseAccount(erased)), user, n)
  {
    var s' := Apply(w, s, EraseAccount(erased));
    TimesMonotone(0, n, w.ceiling);
    forall m: nat ensures MonthSpend(s'.log, user, m) == if user == erased then 0.0 else MonthSpend(s.log, user, m) {
      LiveAccounts(s.log, {erased}, user, m, "");
    }
    assert PendingCalls(s', user) == PendingCalls(s, user);
  }

  /** A step that adds nothing to the log and moves no calendar. */
  lemma UnderCapAsBefore(w: Setting, s: State, s': State, user: string, n: nat)
    requires UnderCap(w, s, user, n) && CheapReplies(w, s', user) && s'.log == s.log && s'.month == s.month
    requires w.ceiling >= 0.0
    requires PendingCalls(s', user) <= PendingCalls(s, user) || MonthSpend(s.log, user, s.month) < w.cap
    ensures UnderCap(w, s', user, n)
  {
    if PendingCalls(s', user) <= PendingCalls(s, user) {
      SubsetSize(PendingCalls(s', user), PendingCalls(s, user));
      TimesMonotone(|PendingCalls(s', user)|, |PendingCalls(s, user)|, w.ceiling);
    }
  }

  lemma NewMonth(w: Setting, s: State, user: string, n: nat)
    requires RowsOk(s) && UnderCap(w, s, user, n) && w.cap > 0.0 && w.ceiling >= 0.0
    ensures UnderCap(w, Apply(w, s, MonthTick), user, n)
  {
    NoFutureSpend(s.log, user, s.month + 1);
    TimesMonotone(0, |PendingCalls(s, user)|, w.ceiling);
    TimesMonotone(0, n, w.ceiling);
  }

  lemma ForeignInsert(w: Setting, s: State, step: Step, user: string, n: nat)
    requires step.Insert? && Enabled(s, step) && !Refused(s, step.call, step.fails)
    requires s.flights[step.call].request.user != user
    requires UnderCap(w, s, user, n)
    ensures UnderCap(w, Apply(w, s, step), user, n)
  {
    var f := s.flights[step.call];
    OneMoreRow(s.log, RowOf(s, step.call, f, f.phase.reply));
    assert PendingCalls(Apply(w, s, step), user) == PendingCalls(s, user);
  }

  lemma UnderCapStep(w: Setting, s: State, step: Step, user: string, n: nat)
    requires Sound(w, s) && UnderCap(w, s, user, n) && HonestReply(s, step, user)
    requires |PendingCalls(s, user)| <= n && w.cap > 0.0 && w.ceiling >= 0.0
    ensures UnderCap(w, Apply(w, s, step), user, n)
  {
    if step.MonthTick? {
      NewMonth(w, s, user, n);
    } else if step.EraseAccount? {
      ErasureStep(w, s, step.user, user, n);
    } else if step.Insert? && Enabled(s, step) && !Refused(s, step.call, step.fails) {
      if s.flights[step.call].request.user == user {
        InsertStep(w, s, step, user, n);
      } else {
        ForeignInsert(w, s, step, user, n);
      }
    } else {
      CheapStep(w, s, step, user);
      PendingChange(w, s, step, user);
      SpentIsMonthSpend(s.log, user, s.month);
      UnderCapAsBefore(w, s, Apply(w, s, step), user, n);
    }
  }

  /** The calls from `from` on, so many. */
  function Calls(from: nat, count: nat): (r: set<nat>)
    ensures |r| == count && forall x :: x in r <==> from <= x < from + count
  {
    if count == 0 then {} else Calls(from, count - 1) + {from + count - 1}
  }

  lemma SubsetSize(a: set<nat>, b: set<nat>)
    requires a <= b
    ensures |a| <= |b|
  {
    assert b == a + (b - a);
  }

  lemma {:induction false} UnderCapRun(w: Setting, s: State, steps: seq<Step>, user: string, n: nat)
    requires Sound(w, s) && UnderCap(w, s, user, n) && Calm(w, s, steps, user, n)
    requires w.cap > 0.0 && w.ceiling >= 0.0
    ensures Sound(w, Exec(w, s, steps)) && UnderCap(w, Exec(w, s, steps), user, n)
    decreases |steps|
  {
    if steps != [] {
      SoundStep(w, s, steps[0]);
      UnderCapStep(w, s, steps[0], user, n);
      UnderCapRun(w, Apply(w, s, steps[0]), steps[1..], user, n);
    }
  }

  /** The bound on overshoot: however calls interleave, with at most `n` attempts
      of a user in flight the user's logged spend in any calendar month stays
      below the cap plus `n` attempt ceilings. */
  lemma OvershootIsBounded(w: Setting, start: nat, steps: seq<Step>, user: string, n: nat, month: nat)
    requires w.cap > 0.0 && w.ceiling >= 0.0 && Calm(w, Initial(start), steps, user, n)
    ensures MonthSpend(Exec(w, Initial(start), steps).log, user, month) < w.cap + Times(n, w.ceiling)
  {
    var s0 := Initial(start);
    assert PendingCalls(s0, user) == {};
    TimesMonotone(0, n, w.ceiling);
    UnderCapRun(w, s0, steps, user, n);
    var s := Exec(w, s0, steps);
    TimesMonotone(0, |PendingCalls(s, user)|, w.ceiling);
    if month > s.month { NoFutureSpend(s.log, user, month); }
  }

  const DEFAULT_CAP_USD := 10.0
  const DEFAULT_ATTEMPT_CEILING_USD := 0.5

  /** The limits as the environment gives them. */
  function Configured(cap: EnvNumber, ceiling: EnvNumber, validate: (nat, string) -> Verdict): Setting {
    Setting(PositiveEnvNumber(cap, DEFAULT_CAP_USD), PositiveEnvNumber(ceiling, DEFAULT_ATTEMPT_CEILING_USD), validate)
  }

  /** So the bound holds whatever the environment says, set or not. */
  lemma ConfiguredOvershootIsBounded(cap: EnvNumber, ceiling: EnvNumber, validate: (nat, string) -> Verdict,
                                     start: nat, steps: seq<Step>, user: string, n: nat, month: nat)
    requires Calm(Configured(cap, ceiling, validate), Initial(start), steps, user, n)
    ensures
      var w := Configured(cap, ceiling, validate);
      MonthSpend(Exec(w, Initial(start), steps).log, user, month) < w.cap + Times(n, w.ceiling)
  {
    OvershootIsBounded(Configured(cap, ceiling, validate), start, steps, user, n, month);
  }

  // ---- Conversation turns ----

  /** The request belongs to the conversation. */
  predicate Talks(r: Request, user: string, conversation: string) {
    r.user == user && r.conversation == Some(conversation)
  }

  /** Calls of the conversation that have begun and not ended. */
  function OpenCalls(s: State, user: string, conversation: string): set<nat> {
    set c | c in s.flights && Talks(s.flights[c].request, user, conversation) && !s.flights[c].phase.Ended?
  }

  /** Open calls past the turn check that may still record their turn. */
  function TurnsToCome(s: State, user: string, conversation: string): set<nat> {
    set c | c in s.flights && Talks(s.flights[c].request, user, conversation) && s.flights[c].attempt == 1
            && (s.flights[c].phase.CheckBudget? || s.flights[c].phase.PriceAttempt?
                || s.flights[c].phase.AwaitReply? || s.flights[c].phase.LogUsage?)
  }

  predicate SameTurnCap(s: State, user: string, conversation: string, m: nat) {
    forall c :: c in s.flights && Talks(s.flights[c].request, user, conversation) ==>
        s.flights[c].request.maxTurns == Some(m)
  }

  /** Along the run every call of the conversation passes the cap `m`, and at most
      `k` of them overlap. */
  predicate Orderly(w: Setting, s: State, steps: seq<Step>, user: string, conversation: string, m: nat, k: nat)
    decreases |steps|
  {
    && |OpenCalls(s, user, conversation)| <= k && SameTurnCap(s, user, conversation, m)
    && (steps == [] || Orderly(w, Apply(w, s, steps[0]), steps[1..], user, conversation, m, k))
  }

  predicate UnderTurnCap(s: State, user: string, conversation: string, m: nat, k: nat) {
    var turns := Turns(s.log, user, conversation);
    turns < m || turns + |TurnsToCome(s, user, conversation)| + 1 <= m + k
  }

  lemma TurnsToComeChange(w: Setting, s: State, step: Step, user: string, c: string)
    requires Sound(w, s)
    ensures
      var before, after := TurnsToCome(s, user, c), TurnsToCome(Apply(w, s, step), user, c);
      && before <= OpenCalls(s, user, c)
      && (step.TurnCheck? && after != before ==>
            Enabled(s, step) && step.call in Apply(w, s, step).flights
            && Apply(w, s, step).flights[step.call].phase == CheckBudget
            && Talks(s.flights[step.call].request, user, c))
      && (step.Insert? && Enabled(s, step) ==> after == before - {step.call})
      && (!step.TurnCheck? ==> after <= before)
  {
  }

  lemma TurnStep(w: Setting, s: State, step: Step, user: string, c: string, m: nat, k: nat)
    requires Sound(w, s) && UnderTurnCap(s, user, c, m, k) && c != "" && k >= 1
    requires SameTurnCap(s, user, c, m) && |OpenCalls(s, user, c)| <= k
    ensures UnderTurnCap(Apply(w, s, step), user, c, m, k)
  {
    var s' := Apply(w, s, step);
    TurnsToComeChange(w, s, step, user, c);
    var before, after := TurnsToCome(s, user, c), TurnsToCome(s', user, c);
    SubsetSize(before, OpenCalls(s, user, c));
    if step.Insert? && Enabled(s, step) {
      var f := s.flights[step.call];
      var row := RowOf(s, step.call, f, f.phase.reply);
      OneMoreRow(s.log, row);
      if IsTurn(row, user, c) {
        assert step.call in before;
        assert |after| == |before| - 1;
      } else {
        SubsetSize(after, before);
      }
    } else if !step.TurnCheck? {
      SubsetSize(after, before);
      if step.EraseAccount? {
        LiveAccounts(s.log, {step.user}, user, 0, c);
      }
    }
  }

  lemma {:induction false} TurnRun(w: Setting, s: State, steps: seq<Step>, user: string, c: string, m: nat, k: nat)
    requires Sound(w, s) && UnderTurnCap(s, user, c, m, k) && c != "" && k >= 1
    requires Orderly(w, s, steps, user, c, m, k)
    ensures Sound(w, Exec(w, s, steps)) && UnderTurnCap(Exec(w, s, steps), user, c, m, k)
    decreases |steps|
  {
    if steps != [] {
      SoundStep(w, s, steps[0]);
      TurnStep(w, s, steps[0], user, c, m, k);
      TurnRun(w, Apply(w, s, steps[0]), steps[1..], user, c, m, k);
    }
  }

  /** A conversation whose calls pass the cap `m` and overlap at most `k` at a time
      never records more than m + k - 1 turns, retries and interleaving included;
      for calls made one after the other that is `m`. */
  lemma TurnsAreBounded(w: Setting, start: nat, steps: seq<Step>, user: string, c: string, m: nat, k: nat)
    requires c != "" && k >= 1 && Orderly(w, Initial(start), steps, user, c, m, k)
    ensures Turns(Exec(w, Initial(start), steps).log, user, c) <= m + k - 1
  {
    assert TurnsToCome(Initial(start), user, c) == {};
    TurnRun(w, Initial(start), steps, user, c, m, k);
  }

  /** However many attempts it makes, a call adds at most one turn. */
  predicate OneTurn(s: State, k: nat) {
    var turns := CallTurns(s.log, k) + CallTurns(s.gone, k) + CallTurns(s.lost, k);
    turns <= 1 && (NothingLogged(s, k) ==> turns == 0)
  }

  /** The call has not begun, or its first attempt is not yet logged. */
  predicate NothingLogged(s: State, k: nat) {
    k in s.flights ==> s.flights[k].attempt == 1 && !s.flights[k].phase.Judge? && !s.flights[k].phase.Ended?
  }

  /** The other steps bring no call nearer to its turn. */
  lemma TurnsRest(w: Setting, s: State, step: Step, k: nat)
    requires Sound(w, s) && !(step.Insert? && Enabled(s, step)) && !step.EraseAccount?
    ensures NothingLogged(Apply(w, s, step), k) ==> NothingLogged(s, k)
  {
  }

  lemma OneTurnStep(w: Setting, s: State, step: Step, k: nat)
    requires Sound(w, s) && OneTurn(s, k)
    ensures OneTurn(Apply(w, s, step), k)
  {
    if step.EraseAccount? {
      LiveSplitsCalls(s.log, {step.user}, k);
      CostsAddUp(s.gone, Dead(s.log, {step.user}), k);
    } else if step.Insert? && Enabled(s, step) {
      OneTurnInsert(w, s, step, k);
    } else {
      LogsRest(w, s, step);
      TurnsRest(w, s, step, k);
    }
  }

  lemma OneTurnInsert(w: Setting, s: State, step: Step, k: nat)
    requires OneTurn(s, k) && step.Insert? && Enabled(s, step)
    ensures OneTurn(Apply(w, s, step), k)
  {
    var row := InsertWrites(w, s, step, k);
    PastLogging(w, s, step, k);
    OneTurnWrite(s, Apply(w, s, step), row, k);
  }

  /** A call that has logged an attempt is past its first one or at its verdict. */
  lemma PastLogging(w: Setting, s: State, step: Step, k: nat)
    requires step.Insert? && Enabled(s, step)
    ensures
      var s' := Apply(w, s, step);
      && !NothingLogged(s', step.call) && (k != step.call ==> (NothingLogged(s', k) <==> NothingLogged(s, k)))
      && (s.flights[step.call].attempt == 1 ==> NothingLogged(s, step.call))
  {
  }

  lemma OneTurnWrite(s: State, s': State, row: UsageRow, k: nat)
    requires OneTurn(s, k) && WritesRow(s, s', row, k) && !NothingLogged(s', row.call)
    requires k != row.call ==> (NothingLogged(s', k) <==> NothingLogged(s, k))
    requires row.attempt == 1 ==> NothingLogged(s, row.call)
    ensures OneTurn(s', k)
  {
    OneMoreTurn(s.log, row, k);
    OneMoreTurn(s.lost, row, k);
  }

  lemma OneMoreTurn(log: seq<UsageRow>, row: UsageRow, k: nat)
    ensures CallTurns(log + [row], k) ==
            CallTurns(log, k) + if row.call == k && row.attempt == 1 then 1 else 0
  {
    OneMoreRow(log, row);
  }

  lemma {:induction false} OneTurnPerCall(w: Setting, s: State, steps: seq<Step>, k: nat)
    requires Sound(w, s) && OneTurn(s, k)
    ensures OneTurn(Exec(w, s, steps), k)
    decreases |steps|
  {
    if steps != [] {
      SoundStep(w, s, steps[0]);
      OneTurnStep(w, s, steps[0], k);
      OneTurnPerCall(w, Apply(w, s, steps[0]), steps[1..], k);
    }
  }
}
