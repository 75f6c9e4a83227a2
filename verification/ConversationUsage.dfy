/** What a conversation has used: every logged attempt of its calls costs, and each
    call counts as one turn at most. */
module ConversationUsage {
  import opened Wrappers
  import opened Budget
  import opened Metering
  import opened MeteringProperties

  /** `turns` counts first attempts, `costUsd` every attempt. */
  datatype Usage = Usage(turns: nat, costUsd: real)

  predicate InConversation(row: UsageRow, user: string, c: string) {
    row.user == user && row.conversation == Some(c)
  }

  function ConversationCost(log: seq<UsageRow>, user: string, c: string): real {
    if log == [] then 0.0
    else
      var r := log[|log| - 1];
      ConversationCost(log[..|log| - 1], user, c) + if InConversation(r, user, c) then r.cost else 0.0
  }

  function ConversationUsage(log: seq<UsageRow>, user: string, c: string): Usage {
    Usage(Turns(log, user, c), ConversationCost(log, user, c))
  }

  /** Added up over calls instead of rows. */
  function SumCosts(log: seq<UsageRow>, calls: set<nat>): real
    decreases |calls|
  {
    if calls == {} then 0.0
    else
      var k := Least(calls);
      CallCost(log, k) + SumCosts(log, calls - {k})
  }

  function SumTurns(log: seq<UsageRow>, calls: set<nat>): nat
    decreases |calls|
  {
    if calls == {} then 0
    else
      var k := Least(calls);
      CallTurns(log, k) + SumTurns(log, calls - {k})
  }

  predicate IsLeast(k: nat, calls: set<nat>) {
    k in calls && forall x :: x in calls ==> k <= x
  }

  function Least(calls: set<nat>): (k: nat)
    requires calls != {}
    ensures IsLeast(k, calls)
  {
    HasLeast(calls);
    var k :| IsLeast(k, calls);
    k
  }

  lemma {:induction false} HasLeast(calls: set<nat>)
    requires calls != {}
    ensures exists k :: IsLeast(k, calls)
    decreases |calls|
  {
    var k :| k in calls;
    var rest := calls - {k};
    assert forall x :: x in calls ==> x == k || x in rest;
    if rest == {} {
      assert IsLeast(k, calls);
    } else {
      HasLeast(rest);
      var m :| IsLeast(m, rest);
      assert IsLeast(if m < k then m else k, calls);
    }
  }

  function CallsOf(s: State, user: string, c: string): set<nat> {
    set k | k in s.flights && Talks(s.flights[k].request, user, c)
  }

  lemma {:induction false} SumsOfNothing(calls: set<nat>)
    ensures SumCosts([], calls) == 0.0 && SumTurns([], calls) == 0
    decreases |calls|
  {
    if calls != {} {
      SumsOfNothing(calls - {Least(calls)});
    }
  }

  lemma {:induction false} SumsOfOneMore(log: seq<UsageRow>, row: UsageRow, calls: set<nat>)
    ensures SumCosts(log + [row], calls) == SumCosts(log, calls) + if row.call in calls then row.cost else 0.0
    ensures SumTurns(log + [row], calls) ==
            SumTurns(log, calls) + if row.call in calls && row.attempt == 1 then 1 else 0
    decreases |calls|
  {
    if calls != {} {
      OneMoreRow(log, row);
      SumsOfOneMore(log, row, calls - {Least(calls)});
    }
  }

  lemma {:induction false} UsageIsSummed(log: seq<UsageRow>, calls: set<nat>, user: string, c: string)
    requires forall i :: 0 <= i < |log| ==> (log[i].call in calls <==> InConversation(log[i], user, c))
    ensures ConversationUsage(log, user, c) == Usage(SumTurns(log, calls), SumCosts(log, calls))
  {
    if log == [] {
      SumsOfNothing(calls);
    } else {
      var init, last := log[..|log| - 1], log[|log| - 1];
      assert log == init + [last];
      UsageIsSummed(init, calls, user, c);
      SumsOfOneMore(init, last, calls);
    }
  }

  lemma {:induction false} AtMostOneTurnEach(w: Setting, start: nat, steps: seq<Step>, calls: set<nat>)
    ensures SumTurns(Exec(w, Initial(start), steps).log, calls) <= |calls|
    decreases |calls|
  {
    if calls != {} {
      OneTurnPerCall(w, Initial(start), steps, Least(calls));
      AtMostOneTurnEach(w, start, steps, calls - {Least(calls)});
    }
  }

  /** In every run a conversation's cost is the cost of all logged attempts of its
      calls, retries included, and its turns are at most its calls. */
  lemma ConversationIsItsCalls(w: Setting, start: nat, steps: seq<Step>, user: string, c: string)
    ensures
      var e := Exec(w, Initial(start), steps);
      var usage := ConversationUsage(e.log, user, c);
      usage.costUsd == SumCosts(e.log, CallsOf(e, user, c)) && usage.turns <= |CallsOf(e, user, c)|
  {
    var e := Exec(w, Initial(start), steps);
    SoundRun(w, Initial(start), steps);
    forall i | 0 <= i < |e.log|
      ensures e.log[i].call in CallsOf(e, user, c) <==> InConversation(e.log[i], user, c)
    {
      assert RowBelongs(e, e.log[i]);
    }
    UsageIsSummed(e.log, CallsOf(e, user, c), user, c);
    AtMostOneTurnEach(w, start, steps, CallsOf(e, user, c));
  }
}
