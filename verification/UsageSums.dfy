/** The usage rows of the database, summed as the guards sum them. */
module UsageSums {
  import opened Wrappers
  import opened Schema
  import opened Budget
  import UsageLog

  /** A usage row as committed: what the insert names, and when. */
  function StampedRow(r: UsageRow): Row {
    var row := UsageLog.DbRow(r);
    row.(columns := row.columns["created_at" := Number(r.month as real)])
  }

  lemma StampedColumns(r: UsageRow)
    ensures NumberIn(StampedRow(r), "created_at") == r.month as real
    ensures NumberIn(StampedRow(r), "cost_estimate") == r.cost
    ensures NumberIn(StampedRow(r), "attempt") == r.attempt as real
    ensures "conversation_id" in StampedRow(r).columns
    ensures StampedRow(r).columns["conversation_id"] ==
            if r.conversation == None then Null else Text(r.conversation.value)
    ensures StampedRow(r).owner == r.user
  {
  }

  // ---- Sums over rows ----

  ghost function Pick(rows: Db): (k: Key)
    requires rows != map[]
    ensures k in rows
  {
    var k :| k in rows;
    k
  }

  /** SELECT sum(weight) FROM rows */
  ghost function Total(rows: Db, weight: Row -> real): real
    decreases |rows|
  {
    if rows == map[] then 0.0
    else
      var k := Pick(rows);
      Smaller(rows, k);
      weight(rows[k]) + Total(rows - {k}, weight)
  }

  lemma Smaller(rows: Db, k: Key)
    requires k in rows
    ensures |rows - {k}| < |rows|
  {
    assert (rows - {k}).Keys == rows.Keys - {k};
    assert |(rows - {k}).Keys| == |rows - {k}| && |rows.Keys| == |rows|;
  }

  /** The sum is that of any row and the rest. */
  lemma {:induction false} TotalMinus(rows: Db, weight: Row -> real, k: Key)
    requires k in rows
    ensures Total(rows, weight) == weight(rows[k]) + Total(rows - {k}, weight)
    decreases |rows|
  {
    var x := Pick(rows);
    if x != k {
      Smaller(rows, x);
      Smaller(rows, k);
      TotalMinus(rows - {x}, weight, k);
      TotalMinus(rows - {k}, weight, x);
      assert rows - {x} - {k} == rows - {k} - {x};
    }
  }

  /** A selection sums up to what its rows weigh among all. */
  lemma {:induction false} TotalOfSelection(some: Db, weight: Row -> real, all: Db, weight': Row -> real)
    requires forall k :: k in some ==> k in all && all[k] == some[k] && weight'(all[k]) == weight(some[k])
    requires forall k :: k in all && k !in some ==> weight'(all[k]) == 0.0
    ensures Total(some, weight) == Total(all, weight')
    decreases |all|
  {
    if all != map[] {
      var k := Pick(all);
      Smaller(all, k);
      if k in some {
        TotalOfSelection(some - {k}, weight, all - {k}, weight');
        TotalMinus(some, weight, k);
      } else {
        assert some - {k} == some;
        TotalOfSelection(some, weight, all - {k}, weight');
      }
    } else {
      assert some == map[];
    }
  }

  // ---- The log and the rows ----

  function Usage(db: Db): Db {
    map k | k in db && k.table == LlmUsageLogs :: db[k]
  }

  /** The rows are those of the log, each under a key of its own. */
  ghost predicate Holds(rows: Db, log: seq<UsageRow>, keys: seq<Key>)
    decreases |log|
  {
    && |keys| == |log|
    && if log == [] then rows == map[]
       else
         var k, n := keys[|log| - 1], |log| - 1;
         k in rows && rows[k] == StampedRow(log[n]) && Holds(rows - {k}, log[..n], keys[..n])
  }

  lemma HoldsOneMore(rows: Db, log: seq<UsageRow>, keys: seq<Key>, k: Key, r: UsageRow)
    requires Holds(rows, log, keys) && k !in rows
    ensures Holds(rows[k := StampedRow(r)], log + [r], keys + [k])
  {
    var log', keys' := log + [r], keys + [k];
    assert log'[..|log|] == log && keys'[..|log|] == keys;
    assert rows[k := StampedRow(r)] - {k} == rows;
  }

  function RowsOfOthers(rows: Db, u: string): Db {
    map k | k in rows && rows[k].owner != u :: rows[k]
  }

  /** An erased user's rows leave the log and the database alike. */
  lemma {:induction false} HoldsOfOthers(rows: Db, log: seq<UsageRow>, keys: seq<Key>, u: string)
    returns (keys': seq<Key>)
    requires Holds(rows, log, keys)
    ensures Holds(RowsOfOthers(rows, u), Live(log, {u}), keys')
    decreases |log|
  {
    if log == [] {
      keys' := [];
      assert RowsOfOthers(rows, u) == map[];
    } else {
      var n := |log| - 1;
      var k := keys[n];
      keys' := HoldsOfOthers(rows - {k}, log[..n], keys[..n], u);
      assert rows[k].owner == log[n].user;
      if log[n].user == u {
        assert RowsOfOthers(rows, u) == RowsOfOthers(rows - {k}, u);
      } else {
        assert RowsOfOthers(rows, u) == RowsOfOthers(rows - {k}, u)[k := rows[k]];
        HoldsOneMore(RowsOfOthers(rows - {k}, u), Live(log[..n], {u}), keys', k, log[n]);
        keys' := keys' + [k];
      }
    }
  }

  ghost function SumOf(log: seq<UsageRow>, weight: Row -> real): real {
    if log == [] then 0.0
    else SumOf(log[..|log| - 1], weight) + weight(StampedRow(log[|log| - 1]))
  }

  lemma {:induction false} HoldsTotal(rows: Db, log: seq<UsageRow>, keys: seq<Key>, weight: Row -> real)
    requires Holds(rows, log, keys)
    ensures Total(rows, weight) == SumOf(log, weight)
    decreases |log|
  {
    if log != [] {
      var n := |log| - 1;
      TotalMinus(rows, weight, keys[n]);
      HoldsTotal(rows - {keys[n]}, log[..n], keys[..n], weight);
    }
  }

  // ---- What the guards and the bound sum ----

  /** cost_estimate where user_id = u and created_at >= the month */
  function SpentWeight(u: string, month: nat): Row -> real {
    (row: Row) =>
      if row.owner == u && NumberIn(row, "created_at") >= month as real then NumberIn(row, "cost_estimate") else 0.0
  }

  function MonthWeight(u: string, month: nat): Row -> real {
    (row: Row) =>
      if row.owner == u && NumberIn(row, "created_at") == month as real then NumberIn(row, "cost_estimate") else 0.0
  }

  predicate InConversation(row: Row, u: string, conversation: string) {
    row.owner == u && "conversation_id" in row.columns && row.columns["conversation_id"] == Text(conversation)
  }

  /** 1 for a first attempt of the conversation */
  function TurnWeight(u: string, conversation: string): Row -> real {
    (row: Row) => if InConversation(row, u, conversation) && NumberIn(row, "attempt") == 1.0 then 1.0 else 0.0
  }

  lemma {:induction false} SumOfSpent(log: seq<UsageRow>, u: string, month: nat)
    ensures SumOf(log, SpentWeight(u, month)) == SpentSince(log, u, month)
  {
    if log != [] {
      SumOfSpent(log[..|log| - 1], u, month);
      StampedColumns(log[|log| - 1]);
    }
  }

  lemma {:induction false} SumOfMonth(log: seq<UsageRow>, u: string, month: nat)
    ensures SumOf(log, MonthWeight(u, month)) == MonthSpend(log, u, month)
  {
    if log != [] {
      SumOfMonth(log[..|log| - 1], u, month);
      StampedColumns(log[|log| - 1]);
    }
  }

  lemma {:induction false} SumOfTurns(log: seq<UsageRow>, u: string, conversation: string)
    ensures SumOf(log, TurnWeight(u, conversation)) == Turns(log, u, conversation) as real
  {
    if log != [] {
      SumOfTurns(log[..|log| - 1], u, conversation);
      StampedColumns(log[|log| - 1]);
    }
  }
}
