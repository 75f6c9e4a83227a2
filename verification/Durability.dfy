/** How long a committed row stays: until a transaction that wrote it commits, and
    whatever any transaction does that is rolled back. */
module Durability {
  import opened Wrappers
  import opened Schema
  import opened Tenancy
  import opened Transactions

  /** The step does not commit a change or a deletion of the row. */
  predicate Spares(s: State, step: Step, k: Key)
    requires Enabled(s, step)
  {
    step.Commit? && !ConnOf(s, step.conn).failed && k in s.db ==> k !in ConnOf(s, step.conn).overlay
  }

  predicate LeavesAlone(s: State, steps: seq<Step>, k: Key)
    requires Runs(s, steps)
    decreases |steps|
  {
    steps == [] || (Spares(s, steps[0], k) && LeavesAlone(Apply(s, steps[0]), steps[1..], k))
  }

  lemma RowStaysOneStep(s: State, step: Step, k: Key)
    requires Inv(s) && Enabled(s, step) && k in s.db && Spares(s, step, k)
    ensures k in Apply(s, step).db && Apply(s, step).db[k] == s.db[k]
  {
    assert AtHome(s.born, k, s.db[k]);
  }

  /** A committed row stays as it is in every run in which no transaction that
      wrote it commits, rolled back and failed transactions notwithstanding. */
  lemma {:induction false} CommittedRowStays(s: State, steps: seq<Step>, k: Key)
    requires Inv(s) && Runs(s, steps) && k in s.db && LeavesAlone(s, steps, k)
    ensures k in Exec(s, steps).db && Exec(s, steps).db[k] == s.db[k]
    decreases |steps|
  {
    if steps != [] {
      RowStaysOneStep(s, steps[0], k);
      StepKeepsInv(s, steps[0]);
      CommittedRowStays(Apply(s, steps[0]), steps[1..], k);
    }
  }

  /** Transactions on other connections than `d` spare the row. */
  predicate SparedBeside(s: State, steps: seq<Step>, k: Key, d: nat)
    requires Runs(s, steps)
    decreases |steps|
  {
    steps == []
    || ((steps[0] != Commit(d) ==> Spares(s, steps[0], k)) && SparedBeside(Apply(s, steps[0]), steps[1..], k, d))
  }

  lemma {:induction false} SparedIsLeftAlone(s: State, steps: seq<Step>, k: Key, d: nat)
    requires Runs(s, steps) && SparedBeside(s, steps, k, d) && CommitsOnly(steps, d, false)
    ensures LeavesAlone(s, steps, k)
    decreases |steps|
  {
    if steps != [] {
      SparedIsLeftAlone(Apply(s, steps[0]), steps[1..], k, d);
    }
  }

  /** The rollback of a caller takes no committed row back: whatever the transaction
      on connection `d` had read, changed or deleted, as the same user or another,
      if it does not commit (it throws, its commit fails, it is rolled back), the
      row is there as it was committed. */
  lemma RollbackTakesNothingBack(s: State, steps: seq<Step>, k: Key, d: nat)
    requires Inv(s) && Runs(s, steps) && k in s.db && SparedBeside(s, steps, k, d) && CommitsOnly(steps, d, false)
    ensures k in Exec(s, steps).db && Exec(s, steps).db[k] == s.db[k]
  {
    SparedIsLeftAlone(s, steps, k, d);
    CommittedRowStays(s, steps, k);
  }

  lemma {:induction false} LeavesAloneSplits(s: State, a: seq<Step>, b: seq<Step>, k: Key)
    requires Runs(s, a) && Runs(Exec(s, a), b) && Runs(s, a + b)
    ensures LeavesAlone(s, a + b, k) <==> LeavesAlone(s, a, k) && LeavesAlone(Exec(s, a), b, k)
    decreases |a|
  {
    if a == [] {
      assert a + b == b;
    } else {
      assert (a + b)[1..] == a[1..] + b;
      RunsAppend(Apply(s, a[0]), a[1..], b);
      LeavesAloneSplits(Apply(s, a[0]), a[1..], b, k);
    }
  }

  // ---- Rows a caller keeps account of ----

  /** After the steps each row is there under its key, unless another transaction
      that wrote it has committed. */
  predicate Booked(origin: State, history: seq<Step>, keys: seq<Key>, rows: seq<Row>)
    requires Runs(origin, history)
  {
    && |keys| == |rows|
    && forall i :: 0 <= i < |keys| && LeavesAlone(origin, history, keys[i]) ==>
         keys[i] in Exec(origin, history).db && Exec(origin, history).db[keys[i]] == rows[i]
  }

  /** A user's part with rows put under their keys, in order. */
  function WithRows(part: Db, keys: seq<Key>, rows: seq<Row>): Db
    requires |keys| == |rows|
  {
    if keys == [] then part
    else WithRows(part, keys[..|keys| - 1], rows[..|rows| - 1])[keys[|keys| - 1] := rows[|rows| - 1]]
  }

  lemma {:induction false} WithRowsKeeps(part: Db, keys: seq<Key>, rows: seq<Row>)
    requires |keys| == |rows|
    ensures part.Keys <= WithRows(part, keys, rows).Keys
  {
    if keys != [] {
      WithRowsKeeps(part, keys[..|keys| - 1], rows[..|rows| - 1]);
    }
  }

  lemma WithOneMore(part: Db, keys: seq<Key>, rows: seq<Row>, key: Key, row: Row)
    requires |keys| == |rows|
    ensures WithRows(part, keys + [key], rows + [row]) == WithRows(part, keys, rows)[key := row]
  {
    assert (keys + [key])[..|keys|] == keys && (rows + [row])[..|rows|] == rows;
  }

  lemma BookedLasts(origin: State, history: seq<Step>, more: seq<Step>, keys: seq<Key>, rows: seq<Row>)
    requires Inv(origin) && Runs(origin, history) && Runs(Exec(origin, history), more)
    requires Booked(origin, history, keys, rows)
    ensures Runs(origin, history + more) && Booked(origin, history + more, keys, rows)
  {
    RunsAppend(origin, history, more);
    RunInv(origin, history);
    forall i | 0 <= i < |keys| && LeavesAlone(origin, history + more, keys[i])
      ensures keys[i] in Exec(origin, history + more).db && Exec(origin, history + more).db[keys[i]] == rows[i]
    {
      LeavesAloneSplits(origin, history, more, keys[i]);
      CommittedRowStays(Exec(origin, history), more, keys[i]);
    }
  }

  /** Booked rows stay booked, and one that was just committed is booked with them. */
  lemma BookedAfter(origin: State, before: seq<Step>, after: seq<Step>, keys: seq<Key>, rows: seq<Row>, key: Key,
                    row: Row)
    requires Inv(origin) && Runs(origin, before) && Booked(origin, before, keys, rows)
    requires before <= after && Runs(Exec(origin, before), after[|before|..])
    ensures Runs(origin, after) && Booked(origin, after, keys, rows)
    ensures key in Exec(origin, after).db && Exec(origin, after).db[key] == row ==>
              Booked(origin, after, keys + [key], rows + [row])
  {
    assert after == before + after[|before|..];
    BookedLasts(origin, before, after[|before|..], keys, rows);
    if key in Exec(origin, after).db {
      BookedOneMore(origin, after, keys, rows, key);
    }
  }

  lemma BookedOneMore(origin: State, history: seq<Step>, keys: seq<Key>, rows: seq<Row>, key: Key)
    requires Runs(origin, history) && Booked(origin, history, keys, rows) && key in Exec(origin, history).db
    ensures Booked(origin, history, keys + [key], rows + [Exec(origin, history).db[key]])
  {
  }
}
