/** `stripContacts`: deep removal of the contacts field from a JSON value. */
module StripContacts {
  import opened Wrappers

  /** A JSON value; an object keeps its own keys in order. */
  datatype Json =
    | Null
    | Bool(b: bool)
    | Number(n: real)
    | Str(s: string)
    | Arr(items: seq<Json>)
    | Obj(entries: seq<Entry>)

  datatype Entry = Entry(key: string, value: Json)

  const CONTACTS_FIELD := "contacts"

  function Keys(entries: seq<Entry>): (r: seq<string>)
    ensures |r| == |entries| && forall i :: 0 <= i < |r| ==> r[i] == entries[i].key
  {
    if entries == [] then [] else [entries[0].key] + Keys(entries[1..])
  }

  predicate Distinct(s: seq<string>) {
    forall i, j :: 0 <= i < j < |s| ==> s[i] != s[j]
  }

  /** Every object has each of its keys once. */
  predicate Ordinary(j: Json) {
    match j
    case Arr(items) => forall i :: 0 <= i < |items| ==> Ordinary(items[i])
    case Obj(entries) => Distinct(Keys(entries)) && forall i :: 0 <= i < |entries| ==> Ordinary(entries[i].value)
    case _ => true
  }

  /** No key of any object, at any depth, is the contacts field. */
  predicate ContactFree(j: Json) {
    match j
    case Arr(items) => forall i :: 0 <= i < |items| ==> ContactFree(items[i])
    case Obj(entries) => forall i :: 0 <= i < |entries| ==>
        entries[i].key != CONTACTS_FIELD && ContactFree(entries[i].value)
    case _ => true
  }

  function Strip(j: Json): Json {
    match j
    case Arr(items) => Arr(StripItems(items))
    case Obj(entries) => Obj(StripEntries(entries))
    case _ => j
  }

  function StripItems(items: seq<Json>): (r: seq<Json>)
    ensures |r| == |items|
  {
    if items == [] then [] else [Strip(items[0])] + StripItems(items[1..])
  }

  function StripEntries(entries: seq<Entry>): seq<Entry> {
    if entries == [] then []
    else if entries[0].key == CONTACTS_FIELD then StripEntries(entries[1..])
    else [Entry(entries[0].key, Strip(entries[0].value))] + StripEntries(entries[1..])
  }

  /** `out[key] = value` on an ordinary object. */
  function Put(out: seq<Entry>, key: string, value: Json): seq<Entry> {
    if out == [] then [Entry(key, value)]
    else if out[0].key == key then [Entry(key, value)] + out[1..]
    else [out[0]] + Put(out[1..], key, value)
  }

  lemma {:induction false} PutNewKey(out: seq<Entry>, key: string, value: Json)
    requires forall i :: 0 <= i < |out| ==> out[i].key != key
    ensures Put(out, key, value) == out + [Entry(key, value)]
  {
    if out != [] {
      PutNewKey(out[1..], key, value);
    }
  }

  lemma {:induction false} StripItemsSnoc(items: seq<Json>, last: Json)
    ensures StripItems(items + [last]) == StripItems(items) + [Strip(last)]
  {
    if items == [] {
      assert [last][1..] == [];
    } else {
      assert (items + [last])[1..] == items[1..] + [last];
      StripItemsSnoc(items[1..], last);
    }
  }

  lemma {:induction false} StripEntriesSnoc(entries: seq<Entry>, last: Entry)
    ensures StripEntries(entries + [last]) ==
            StripEntries(entries) + if last.key == CONTACTS_FIELD then [] else [Entry(last.key, Strip(last.value))]
  {
    if entries == [] {
      assert [last][1..] == [];
    } else {
      assert (entries + [last])[1..] == entries[1..] + [last];
      StripEntriesSnoc(entries[1..], last);
    }
  }

  lemma {:induction false} StripAddsNoKey(entries: seq<Entry>, key: string)
    requires forall i :: 0 <= i < |entries| ==> entries[i].key != key
    ensures forall i :: 0 <= i < |StripEntries(entries)| ==> StripEntries(entries)[i].key != key
  {
    if entries != [] {
      StripAddsNoKey(entries[1..], key);
    }
  }

  /** The recursive copy: array elements in order, object entries assigned one by
      one to a fresh object. */
  method StripValue(value: Json) returns (r: Json)
    requires Ordinary(value)
    ensures r == Strip(value)
    decreases value
  {
    match value
    case Arr(items) =>
      var out := [];
      for i := 0 to |items|
        invariant out == StripItems(items[..i])
      {
        var item := StripValue(items[i]);
        out := out + [item];
        StripItemsSnoc(items[..i], items[i]);
        assert items[..i + 1] == items[..i] + [items[i]];
      }
      assert items[..|items|] == items;
      r := Arr(out);
    case Obj(entries) =>
      var out := [];
      for i := 0 to |entries|
        invariant out == StripEntries(entries[..i])
      {
        var Entry(key, val) := entries[i];
        StripEntriesSnoc(entries[..i], entries[i]);
        assert entries[..i + 1] == entries[..i] + [entries[i]];
        if key == CONTACTS_FIELD {
          continue;
        }
        var stripped := StripValue(val);
        assert forall k :: 0 <= k < i ==> Keys(entries)[k] != Keys(entries)[i];
        StripAddsNoKey(entries[..i], key);
        PutNewKey(out, key, stripped);
        out := Put(out, key, stripped);
      }
      assert entries[..|entries|] == entries;
      r := Obj(out);
    case _ =>
      r := value;
  }

  /** Nothing below the result carries the contacts field. */
  lemma {:induction false} StripLeavesNoContacts(j: Json)
    ensures ContactFree(Strip(j))
    decreases j
  {
    match j
    case Arr(items) =>
      forall i | 0 <= i < |items| ensures StripItems(items)[i] == Strip(items[i]) && ContactFree(Strip(items[i])) {
        StripItemsAt(items, i);
        StripLeavesNoContacts(items[i]);
      }
    case Obj(entries) => StripEntriesLeaveNoContacts(entries);
    case _ =>
  }

  lemma {:induction false} StripEntriesLeaveNoContacts(entries: seq<Entry>)
    ensures ContactFree(Obj(StripEntries(entries)))
    decreases entries
  {
    if entries != [] {
      StripEntriesLeaveNoContacts(entries[1..]);
      StripLeavesNoContacts(entries[0].value);
    }
  }

  lemma {:induction false} StripItemsAt(items: seq<Json>, i: nat)
    requires i < |items|
    ensures StripItems(items)[i] == Strip(items[i])
  {
    if i > 0 {
      StripItemsAt(items[1..], i - 1);
    }
  }

  /** A value without the field comes back unchanged; hence stripping twice is stripping once. */
  lemma {:induction false} StripOfContactFree(j: Json)
    requires ContactFree(j)
    ensures Strip(j) == j
    decreases j
  {
    match j
    case Arr(items) =>
      forall i | 0 <= i < |items| ensures StripItems(items)[i] == items[i] {
        StripItemsAt(items, i);
        StripOfContactFree(items[i]);
      }
      assert StripItems(items) == items;
    case Obj(entries) => StripEntriesOfContactFree(entries);
    case _ =>
  }

  lemma {:induction false} StripEntriesOfContactFree(entries: seq<Entry>)
    requires forall i :: 0 <= i < |entries| ==> entries[i].key != CONTACTS_FIELD && ContactFree(entries[i].value)
    ensures StripEntries(entries) == entries
    decreases entries
  {
    if entries != [] {
      StripOfContactFree(entries[0].value);
      StripEntriesOfContactFree(entries[1..]);
    }
  }

  lemma StripIsIdempotent(j: Json)
    ensures Strip(Strip(j)) == Strip(j)
  {
    StripLeavesNoContacts(j);
    StripOfContactFree(Strip(j));
  }

  // ---- What a reader of the value sees ----

  datatype Step = Key(key: string) | Index(i: nat)

  function Find(entries: seq<Entry>, key: string): Option<Json> {
    if entries == [] then None
    else if entries[0].key == key then Some(entries[0].value)
    else Find(entries[1..], key)
  }

  function Child(j: Json, step: Step): Option<Json> {
    match (j, step)
    case (Obj(entries), Key(key)) => Find(entries, key)
    case (Arr(items), Index(i)) => if i < |items| then Some(items[i]) else None
    case _ => None
  }

  function Lookup(j: Json, path: seq<Step>): Option<Json>
    decreases |path|
  {
    if path == [] then Some(j)
    else match Child(j, path[0])
      case None => None
      case Some(child) => Lookup(child, path[1..])
  }

  lemma {:induction false} FindStripped(entries: seq<Entry>, key: string)
    ensures Find(StripEntries(entries), key) ==
            if key == CONTACTS_FIELD then None
            else match Find(entries, key) case None => None case Some(v) => Some(Strip(v))
  {
    if entries != [] {
      FindStripped(entries[1..], key);
    }
  }

  /** A path through the contacts field leads nowhere; along any other path the
      result holds the stripped original, present exactly when that was. */
  lemma {:induction false} LookupInStripped(j: Json, path: seq<Step>)
    ensures Lookup(Strip(j), path) ==
            if Key(CONTACTS_FIELD) in path then None
            else match Lookup(j, path) case None => None case Some(v) => Some(Strip(v))
    decreases |path|
  {
    if path != [] {
      var step := path[0];
      match (j, step)
      case (Obj(entries), Key(key)) =>
        FindStripped(entries, key);
        if Child(j, step).Some? { LookupInStripped(Child(j, step).value, path[1..]); }
      case (Arr(items), Index(i)) =>
        if i < |items| {
          StripItemsAt(items, i);
          LookupInStripped(items[i], path[1..]);
        }
      case _ =>
    }
  }

  function Without(keys: seq<string>, key: string): seq<string> {
    if keys == [] then []
    else (if keys[0] == key then [] else [keys[0]]) + Without(keys[1..], key)
  }

  /** The remaining keys keep their order. */
  lemma {:induction false} StripKeepsKeyOrder(entries: seq<Entry>)
    ensures Keys(StripEntries(entries)) == Without(Keys(entries), CONTACTS_FIELD)
  {
    if entries != [] {
      StripKeepsKeyOrder(entries[1..]);
      assert Keys(entries)[1..] == Keys(entries[1..]);
      if entries[0].key != CONTACTS_FIELD {
        var first := Entry(entries[0].key, Strip(entries[0].value));
        assert ([first] + StripEntries(entries[1..]))[1..] == StripEntries(entries[1..]);
      }
    }
  }
}
