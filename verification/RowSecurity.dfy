/** Row-level security and statements inside one transaction. */
module RowSecurity {
  import opened Wrappers
  import opened Schema

  /** `app.current_user_id` of a connection: never set, left over as the empty
      string when a transaction that set it ended, or a user. */
  type Variable = Option<string>

  /** NULLIF(current_setting('app.current_user_id', true), ''): None is NULL. */
  function CurrentUser(v: Variable): Option<string> {
    if v == Some("") then None else v
  }

  /** The policy of every table, USING and WITH CHECK alike: the row's owner
      (`id` in users, `user_id` elsewhere) is the current user. */
  predicate Passes(v: Variable, row: Row) {
    CurrentUser(v) == Some(row.owner)
  }

  /** What the policies let a connection see of a database. */
  function Visible(v: Variable, db: Db): Db {
    map k | k in db && Passes(v, db[k]) :: db[k]
  }

  datatype Statement =
    | Query(filter: (Key, Row) -> bool)
    | Insert(key: Key, row: Row)
    | Update(filter: (Key, Row) -> bool, change: Row -> Columns)   // sets columns that are no key
    | Delete(filter: (Key, Row) -> bool)

  /** DELETE FROM users WHERE id = u: the cascade does the rest. */
  function DeleteUserRow(u: string): Statement {
    Delete((k: Key, row: Row) => k == Key(Users, u))
  }

  /** Uncommitted writes of a transaction: None is a deletion. */
  type Overlay = map<Key, Option<Row>>

  function Merge(db: Db, o: Overlay): Db {
    map k | k in db.Keys + o.Keys && (k in o ==> o[k].Some?) :: if k in o then o[k].value else db[k]
  }

  /** What a statement returns and writes; None if it fails. */
  datatype Effect = Effect(rows: Db, writes: Overlay)

  function Matching(v: Variable, view: Db, filter: (Key, Row) -> bool): Db {
    map k | k in Visible(v, view) && filter(k, view[k]) :: view[k]
  }

  /** One statement on the view of its transaction. Policies restrict what it
      reads, updates and deletes; foreign keys and their cascades see every row. */
  function Execute(v: Variable, view: Db, stmt: Statement): Option<Effect> {
    match stmt
    case Query(filter) => Some(Effect(Matching(v, view, filter), map[]))
    case Insert(key, row) =>
      if key in view || !Passes(v, row) || !(Refs(row) <= view.Keys) then None
      else Some(Effect(map[key := row], map[key := Some(row)]))
    case Update(filter, change) =>
      var hit := Matching(v, view, filter);
      Some(Effect(hit, map k | k in hit :: Some(hit[k].(columns := change(hit[k])))))
    case Delete(filter) =>
      var hit := Matching(v, view, filter);
      assert hit.Keys <= view.Keys;
      Some(Effect(hit, map k | k in Doomed(view, hit.Keys) :: None))
  }

  /** The part of a database that one user owns. */
  function Part(db: Db, u: string): Db {
    map k | k in db && db[k].owner == u :: db[k]
  }

  /** A connection whose variable is unset or left empty sees nothing and changes
      nothing. */
  lemma NoUserNoRows(v: Variable, view: Db, stmt: Statement)
    requires v == None || v == Some("")
    ensures Visible(v, view) == map[]
    ensures Execute(v, view, stmt).Some? ==> Execute(v, view, stmt).value == Effect(map[], map[])
  {
    if stmt.Delete? {
      DoomedIsLeastClosed(view, {}, {});
      assert Children(view, {}) == {};
    }
  }

  /** Looking a row up by id alone still finds only the user's own: another
      user's row and no row at all look the same. */
  lemma ByIdFindsOnlyOwn(u: string, view: Db, key: Key)
    requires u != ""
    ensures
      var found := Execute(Some(u), view, Query((k, _) => k == key)).value.rows;
      found == if key in view && view[key].owner == u then map[key := view[key]] else map[]
  {
  }
}
