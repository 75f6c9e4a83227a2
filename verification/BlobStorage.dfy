/** The blob container: keys that begin with their user, and deletion by prefix. */
module BlobStorage {
  import opened Wrappers
  import Regex

  type Bytes = seq<bv8>

  // ---- Keys ----

  function Lower(s: string): (r: string)
    ensures |r| == |s| && forall i :: 0 <= i < |s| ==> r[i] == Regex.ToLower(s[i])
  {
    if s == [] then [] else [Regex.ToLower(s[0])] + Lower(s[1..])
  }

  /** An extension as a key holds it: without one leading dot, in lower case. */
  function NormalExtension(extension: string): string {
    Lower(if extension != [] && extension[0] == '.' then extension[1..] else extension)
  }

  function KeyFor(userId: string, id: string, extension: string): string {
    var ext := NormalExtension(extension);
    userId + "/" + (id + if ext != [] then "." + ext else [])
  }

  function Prefix(userId: string): string {
    userId + "/"
  }

  lemma {:induction false} LowerTwice(s: string)
    ensures Lower(Lower(s)) == Lower(s)
  {
    if s != [] {
      assert Lower(s)[1..] == Lower(s[1..]);
      LowerTwice(s[1..]);
    }
  }

  lemma LowerOfTail(s: string)
    requires s != []
    ensures Lower(s)[1..] == Lower(s[1..]) && (Lower(s)[0] == '.' <==> s[0] == '.')
  {
  }

  /** Capitals in an extension make no difference, nor does a leading dot before an
      extension without one; and a key holds a dot exactly if its extension is
      something else than nothing or a lone dot. */
  lemma KeyForms(u: string, id: string, ext: string)
    ensures KeyFor(u, id, Lower(ext)) == KeyFor(u, id, ext)
    ensures ext == [] || ext[0] != '.' ==> KeyFor(u, id, "." + ext) == KeyFor(u, id, ext)
    ensures '.' !in u && '.' !in id ==> ('.' !in KeyFor(u, id, ext) <==> ext == "" || ext == ".")
  {
    LowerTwice(ext);
    if ext != [] {
      LowerOfTail(ext);
      LowerTwice(ext[1..]);
    }
    assert ("." + ext)[1..] == ext;
    if '.' !in u && '.' !in id {
      assert NormalExtension(ext) == [] <==> ext == "" || ext == ".";
      TailHasDot(id, NormalExtension(ext));
    }
  }

  /** Spelled out: a slash after the user, and before an extension a dot. */
  lemma KeySpelled(u: string, id: string, ext: string)
    requires Lower(ext) == ext && (ext != "" ==> ext[0] != '.')
    ensures KeyFor(u, id, ext) == if ext == "" then u + "/" + id else u + "/" + id + "." + ext
  {
    assert NormalExtension(ext) == ext;
    Spelled(u, "/", id, ".", ext);
  }

  lemma Spelled(u: string, a: string, id: string, b: string, ext: string)
    ensures u + a + (id + (b + ext)) == u + a + id + b + ext && u + a + (id + []) == u + a + id
  {
  }

  /** Two texts around the first `c` of each are the same only part by part. */
  lemma SplitAtFirst(a: string, b: string, x: string, y: string, c: char)
    requires c !in a && c !in b && a + [c] + x == b + [c] + y
    ensures a == b && x == y
  {
    var s := a + [c] + x;
    assert s[|a|] == c && s[|b|] == c;
    assert forall i :: 0 <= i < |a| ==> s[i] == a[i];
    assert forall i :: 0 <= i < |b| ==> s[i] == b[i];
    assert |a| == |b|;
    assert a == s[..|a|] && b == s[..|a|];
    assert x == s[|a| + 1..] && y == s[|a| + 1..];
  }

  lemma TailIsInjective(id: string, id': string, ext: string, ext': string)
    requires '.' !in id && '.' !in id'
    requires (id + if ext != [] then "." + ext else []) == (id' + if ext' != [] then "." + ext' else [])
    ensures id == id' && ext == ext'
  {
    TailHasDot(id, ext);
    TailHasDot(id', ext');
    if ext == [] {
      assert id + [] == id && id' + [] == id';
    } else {
      assert id + ("." + ext) == id + ['.'] + ext && id' + ("." + ext') == id' + ['.'] + ext';
      SplitAtFirst(id, id', ext, ext', '.');
    }
  }

  lemma TailHasDot(id: string, ext: string)
    requires '.' !in id
    ensures '.' in id + (if ext != [] then "." + ext else []) <==> ext != []
  {
    if ext != [] {
      assert (id + ("." + ext))[|id|] == '.';
    }
  }

  /** Keys collide only for the same user, the same id and extensions that differ
      at most in a leading dot and in case. */
  lemma KeysAreInjective(u: string, id: string, ext: string, u': string, id': string, ext': string)
    requires '/' !in u && '/' !in u' && '.' !in id && '.' !in id'
    ensures KeyFor(u, id, ext) == KeyFor(u', id', ext') <==>
            u == u' && id == id' && NormalExtension(ext) == NormalExtension(ext')
  {
    if KeyFor(u, id, ext) == KeyFor(u', id', ext') {
      var e, e' := NormalExtension(ext), NormalExtension(ext');
      var x := id + if e != [] then "." + e else [];
      var y := id' + if e' != [] then "." + e' else [];
      assert KeyFor(u, id, ext) == u + ['/'] + x && KeyFor(u', id', ext') == u' + ['/'] + y;
      SplitAtFirst(u, u', x, y, '/');
      TailIsInjective(id, id', e, e');
    }
  }

  /** A key lies under the prefix of its own user and of no other. */
  lemma PrefixIsOwn(u: string, id: string, ext: string, v: string)
    requires '/' !in u && '/' !in v
    ensures Prefix(v) <= KeyFor(u, id, ext) <==> u == v
  {
    var key := KeyFor(u, id, ext);
    var rest := key[|u| + 1..];
    assert key == u + ['/'] + rest;
    if Prefix(v) <= key {
      var rest' := key[|v| + 1..];
      assert key == v + ['/'] + rest';
      SplitAtFirst(u, v, rest, rest', '/');
    }
  }

  /** No key is the placeholder a row holds before its file is stored. */
  lemma KeyIsNotPending(u: string, id: string, ext: string)
    ensures KeyFor(u, id, ext) != "pending"
  {
    assert KeyFor(u, id, ext)[|u|] == '/';
  }

  // ---- The container ----

  type Blobs = map<string, Bytes>

  function Under(blobs: Blobs, prefix: string): set<string> {
    set k | k in blobs && prefix <= k
  }

  /** The container without what lies under a prefix. */
  function Cleared(blobs: Blobs, prefix: string): Blobs {
    blobs - Under(blobs, prefix)
  }

  /** A key some upload of a user could have made. */
  ghost predicate KeyOf(key: string, u: string) {
    exists id, ext :: key == KeyFor(u, id, ext)
  }

  /** Clearing a user's prefix takes exactly the user's blobs: in a container of
      uploaded files, those of every other user and only those remain. */
  lemma ClearingErasesExactlyOneUser(blobs: Blobs, u: string, owner: string -> string)
    requires '/' !in u && forall k :: k in blobs ==> '/' !in owner(k) && KeyOf(k, owner(k))
    ensures forall k :: k in blobs ==> (k in Under(blobs, Prefix(u)) <==> owner(k) == u)
    ensures forall k :: k in Cleared(blobs, Prefix(u)) <==> k in blobs && owner(k) != u
    ensures forall k :: k in Cleared(blobs, Prefix(u)) ==> Cleared(blobs, Prefix(u))[k] == blobs[k]
  {
    forall k | k in blobs ensures k in Under(blobs, Prefix(u)) <==> owner(k) == u {
      var id, ext :| k == KeyFor(owner(k), id, ext);
      PrefixIsOwn(owner(k), id, ext, u);
    }
  }

  /** What has been deleted so far and what is still to be. */
  predicate Underway(before: Blobs, all: set<string>, gone: set<string>, pending: set<string>, now: Blobs) {
    gone + pending == all && gone !! pending && now == before - gone
  }

  lemma AllPending(before: Blobs, all: set<string>)
    ensures Underway(before, all, {}, all, before)
  {
  }

  lemma WhatIsGone(before: Blobs, all: set<string>, gone: set<string>, pending: set<string>, now: Blobs)
    requires Underway(before, all, gone, pending, now)
    ensures gone <= all && now == before - gone && pending == all - gone && (pending == {} ==> gone == all)
  {
  }

  lemma OneMoreGone(before: Blobs, all: set<string>, gone: set<string>, pending: set<string>, now: Blobs, name: string)
    requires Underway(before, all, gone, pending, now) && name in pending
    ensures Underway(before, all, gone + {name}, pending - {name}, now - {name})
    ensures |gone + {name}| == |gone| + 1 && |pending - {name}| < |pending|
  {
  }

  /** Deletion failed after the given number, at which it is cut short. */
  lemma FailedAt(all: set<string>, gone: set<string>, fails: nat -> bool)
    requires gone <= all && fails(|gone|)
    ensures exists n :: 0 <= n <= |all| && fails(n)
  {
    assert all == gone + (all - gone);
  }

  /** So many blobs under the prefix are gone, and nothing else. */
  ghost predicate SomeGone(before: Blobs, prefix: string, count: nat, now: Blobs) {
    exists gone :: gone <= Under(before, prefix) && |gone| == count && now == before - gone
  }

  lemma TheseAreGone(before: Blobs, prefix: string, gone: set<string>, now: Blobs)
    requires gone <= Under(before, prefix) && now == before - gone
    ensures SomeGone(before, prefix, |gone|, now)
  {
  }

  /** The next blob goes too. */
  lemma OneMoreIsGone(before: Blobs, all: set<string>, gone: set<string>, name: string)
    requires gone <= all && name in all - gone
    ensures gone + {name} <= all && |gone + {name}| == |gone| + 1 && |gone| < |all|
    ensures (before - gone) - {name} == before - (gone + {name})
  {
    assert all == gone + (all - gone);
  }

  class BlobStore {
    var blobs: Blobs

    constructor ()
      ensures blobs == map[]
    {
      blobs := map[];
    }

    /** Stores the content under the key, replacing what was there. A request that
        fails may still have arrived. */
    method Upload(key: string, content: Bytes, fails: bool, arrives: bool) returns (ok: bool)
      modifies this
      ensures ok == !fails
      ensures blobs == if !fails || arrives then old(blobs)[key := content] else old(blobs)
    {
      if !fails || arrives {
        blobs := blobs[key := content];
      }
      return !fails;
    }

    method Download(key: string) returns (content: Option<Bytes>)
      ensures content == if key in blobs then Some(blobs[key]) else None
    {
      content := if key in blobs then Some(blobs[key]) else None;
    }

    /** Others' uploads and deletions, which leave what is under the prefix alone. */
    method OthersWrite(prefix: string, theirs: Blobs)
      modifies this
      ensures Under(blobs, prefix) == Under(old(blobs), prefix)
      ensures forall k :: k in Under(blobs, prefix) ==> blobs[k] == old(blobs)[k]
      ensures Cleared(blobs, prefix) == Cleared(theirs, prefix)
    {
      blobs := Cleared(theirs, prefix) + (map k | k in Under(blobs, prefix) :: blobs[k]);
    }

    /** Deletes the listed blobs one by one, in whatever order the listing has.
        Completed, everything under the prefix is gone, nothing else is, and the
        result is how many went; cut short after n deletions, exactly n blobs under
        the prefix are gone, and one more if the request that failed had arrived.
        `fails(n)` says that the listing or the deletion after n deletions fails. */
    method DeleteByPrefix(prefix: string, fails: nat -> bool, arrives: bool) returns (r: Result<nat, nat>)
      modifies this
      ensures r.Ok? ==> blobs == Cleared(old(blobs), prefix) && r.value == |Under(old(blobs), prefix)|
      ensures r.Err? ==>
                var more := arrives && r.error < |Under(old(blobs), prefix)|;
                SomeGone(old(blobs), prefix, r.error + (if more then 1 else 0), blobs)
      ensures r.Err? <==> exists n :: 0 <= n <= |Under(old(blobs), prefix)| && fails(n)
    {
      ghost var before, all := blobs, Under(blobs, prefix);
      var deleted, pending;
      ghost var gone;
      deleted, pending, gone := DeleteListed(prefix, fails);
      if fails(deleted) {
        FailedAt(all, gone, fails);
        if arrives && pending != {} {
          var name :| name in pending;
          OneMoreIsGone(before, all, gone, name);
          blobs := blobs - {name};
          gone := gone + {name};
        }
        TheseAreGone(before, prefix, gone, blobs);
        r := Err(deleted);
      } else {
        r := Ok(deleted);
      }
    }

    method DeleteListed(prefix: string, fails: nat -> bool)
      returns (deleted: nat, pending: set<string>, ghost gone: set<string>)
      modifies this
      ensures gone <= Under(old(blobs), prefix) && deleted == |gone| && blobs == old(blobs) - gone
      ensures pending == Under(old(blobs), prefix) - gone
      ensures forall n :: 0 <= n < deleted ==> !fails(n)
      ensures !fails(deleted) ==> gone == Under(old(blobs), prefix)
    {
      ghost var before, all := blobs, Under(blobs, prefix);
      pending := Under(blobs, prefix);
      deleted, gone := 0, {};
      AllPending(before, all);
      while pending != {} && !fails(deleted)
        invariant Underway(before, all, gone, pending, blobs) && deleted == |gone|
        invariant forall n :: 0 <= n < deleted ==> !fails(n)
        decreases |pending|
      {
        var name :| name in pending;
        OneMoreGone(before, all, gone, pending, blobs, name);
        blobs := blobs - {name};
        pending := pending - {name};
        gone := gone + {name};
        deleted := deleted + 1;
      }
      WhatIsGone(before, all, gone, pending, blobs);
    }
  }
}
