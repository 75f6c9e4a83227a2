/** The fragment of JavaScript regular expressions the repository uses, with the
    order in which a backtracking engine tries the ways to match. */
module Regex {

  predicate IsDigit(c: char) {
    '0' <= c <= '9'
  }

  /** `\w` without the `u` flag: ASCII only. */
  predicate IsWord(c: char) {
    'a' <= c <= 'z' || 'A' <= c <= 'Z' || IsDigit(c) || c == '_'
  }

  /** `\s`: the ECMAScript white space and line terminators. */
  predicate IsSpace(c: char) {
    var u := c as int;
    || 0x09 <= u <= 0x0D || u == 0x20 || u == 0xA0 || u == 0x1680
    || 0x2000 <= u <= 0x200A || u == 0x2028 || u == 0x2029
    || u == 0x202F || u == 0x205F || u == 0x3000 || u == 0xFEFF
  }

  function ToLower(c: char): char {
    if 'A' <= c <= 'Z' then ((c as int) + 32) as char else c
  }

  datatype CharClass =
    | Exactly(c: char)
    | AnyCase(c: char)        // a lower-case letter under the `i` flag
    | Digit
    | LocalPart               // [\w.+-]
    | DomainLabel             // [\w-]
    | DomainTail              // [\w.-]
    | PhoneBody               // [\d\s().-]
  {
    predicate Has(x: char) {
      match this
      case Exactly(c) => x == c
      case AnyCase(c) => ToLower(x) == c
      case Digit => IsDigit(x)
      case LocalPart => IsWord(x) || x == '.' || x == '+' || x == '-'
      case DomainLabel => IsWord(x) || x == '-'
      case DomainTail => IsWord(x) || x == '.' || x == '-'
      case PhoneBody => IsDigit(x) || IsSpace(x) || x == '(' || x == ')' || x == '.' || x == '-'
    }
  }

  datatype Regex =
    | One(cls: CharClass)
    | Opt(cls: CharClass)               // greedy `?`
    | Many(cls: CharClass, min: nat)    // greedy `{min,}`
    | Edge                              // `\b`
    | Then(first: Regex, next: Regex)
    | Either(left: Regex, right: Regex)

  /** Is position `i` of `t` a word boundary, when the character before `t` is a
      word character exactly if `w`? */
  predicate AtEdge(w: bool, t: string, i: nat)
    requires i <= |t|
  {
    (if i == 0 then w else IsWord(t[i - 1])) != (i < |t| && IsWord(t[i]))
  }

  /** hi, hi-1, ..., lo */
  function Descend(hi: int, lo: nat): (r: seq<nat>)
    ensures forall e :: e in r <==> lo <= e <= hi
    decreases hi
  {
    if hi < lo then [] else [hi] + Descend(hi - 1, lo)
  }

  /** End of the longest run of `cls` characters that starts at `i`. */
  function RunEnd(cls: CharClass, t: string, i: nat): (e: nat)
    requires i <= |t|
    ensures i <= e <= |t|
    ensures forall j :: i <= j < e ==> cls.Has(t[j])
    ensures e < |t| ==> !cls.Has(t[e])
    decreases |t| - i
  {
    if i < |t| && cls.Has(t[i]) then RunEnd(cls, t, i + 1) else i
  }

  /** Every end position of a match of `re` in `t` that starts at `i`, in the
      order backtracking reaches them; the engine reports the first. */
  function Ends(re: Regex, w: bool, t: string, i: nat): (r: seq<nat>)
    requires i <= |t|
    ensures forall e :: e in r ==> i <= e <= |t|
    decreases re, 0, |t|
  {
    match re
    case One(cls) => if i < |t| && cls.Has(t[i]) then [i + 1] else []
    case Opt(cls) => if i < |t| && cls.Has(t[i]) then [i + 1, i] else [i]
    case Many(cls, min) => Descend(RunEnd(cls, t, i), i + min)
    case Edge => if AtEdge(w, t, i) then [i] else []
    case Then(first, next) => Chain(next, w, t, i, Ends(first, w, t, i))
    case Either(left, right) => Ends(left, w, t, i) + Ends(right, w, t, i)
  }

  function Chain(re: Regex, w: bool, t: string, i: nat, starts: seq<nat>): (r: seq<nat>)
    requires forall m :: m in starts ==> i <= m <= |t|
    ensures forall e :: e in r ==> i <= e <= |t|
    decreases re, 1, |starts|
  {
    if starts == [] then []
    else
      assert starts[0] in starts && forall m :: m in starts[1..] ==> m in starts;
      Ends(re, w, t, starts[0]) + Chain(re, w, t, i, starts[1..])
  }

  /** A chain holds exactly the ends reached from some start. */
  lemma {:induction false} ChainMembers(re: Regex, w: bool, t: string, i: nat, starts: seq<nat>, e: nat)
    requires forall m :: m in starts ==> i <= m <= |t|
    ensures e in Chain(re, w, t, i, starts) <==> exists m :: m in starts && m <= |t| && e in Ends(re, w, t, m)
    decreases |starts|
  {
    if starts != [] {
      var head, rest := starts[0], starts[1..];
      assert head in starts && forall m :: m in rest ==> m in starts;
      ChainMembers(re, w, t, i, rest, e);
      assert Chain(re, w, t, i, starts) == Ends(re, w, t, head) + Chain(re, w, t, i, rest);
      if m :| m in starts && m <= |t| && e in Ends(re, w, t, m) {
        assert m == head || m in rest;
      }
    }
  }

  /** A leading single character either fails or hands over to the rest. */
  lemma OneThen(cls: CharClass, rest: Regex, w: bool, t: string, i: nat)
    requires i <= |t|
    ensures Ends(Then(One(cls), rest), w, t, i) == if i < |t| && cls.Has(t[i]) then Ends(rest, w, t, i + 1) else []
  {
    if i < |t| && cls.Has(t[i]) {
      assert Ends(One(cls), w, t, i) == [i + 1];
      assert Chain(rest, w, t, i, [i + 1]) == Ends(rest, w, t, i + 1) + Chain(rest, w, t, i, [i + 1][1..]);
    }
  }

  predicate HasEdge(re: Regex) {
    match re
    case Edge => true
    case Then(a, b) => HasEdge(a) || HasEdge(b)
    case Either(a, b) => HasEdge(a) || HasEdge(b)
    case _ => false
  }

  /** Can a match of `re` consume the character `c`? */
  predicate Mentions(re: Regex, c: char) {
    match re
    case One(cls) => cls.Has(c)
    case Opt(cls) => cls.Has(c)
    case Many(cls, _) => cls.Has(c)
    case Edge => false
    case Then(a, b) => Mentions(a, c) || Mentions(b, c)
    case Either(a, b) => Mentions(a, c) || Mentions(b, c)
  }

  /** Must every match of `re` consume a character of `cls`? */
  predicate Mandatory(re: Regex, cls: CharClass) {
    match re
    case One(c) => c == cls
    case Opt(_) => false
    case Many(c, min) => c == cls && min > 0
    case Edge => false
    case Then(a, b) => Mandatory(a, cls) || Mandatory(b, cls)
    case Either(a, b) => Mandatory(a, cls) && Mandatory(b, cls)
  }

  /** Does every match of `re` consume at least one character? */
  predicate Consumes(re: Regex) {
    match re
    case One(_) => true
    case Opt(_) => false
    case Many(_, min) => min > 0
    case Edge => false
    case Then(a, b) => Consumes(a) || Consumes(b)
    case Either(a, b) => Consumes(a) && Consumes(b)
  }

  lemma {:induction false} MatchConsumes(re: Regex, w: bool, t: string, i: nat, e: nat)
    requires i <= |t| && e in Ends(re, w, t, i) && Consumes(re)
    ensures i < e
    decreases re
  {
    match re
    case Then(a, b) =>
      ChainMembers(b, w, t, i, Ends(a, w, t, i), e);
      var m :| m in Ends(a, w, t, i) && m <= |t| && e in Ends(b, w, t, m);
      if Consumes(a) {
        MatchConsumes(a, w, t, i, m);
      } else {
        MatchConsumes(b, w, t, m, e);
      }
    case Either(a, b) =>
      if e in Ends(a, w, t, i) {
        MatchConsumes(a, w, t, i, e);
      } else {
        MatchConsumes(b, w, t, i, e);
      }
    case _ =>
  }

  /** A match consumes only characters its expression mentions. */
  lemma {:induction false} MatchMentions(re: Regex, w: bool, t: string, i: nat, e: nat)
    requires i <= |t| && e in Ends(re, w, t, i)
    ensures forall j :: i <= j < e ==> Mentions(re, t[j])
    decreases re
  {
    match re
    case Then(a, b) =>
      ChainMembers(b, w, t, i, Ends(a, w, t, i), e);
      var m :| m in Ends(a, w, t, i) && m <= |t| && e in Ends(b, w, t, m);
      MatchMentions(a, w, t, i, m);
      MatchMentions(b, w, t, m, e);
    case Either(a, b) =>
      if e in Ends(a, w, t, i) {
        MatchMentions(a, w, t, i, e);
      } else {
        MatchMentions(b, w, t, i, e);
      }
    case _ =>
  }

  /** A match contains every mandatory character class. */
  lemma {:induction false} MatchHasMandatory(re: Regex, cls: CharClass, w: bool, t: string, i: nat, e: nat)
    requires i <= |t| && e in Ends(re, w, t, i) && Mandatory(re, cls)
    ensures exists j :: i <= j < e && cls.Has(t[j])
    decreases re
  {
    match re
    case One(c) => assert cls.Has(t[i]);
    case Many(c, min) => assert cls.Has(t[i]);
    case Then(a, b) =>
      ChainMembers(b, w, t, i, Ends(a, w, t, i), e);
      var m :| m in Ends(a, w, t, i) && m <= |t| && e in Ends(b, w, t, m);
      if Mandatory(a, cls) {
        MatchHasMandatory(a, cls, w, t, i, m);
      } else {
        MatchHasMandatory(b, cls, w, t, m, e);
      }
    case Either(a, b) =>
      if e in Ends(a, w, t, i) {
        MatchHasMandatory(a, cls, w, t, i, e);
      } else {
        MatchHasMandatory(b, cls, w, t, i, e);
      }
  }

  /** A match depends only on the characters it consumes and, if the expression
      looks at boundaries, on the boundaries it spans. */
  lemma {:induction false} MatchIsLocal(re: Regex, w: bool, t: string, w': bool, t': string, i: nat, e: nat)
    requires i <= |t| && e in Ends(re, w, t, i)
    requires e <= |t'| && t[i..e] == t'[i..e]
    requires HasEdge(re) ==> forall j :: i <= j <= e ==> AtEdge(w, t, j) == AtEdge(w', t', j)
    ensures e in Ends(re, w', t', i)
    decreases re
  {
    assert forall j :: i <= j < e ==> t[j] == t[i..e][j - i] == t'[j];
    match re
    case Many(cls, min) => RunReaches(cls, t', i, e);
    case Then(a, b) =>
      ChainMembers(b, w, t, i, Ends(a, w, t, i), e);
      var m :| m in Ends(a, w, t, i) && m <= |t| && e in Ends(b, w, t, m);
      assert t[i..m] == t'[i..m] && t[m..e] == t'[m..e];
      MatchIsLocal(a, w, t, w', t', i, m);
      MatchIsLocal(b, w, t, w', t', m, e);
      ChainMembers(b, w', t', i, Ends(a, w', t', i), e);
    case Either(a, b) =>
      if e in Ends(a, w, t, i) {
        MatchIsLocal(a, w, t, w', t', i, e);
      } else {
        MatchIsLocal(b, w, t, w', t', i, e);
      }
    case _ =>
  }

  lemma RunReaches(cls: CharClass, t: string, i: nat, e: nat)
    requires i <= e <= |t| && forall j :: i <= j < e ==> cls.Has(t[j])
    ensures e <= RunEnd(cls, t, i)
  {
  }
}
