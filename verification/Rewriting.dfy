/** Leftmost-match replacement (`String.replace` with a global expression), and
    when its result is certain to hold no further match. */
module Rewriting {
  import opened Regex

  datatype Rule = Rule(re: Regex, replace: string -> string)

  /** Is the character before position `n` a word character? */
  predicate WordBefore(w: bool, t: string, n: nat)
    requires n <= |t|
  {
    if n == 0 then w else IsWord(t[n - 1])
  }

  /** Length of the match the engine reports at the front of `t`, 0 for none. */
  function MatchLength(re: Regex, w: bool, t: string): (n: nat)
    ensures n <= |t|
  {
    var ends := Ends(re, w, t, 0);
    if ends == [] then 0 else assert ends[0] in ends; ends[0]
  }

  function Rewrite(rule: Rule, w: bool, t: string): string
    decreases |t|
  {
    var n := MatchLength(rule.re, w, t);
    if t == "" then ""
    else if n == 0 then [t[0]] + Rewrite(rule, IsWord(t[0]), t[1..])
    else rule.replace(t[..n]) + Rewrite(rule, WordBefore(w, t, n), t[n..])
  }

  /** No match starts anywhere in `t`. */
  predicate Clean(re: Regex, w: bool, t: string)
    decreases |t|
  {
    t == "" || (MatchLength(re, w, t) == 0 && Clean(re, IsWord(t[0]), t[1..]))
  }

  /** The stretches of `t` that a rewriting leaves alone, one more than matches. */
  function Gaps(re: Regex, w: bool, t: string): (r: seq<string>)
    ensures |r| > 0
    decreases |t|
  {
    var n := MatchLength(re, w, t);
    if t == "" then [""]
    else if n == 0 then
      var r := Gaps(re, IsWord(t[0]), t[1..]);
      [[t[0]] + r[0]] + r[1..]
    else [""] + Gaps(re, WordBefore(w, t, n), t[n..])
  }

  function Matches(re: Regex, w: bool, t: string): seq<string>
    decreases |t|
  {
    var n := MatchLength(re, w, t);
    if t == "" then []
    else if n == 0 then Matches(re, IsWord(t[0]), t[1..])
    else [t[..n]] + Matches(re, WordBefore(w, t, n), t[n..])
  }

  /** g0 + m0 + g1 + m1 + ... + gn */
  function Weave(gaps: seq<string>, between: seq<string>): string
    requires |gaps| == |between| + 1
  {
    if between == [] then gaps[0] else gaps[0] + between[0] + Weave(gaps[1..], between[1..])
  }

  function Map(f: string -> string, s: seq<string>): (r: seq<string>)
    ensures |r| == |s|
  {
    if s == [] then [] else [f(s[0])] + Map(f, s[1..])
  }

  /** Rewriting replaces the matches, one by one and in place, and nothing else. */
  ghost predicate ReplacesMatches(rule: Rule, w: bool, t: string) {
    var gaps, ms := Gaps(rule.re, w, t), Matches(rule.re, w, t);
    && |gaps| == |ms| + 1
    && t == Weave(gaps, ms)
    && Rewrite(rule, w, t) == Weave(gaps, Map(rule.replace, ms))
  }

  lemma {:induction false} RewriteReplacesMatches(rule: Rule, w: bool, t: string)
    ensures ReplacesMatches(rule, w, t)
    decreases |t|
  {
    var n := MatchLength(rule.re, w, t);
    if t == "" {
    } else if n == 0 {
      RewriteReplacesMatches(rule, IsWord(t[0]), t[1..]);
      CharacterIsKept(rule, w, t);
    } else {
      MatchIsReplaced(rule, w, t);
    }
  }

  lemma CharacterIsKept(rule: Rule, w: bool, t: string)
    requires t != "" && MatchLength(rule.re, w, t) == 0 && ReplacesMatches(rule, IsWord(t[0]), t[1..])
    ensures ReplacesMatches(rule, w, t)
  {
    var gaps, ms := Gaps(rule.re, IsWord(t[0]), t[1..]), Matches(rule.re, IsWord(t[0]), t[1..]);
    WeaveIntoGap([t[0]], gaps, ms);
    WeaveIntoGap([t[0]], gaps, Map(rule.replace, ms));
    Whole(t, 1);
  }

  lemma {:induction false} MatchIsReplaced(rule: Rule, w: bool, t: string)
    requires t != "" && MatchLength(rule.re, w, t) > 0
    ensures ReplacesMatches(rule, w, t)
    decreases |t|, 0
  {
    var n := MatchLength(rule.re, w, t);
    var v, m, u := WordBefore(w, t, n), t[..n], t[n..];
    var gaps, ms := Gaps(rule.re, v, u), Matches(rule.re, v, u);
    RewriteReplacesMatches(rule, v, u);
    WeaveMatch(m, gaps, ms);
    WeaveMatch(rule.replace(m), gaps, Map(rule.replace, ms));
    MapFirst(rule.replace, m, ms);
    Whole(t, n);
  }

  lemma Whole(t: string, n: nat)
    requires n <= |t|
    ensures t[..n] + t[n..] == t
  {
  }

  lemma WeaveIntoGap(c: string, gaps: seq<string>, between: seq<string>)
    requires |gaps| == |between| + 1
    ensures Weave([c + gaps[0]] + gaps[1..], between) == c + Weave(gaps, between)
  {
    if between != [] {
      assert ([c + gaps[0]] + gaps[1..])[1..] == gaps[1..];
    }
  }

  lemma WeaveMatch(m: string, gaps: seq<string>, between: seq<string>)
    requires |gaps| == |between| + 1
    ensures Weave([""] + gaps, [m] + between) == m + Weave(gaps, between)
  {
    var g, b := [""] + gaps, [m] + between;
    assert g[0] == "" && b[0] == m && g[1..] == gaps && b[1..] == between;
    assert g[0] + b[0] == m;
  }

  lemma MapFirst(f: string -> string, m: string, s: seq<string>)
    ensures Map(f, [m] + s) == [f(m)] + Map(f, s)
  {
    assert ([m] + s)[1..] == s;
  }

  /** Whatever holds of every text the engine reports holds of the matches. */
  lemma {:induction false} MatchesAre(re: Regex, form: string -> bool, w: bool, t: string)
    requires forall v: bool, u: string | MatchLength(re, v, u) > 0 :: form(u[..MatchLength(re, v, u)])
    ensures forall m :: m in Matches(re, w, t) ==> form(m)
    decreases |t|
  {
    var n := MatchLength(re, w, t);
    if t == "" {
    } else if n == 0 {
      MatchesAre(re, form, IsWord(t[0]), t[1..]);
    } else {
      MatchesAre(re, form, WordBefore(w, t, n), t[n..]);
    }
  }

  /** Clean text is left alone. */
  lemma {:induction false} CleanIsUnchanged(rule: Rule, w: bool, t: string)
    requires Clean(rule.re, w, t)
    ensures Rewrite(rule, w, t) == t
    decreases |t|
  {
    if t != "" {
      CleanIsUnchanged(rule, IsWord(t[0]), t[1..]);
    }
  }

  // ---- When the result is clean ----

  /** No match of `re` starts inside `x`, whatever surrounds it. */
  ghost predicate Inert(re: Regex, barrier: char, x: string) {
    && x != "" && x[0] == barrier
    && forall k: nat, w: bool, rest: string | k < |x| :: MatchLength(re, w, x[k..] + rest) == 0
  }

  /** Whether a match starts at the front of `t` does not depend on what precedes `t`. */
  predicate ContextFree(re: Regex, t: string) {
    MatchLength(re, true, t) > 0 <==> MatchLength(re, false, t) > 0
  }

  /** The conditions under which one rewriting pass leaves no match. */
  ghost predicate Settling(rule: Rule, barrier: char) {
    && Consumes(rule.re) && !Mentions(rule.re, barrier) && !IsWord(barrier)
    // a match that begins right where another ends does not begin with a word character
    && (HasEdge(rule.re) ==>
          forall w: bool, t: string, e: nat, u: string |
            e in Ends(rule.re, w, t, 0) && 0 < e <= |t| && MatchLength(rule.re, IsWord(t[e - 1]), u) > 0 && u != "" ::
            !IsWord(u[0]))
    && (forall w: bool, t: string | MatchLength(rule.re, w, t) > 0 ::
        ContextFree(rule.re, t[MatchLength(rule.re, w, t)..]))
    && (forall m: string :: Inert(rule.re, barrier, rule.replace(m)))
  }

  lemma MatchFound(re: Regex, w: bool, t: string, e: nat)
    requires Consumes(re) && e in Ends(re, w, t, 0)
    ensures 0 < e && 0 < MatchLength(re, w, t)
  {
    MatchConsumes(re, w, t, 0, e);
    assert Ends(re, w, t, 0)[0] in Ends(re, w, t, 0);
    MatchConsumes(re, w, t, 0, Ends(re, w, t, 0)[0]);
  }

  /** What can stand at position `e` of the output and of the input, once they
      agree before it: the same character, the end of both, or a replacement. */
  predicate Parting(rule: Rule, barrier: char, w: bool, t: string, out: string, e: nat) {
    && e <= |t| && e <= |out|
    && (|| (e == |out| == |t|)
        || (e < |out| && e < |t| && out[e] == t[e])
        || (e < |out| && e < |t| && out[e] == barrier && MatchLength(rule.re, WordBefore(w, t, e), t[e..]) > 0))
  }

  /** Up to the first barrier, output and input are the same. */
  lemma {:induction false} CommonPrefix(rule: Rule, barrier: char, w: bool, t: string, e: nat)
    requires forall m: string :: Inert(rule.re, barrier, rule.replace(m))
    requires e <= |Rewrite(rule, w, t)| && forall j :: 0 <= j < e ==> Rewrite(rule, w, t)[j] != barrier
    ensures e <= |t| && Rewrite(rule, w, t)[..e] == t[..e]
    ensures Parting(rule, barrier, w, t, Rewrite(rule, w, t), e)
    decreases |t|
  {
    if t == "" {
    } else if MatchLength(rule.re, w, t) > 0 {
      MatchMarks(rule, barrier, w, t);
      assert e == 0 && t[0..] == t;
    } else if e > 0 {
      var rest := Rewrite(rule, IsWord(t[0]), t[1..]);
      GapIsKept(rule, w, t);
      assert forall j :: 0 <= j < e - 1 ==> rest[j] == ([t[0]] + rest)[j + 1];
      CommonPrefix(rule, barrier, IsWord(t[0]), t[1..], e - 1);
      PartingShifts(rule, barrier, w, t, rest, e - 1);
    } else {
      GapIsKept(rule, w, t);
    }
  }

  /** A replaced match begins with the barrier. */
  lemma MatchMarks(rule: Rule, barrier: char, w: bool, t: string)
    requires MatchLength(rule.re, w, t) > 0 && t != ""
    requires forall m: string :: Inert(rule.re, barrier, rule.replace(m))
    ensures Rewrite(rule, w, t) != "" && Rewrite(rule, w, t)[0] == barrier
  {
    assert Inert(rule.re, barrier, rule.replace(t[..MatchLength(rule.re, w, t)]));
  }

  lemma GapIsKept(rule: Rule, w: bool, t: string)
    requires t != "" && MatchLength(rule.re, w, t) == 0
    ensures Rewrite(rule, w, t) == [t[0]] + Rewrite(rule, IsWord(t[0]), t[1..])
  {
  }

  lemma PartingShifts(rule: Rule, barrier: char, w: bool, t: string, rest: string, e: nat)
    requires t != "" && Parting(rule, barrier, IsWord(t[0]), t[1..], rest, e) && rest[..e] == t[1..][..e]
    ensures ([t[0]] + rest)[..e + 1] == t[..e + 1]
    ensures Parting(rule, barrier, w, t, [t[0]] + rest, e + 1)
  {
    assert t[1..][e..] == t[e + 1..];
    assert ([t[0]] + rest)[..e + 1] == [t[0]] + rest[..e] && t[..e + 1] == [t[0]] + t[1..][..e];
    assert WordBefore(w, t, e + 1) == WordBefore(IsWord(t[0]), t[1..], e);
  }

  /** Boundaries of two texts agree up to the end of a common prefix if what
      follows it is a word character in both or in neither. */
  lemma SameEdges(w: bool, t: string, u: string, e: nat)
    requires e <= |t| && e <= |u| && t[..e] == u[..e]
    requires (e < |t| && IsWord(t[e])) == (e < |u| && IsWord(u[e]))
    ensures forall j :: 0 <= j <= e ==> AtEdge(w, t, j) == AtEdge(w, u, j)
  {
    assert forall k :: 0 <= k < e ==> t[k] == t[..e][k] == u[..e][k] == u[k];
  }

  /** Where the input starts no match and the character stays, the output starts none. */
  lemma FrontStaysClosed(rule: Rule, barrier: char, w: bool, w': bool, t: string)
    requires Settling(rule, barrier)
    requires t != "" && MatchLength(rule.re, w, t) == 0 && (w == w' || ContextFree(rule.re, t))
    ensures MatchLength(rule.re, w', Rewrite(rule, w, t)) == 0
  {
    var out := Rewrite(rule, w, t);
    var ends := Ends(rule.re, w', out, 0);
    if ends != [] {
      var e := ends[0];
      assert e in ends;
      OutputMatchIsInputMatch(rule, barrier, w, w', t, e);
      MatchFound(rule.re, w', t, e);
    }
  }

  /** A match at the front of the output was already a match of the input. */
  lemma OutputMatchIsInputMatch(rule: Rule, barrier: char, w: bool, w': bool, t: string, e: nat)
    requires Settling(rule, barrier) && e in Ends(rule.re, w', Rewrite(rule, w, t), 0)
    ensures e <= |t| && e in Ends(rule.re, w', t, 0)
  {
    var out := Rewrite(rule, w, t);
    MatchMentions(rule.re, w', out, 0, e);
    MatchConsumes(rule.re, w', out, 0, e);
    CommonPrefix(rule, barrier, w, t, e);
    if HasEdge(rule.re) {
      if e < |out| && out[e] != t[e] {
        assert out[e - 1] == out[..e][e - 1] == t[..e][e - 1] == t[e - 1];
        assert t[e..] != "" && t[e..][0] == t[e];
      }
      SameEdges(w', out, t, e);
    }
    assert out[0..e] == out[..e] && t[0..e] == t[..e];
    MatchIsLocal(rule.re, w', out, w', t, 0, e);
  }

  /** Inert text in front of clean text is clean. */
  lemma {:induction false} InertThenClean(re: Regex, barrier: char, w: bool, x: string, k: nat, rest: string)
    requires Inert(re, barrier, x) && k < |x| && Clean(re, IsWord(x[|x| - 1]), rest)
    ensures Clean(re, w, x[k..] + rest)
    decreases |x| - k
  {
    assert MatchLength(re, w, x[k..] + rest) == 0;
    assert (x[k..] + rest)[0] == x[k] && (x[k..] + rest)[1..] == x[k + 1..] + rest;
    if k + 1 < |x| {
      InertThenClean(re, barrier, IsWord(x[k]), x, k + 1, rest);
    } else {
      assert x[k + 1..] + rest == rest;
    }
  }

  /** One pass of a settling rule leaves no match. */
  lemma {:induction false} RewriteSettles(rule: Rule, barrier: char, w: bool, w': bool, t: string)
    requires Settling(rule, barrier) && (w == w' || ContextFree(rule.re, t))
    ensures Clean(rule.re, w', Rewrite(rule, w, t))
    decreases |t|
  {
    var n := MatchLength(rule.re, w, t);
    if t == "" {
    } else if n == 0 {
      RewriteSettles(rule, barrier, IsWord(t[0]), IsWord(t[0]), t[1..]);
      FrontStaysClosed(rule, barrier, w, w', t);
      assert Rewrite(rule, w, t)[1..] == Rewrite(rule, IsWord(t[0]), t[1..]);
    } else {
      var x := rule.replace(t[..n]);
      assert Inert(rule.re, barrier, x);
      RewriteSettles(rule, barrier, WordBefore(w, t, n), IsWord(x[|x| - 1]), t[n..]);
      InertThenClean(rule.re, barrier, w', x, 0, Rewrite(rule, WordBefore(w, t, n), t[n..]));
      assert x[0..] == x;
    }
  }

  /** Cleanness speaks about every position of the text. */
  lemma {:induction false} CleanEverywhere(re: Regex, w: bool, t: string, i: nat)
    requires Clean(re, w, t) && i < |t|
    ensures MatchLength(re, WordBefore(w, t, i), t[i..]) == 0
    decreases i
  {
    if i == 0 {
      assert t[0..] == t;
    } else {
      CleanEverywhere(re, IsWord(t[0]), t[1..], i - 1);
      assert t[1..][i - 1..] == t[i..];
    }
  }

  lemma CleanExcludes(re: Regex, t: string, i: nat, n: nat)
    requires Clean(re, false, t) && i < |t| && Consumes(re)
    ensures n !in Ends(re, WordBefore(false, t, i), t[i..], 0)
  {
    CleanEverywhere(re, false, t, i);
    if n in Ends(re, WordBefore(false, t, i), t[i..], 0) {
      MatchFound(re, WordBefore(false, t, i), t[i..], n);
    }
  }

  /** A replacement that ends in a character no match uses, and lacks one every
      match needs, is inert. */
  lemma FencedIsInert(re: Regex, needed: CharClass, x: string)
    requires x != "" && Consumes(re) && Mandatory(re, needed) && !Mentions(re, x[|x| - 1])
    requires forall c :: c in x ==> !needed.Has(c)
    ensures Inert(re, x[0], x)
  {
    forall k: nat, w: bool, rest: string | k < |x| ensures MatchLength(re, w, x[k..] + rest) == 0 {
      var t := x[k..] + rest;
      var ends := Ends(re, w, t, 0);
      if ends != [] {
        var e := ends[0];
        assert e in ends;
        MatchMentions(re, w, t, 0, e);
        assert t[|x| - 1 - k] == x[|x| - 1];
        assert forall j :: 0 <= j < e ==> t[j] == x[k + j] && t[j] in x;
        MatchHasMandatory(re, needed, w, t, 0, e);
      }
    }
  }

  /** An edge-free rule settles if its replacements are inert. */
  lemma EdgeFreeSettles(rule: Rule, barrier: char)
    requires !HasEdge(rule.re) && Consumes(rule.re) && !Mentions(rule.re, barrier) && !IsWord(barrier)
    requires forall m: string :: Inert(rule.re, barrier, rule.replace(m))
    ensures Settling(rule, barrier)
  {
    forall t: string ensures ContextFree(rule.re, t) {
      if MatchLength(rule.re, true, t) == 0 { WithoutEdges(rule.re, true, false, t); }
      if MatchLength(rule.re, false, t) == 0 { WithoutEdges(rule.re, false, true, t); }
    }
  }

  // ---- When a second pass keeps what a first pass established ----

  /** An expression without `\b` ignores what precedes the text. */
  lemma WithoutEdges(re: Regex, w: bool, w': bool, t: string)
    requires !HasEdge(re) && Consumes(re) && MatchLength(re, w, t) == 0
    ensures MatchLength(re, w', t) == 0
  {
    var ends := Ends(re, w', t, 0);
    if ends != [] {
      assert ends[0] in ends;
      MatchIsLocal(re, w', t, w, t, 0, ends[0]);
      MatchFound(re, w, t, ends[0]);
    }
  }

  lemma {:induction false} CleanSuffix(re: Regex, w: bool, w': bool, t: string, n: nat)
    requires !HasEdge(re) && Consumes(re) && n <= |t| && Clean(re, w, t)
    ensures Clean(re, w', t[n..])
    decreases n
  {
    if n > 0 {
      assert t[1..][n - 1..] == t[n..];
      CleanSuffix(re, IsWord(t[0]), w', t[1..], n - 1);
    } else if t != "" {
      assert t[0..] == t;
      WithoutEdges(re, w, w', t);
    }
  }

  /** Text free of matches of `re` stays free of them under a rule whose
      replacements `re` cannot use. */
  lemma {:induction false} RewriteKeepsClean(re: Regex, rule: Rule, barrier: char, w: bool, t: string)
    requires !HasEdge(re) && Consumes(re) && !Mentions(re, barrier) && Clean(re, w, t)
    requires forall m: string :: Inert(rule.re, barrier, rule.replace(m)) && Inert(re, barrier, rule.replace(m))
    ensures Clean(re, w, Rewrite(rule, w, t))
    decreases |t|
  {
    var n := MatchLength(rule.re, w, t);
    var out := Rewrite(rule, w, t);
    if t == "" {
    } else if n > 0 {
      var x := rule.replace(t[..n]);
      assert Inert(re, barrier, x);
      CleanSuffix(re, w, WordBefore(w, t, n), t, n);
      RewriteKeepsClean(re, rule, barrier, WordBefore(w, t, n), t[n..]);
      var rest := Rewrite(rule, WordBefore(w, t, n), t[n..]);
      CleanSuffix(re, WordBefore(w, t, n), IsWord(x[|x| - 1]), rest, 0);
      assert rest[0..] == rest && x[0..] == x;
      InertThenClean(re, barrier, w, x, 0, rest);
    } else {
      RewriteKeepsClean(re, rule, barrier, IsWord(t[0]), t[1..]);
      assert out[1..] == Rewrite(rule, IsWord(t[0]), t[1..]);
      var ends := Ends(re, w, out, 0);
      if ends != [] {
        assert ends[0] in ends;
        MatchMentions(re, w, out, 0, ends[0]);
        CommonPrefix(rule, barrier, w, t, ends[0]);
        assert out[0..ends[0]] == t[0..ends[0]];
        MatchIsLocal(re, w, out, w, t, 0, ends[0]);
        MatchFound(re, w, t, ends[0]);
      }
    }
  }

  /** After one pass of each of two settling rules no match of either is left, if
      the first cannot use what the second puts in. */
  lemma BothPassesSettle(first: Rule, second: Rule, barrier: char, text: string)
    requires Settling(first, barrier) && Settling(second, barrier) && !HasEdge(first.re)
    requires forall m: string :: Inert(first.re, barrier, second.replace(m))
    ensures
      var out := Rewrite(second, false, Rewrite(first, false, text));
      Clean(first.re, false, out) && Clean(second.re, false, out)
  {
    var once := Rewrite(first, false, text);
    RewriteSettles(first, barrier, false, false, text);
    RewriteSettles(second, barrier, false, false, once);
    RewriteKeepsClean(first.re, second, barrier, false, once);
  }
}
