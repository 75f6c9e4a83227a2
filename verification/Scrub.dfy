/** `redactContactText`: addresses and phone numbers taken out of free text. */
module Scrub {
  import opened Regex
  import opened Rewriting

  /** `EMAIL`: /[\w.+-]+@[\w-]+\.[\w.-]+/g */
  function EmailRegex(): Regex {
    Then(Many(LocalPart, 1), Then(One(Exactly('@')),
      Then(Many(DomainLabel, 1), Then(One(Exactly('.')), Many(DomainTail, 1)))))
  }

  /** `PHONE`: /(?:\+\d[\d\s().-]{7,}\d)|(?:\b\d[\d\s().-]{7,}\d\b)/g */
  function PhoneRegex(): Regex {
    Either(PlusPhone(), BarePhone())
  }

  function PlusPhone(): Regex { Then(One(Exactly('+')), PhoneDigits()) }

  function BarePhone(): Regex { Then(Edge, Then(PhoneDigits(), Edge)) }

  function PhoneDigits(): Regex {
    Then(One(Digit), Then(Many(PhoneBody, 7), One(Digit)))
  }

  const REDACTED := "[redacted]"

  function EmailRule(): Rule { Rule(EmailRegex(), _ => REDACTED) }

  function PhoneRule(): Rule { Rule(PhoneRegex(), _ => REDACTED) }

  function RedactContactText(text: string): string {
    Rewrite(PhoneRule(), false, Rewrite(EmailRule(), false, text))
  }

  // ---- What the two expressions match, said without them ----

  predicate AllIn(cls: CharClass, t: string, i: nat, e: nat)
    requires e <= |t|
  {
    forall k :: i <= k < e ==> cls.Has(t[k])
  }

  /** `t[i..e]` has the form local@label.tail. */
  ghost predicate EmailAt(t: string, i: nat, e: nat) {
    exists at: nat, dot: nat :: EmailParts(t, i, at, dot, e)
  }

  predicate EmailParts(t: string, i: nat, at: nat, dot: nat, e: nat) {
    && i < at && at + 1 < dot && dot + 1 < e <= |t|
    && t[at] == '@' && t[dot] == '.'
    && AllIn(LocalPart, t, i, at) && AllIn(DomainLabel, t, at + 1, dot) && AllIn(DomainTail, t, dot + 1, e)
  }

  /** `t[i..e]` is nine or more characters of a number, digits at both ends. */
  predicate DigitsAt(t: string, i: nat, e: nat) {
    && i + 9 <= e <= |t| && IsDigit(t[i]) && IsDigit(t[e - 1])
    && AllIn(PhoneBody, t, i + 1, e - 1)
  }

  predicate PlusPhoneAt(t: string, i: nat, e: nat) {
    i < |t| && t[i] == '+' && DigitsAt(t, i + 1, e)
  }

  /** A number that is a whole word; `w` as in `AtEdge`. */
  predicate BarePhoneAt(w: bool, t: string, i: nat, e: nat) {
    DigitsAt(t, i, e) && !WordBefore(w, t, i) && !(e < |t| && IsWord(t[e]))
  }

  predicate PhoneAt(w: bool, t: string, i: nat, e: nat) {
    PlusPhoneAt(t, i, e) || BarePhoneAt(w, t, i, e)
  }

  lemma ManyEnds(cls: CharClass, min: nat, w: bool, t: string, i: nat, e: nat)
    requires i <= |t|
    ensures e in Ends(Many(cls, min), w, t, i) <==> i + min <= e <= |t| && AllIn(cls, t, i, e)
  {
    if i + min <= e <= |t| && AllIn(cls, t, i, e) {
      RunReaches(cls, t, i, e);
    }
  }

  lemma ThenEnds(a: Regex, b: Regex, w: bool, t: string, i: nat, m: nat, e: nat)
    requires i <= m <= |t| && m in Ends(a, w, t, i) && e in Ends(b, w, t, m)
    ensures e in Ends(Then(a, b), w, t, i)
  {
    ChainMembers(b, w, t, i, Ends(a, w, t, i), e);
  }

  lemma ThenSplits(a: Regex, b: Regex, w: bool, t: string, i: nat, e: nat) returns (m: nat)
    requires i <= |t| && e in Ends(Then(a, b), w, t, i)
    ensures i <= m <= e <= |t| && m in Ends(a, w, t, i) && e in Ends(b, w, t, m)
  {
    ChainMembers(b, w, t, i, Ends(a, w, t, i), e);
    m :| m in Ends(a, w, t, i) && m <= |t| && e in Ends(b, w, t, m);
  }

  lemma RunThenCharacter(cls: CharClass, c: char, rest: Regex, w: bool, t: string, i: nat, m: nat, e: nat)
    requires i < m < |t| && AllIn(cls, t, i, m) && t[m] == c && e in Ends(rest, w, t, m + 1)
    ensures e in Ends(Then(Many(cls, 1), Then(One(Exactly(c)), rest)), w, t, i)
  {
    ManyEnds(cls, 1, w, t, i, m);
    OneThen(Exactly(c), rest, w, t, m);
    ThenEnds(Many(cls, 1), Then(One(Exactly(c)), rest), w, t, i, m, e);
  }

  function Domain(): Regex {
    Then(Many(DomainLabel, 1), Then(One(Exactly('.')), Many(DomainTail, 1)))
  }

  lemma DomainEnds(w: bool, t: string, i: nat, e: nat)
    requires i <= |t|
    ensures e in Ends(Domain(), w, t, i) <==>
              exists dot: nat ::
                && i < dot && dot + 1 < e <= |t| && t[dot] == '.'
                && AllIn(DomainLabel, t, i, dot) && AllIn(DomainTail, t, dot + 1, e)
  {
    var tail := Many(DomainTail, 1);
    if e in Ends(Domain(), w, t, i) {
      var dot := ThenSplits(Many(DomainLabel, 1), Then(One(Exactly('.')), tail), w, t, i, e);
      ManyEnds(DomainLabel, 1, w, t, i, dot);
      OneThen(Exactly('.'), tail, w, t, dot);
      ManyEnds(DomainTail, 1, w, t, dot + 1, e);
    }
    if dot: nat :|
      && i < dot && dot + 1 < e <= |t| && t[dot] == '.'
      && AllIn(DomainLabel, t, i, dot) && AllIn(DomainTail, t, dot + 1, e)
    {
      ManyEnds(DomainTail, 1, w, t, dot + 1, e);
      RunThenCharacter(DomainLabel, '.', tail, w, t, i, dot, e);
    }
  }

  lemma MatchIsEmail(w: bool, t: string, e: nat)
    requires e in Ends(EmailRegex(), w, t, 0)
    ensures EmailAt(t, 0, e)
  {
    var at := ThenSplits(Many(LocalPart, 1), Then(One(Exactly('@')), Domain()), w, t, 0, e);
    ManyEnds(LocalPart, 1, w, t, 0, at);
    OneThen(Exactly('@'), Domain(), w, t, at);
    DomainEnds(w, t, at + 1, e);
    var dot: nat :|
      && at + 1 < dot && dot + 1 < e <= |t| && t[dot] == '.'
      && AllIn(DomainLabel, t, at + 1, dot) && AllIn(DomainTail, t, dot + 1, e);
    assert EmailParts(t, 0, at, dot, e);
  }

  lemma EmailIsMatch(w: bool, t: string, e: nat)
    requires EmailAt(t, 0, e)
    ensures e in Ends(EmailRegex(), w, t, 0)
  {
    var at: nat, dot: nat :| EmailParts(t, 0, at, dot, e);
    DomainEnds(w, t, at + 1, e);
    RunThenCharacter(LocalPart, '@', Domain(), w, t, 0, at, e);
  }

  /** An email match is an address, and the other way round. */
  lemma EmailEnds(w: bool, t: string, e: nat)
    ensures e in Ends(EmailRegex(), w, t, 0) <==> EmailAt(t, 0, e)
  {
    if e in Ends(EmailRegex(), w, t, 0) { MatchIsEmail(w, t, e); }
    if EmailAt(t, 0, e) { EmailIsMatch(w, t, e); }
  }

  /** One character, a run, one character. */
  lemma FramedRunEnds(lead: CharClass, body: CharClass, min: nat, last: CharClass, w: bool, t: string, i: nat, e: nat)
    requires i <= |t|
    ensures e in Ends(Then(One(lead), Then(Many(body, min), One(last))), w, t, i) <==>
              i + min + 2 <= e <= |t| && lead.Has(t[i]) && AllIn(body, t, i + 1, e - 1) && last.Has(t[e - 1])
  {
    OneThen(lead, Then(Many(body, min), One(last)), w, t, i);
    if i < |t| {
      RunAndLastEnds(body, min, last, w, t, i + 1, e);
    }
  }

  lemma RunAndLastEnds(body: CharClass, min: nat, last: CharClass, w: bool, t: string, i: nat, e: nat)
    requires i <= |t|
    ensures e in Ends(Then(Many(body, min), One(last)), w, t, i) <==>
              i + min + 1 <= e <= |t| && AllIn(body, t, i, e - 1) && last.Has(t[e - 1])
  {
    if e in Ends(Then(Many(body, min), One(last)), w, t, i) {
      var m := ThenSplits(Many(body, min), One(last), w, t, i, e);
      ManyEnds(body, min, w, t, i, m);
    }
    if i + min + 1 <= e <= |t| && AllIn(body, t, i, e - 1) && last.Has(t[e - 1]) {
      ManyEnds(body, min, w, t, i, e - 1);
      ThenEnds(Many(body, min), One(last), w, t, i, e - 1, e);
    }
  }

  /** `\b` on both sides. */
  lemma WholeWordEnds(re: Regex, w: bool, t: string, e: nat)
    ensures e in Ends(Then(Edge, Then(re, Edge)), w, t, 0) <==>
              e in Ends(re, w, t, 0) && AtEdge(w, t, 0) && AtEdge(w, t, e)
  {
    if e in Ends(Then(Edge, Then(re, Edge)), w, t, 0) {
      var m := ThenSplits(Edge, Then(re, Edge), w, t, 0, e);
      var n := ThenSplits(re, Edge, w, t, 0, e);
    }
    if e in Ends(re, w, t, 0) && AtEdge(w, t, 0) && AtEdge(w, t, e) {
      ThenEnds(re, Edge, w, t, 0, e, e);
      ThenEnds(Edge, Then(re, Edge), w, t, 0, 0, e);
    }
  }

  lemma PlusEnds(w: bool, t: string, e: nat)
    ensures e in Ends(PlusPhone(), w, t, 0) <==> PlusPhoneAt(t, 0, e)
  {
    OneThen(Exactly('+'), PhoneDigits(), w, t, 0);
    if t != "" { FramedRunEnds(Digit, PhoneBody, 7, Digit, w, t, 1, e); }
  }

  lemma BareEnds(w: bool, t: string, e: nat)
    ensures e in Ends(BarePhone(), w, t, 0) <==> BarePhoneAt(w, t, 0, e)
  {
    WholeWordEnds(PhoneDigits(), w, t, e);
    FramedRunEnds(Digit, PhoneBody, 7, Digit, w, t, 0, e);
  }

  /** A phone match is a phone number, and the other way round. */
  lemma PhoneEnds(w: bool, t: string, e: nat)
    ensures e in Ends(PhoneRegex(), w, t, 0) <==> PhoneAt(w, t, 0, e)
  {
    PlusEnds(w, t, e);
    BareEnds(w, t, e);
  }

  // ---- One pass of each rule settles ----

  /** Neither expression can use a bracket. */
  lemma BracketsUnused(c: char)
    requires c == '[' || c == ']'
    ensures !Mentions(EmailRegex(), c) && !Mentions(PhoneRegex(), c)
  {
    assert !Mentions(Then(Many(DomainLabel, 1), Then(One(Exactly('.')), Many(DomainTail, 1))), c);
    assert !Mentions(PhoneDigits(), c);
    assert !Mentions(PlusPhone(), c) && !Mentions(BarePhone(), c);
  }

  lemma RedactedIsInert()
    ensures Inert(EmailRegex(), '[', REDACTED) && Inert(PhoneRegex(), '[', REDACTED)
  {
    BracketsUnused(']');
    FencedIsInert(EmailRegex(), Exactly('@'), REDACTED);
    FencedIsInert(PhoneRegex(), Digit, REDACTED);
  }

  lemma EmailSettles()
    ensures Settling(EmailRule(), '[')
  {
    BracketsUnused('[');
    RedactedIsInert();
    EdgeFreeSettles(EmailRule(), '[');
  }

  /** Backtracking over a greedy run gives up one character at a time, so the
      first success ends at the last `last` character of the run. */
  lemma {:induction false} ChainOverDescent(last: CharClass, w: bool, t: string, i: nat, hi: int, lo: nat)
    requires i <= lo && hi <= |t|
    ensures var r := Chain(One(last), w, t, i, Descend(hi, lo));
      r != [] ==> forall m :: r[0] <= m <= hi && m < |t| ==> !last.Has(t[m])
    decreases hi
  {
    if lo <= hi {
      ChainStep(last, w, t, i, hi, lo);
      ChainOverDescent(last, w, t, i, hi - 1, lo);
    }
  }

  lemma ChainStep(last: CharClass, w: bool, t: string, i: nat, hi: int, lo: nat)
    requires i <= lo <= hi <= |t|
    ensures Chain(One(last), w, t, i, Descend(hi, lo)) ==
            Ends(One(last), w, t, hi) + Chain(One(last), w, t, i, Descend(hi - 1, lo))
  {
    var rest := Descend(hi - 1, lo);
    assert Descend(hi, lo) == [hi] + rest && ([hi] + rest)[1..] == rest;
  }

  lemma FramedRunStopsAtLast(lead: CharClass, body: CharClass, min: nat, last: CharClass, w: bool, t: string, i: nat)
    requires i <= |t| && (forall c :: last.Has(c) ==> body.Has(c))
    requires Ends(Then(One(lead), Then(Many(body, min), One(last))), w, t, i) != []
    ensures
      var n := Ends(Then(One(lead), Then(Many(body, min), One(last))), w, t, i)[0];
      n < |t| ==> !last.Has(t[n])
  {
    var rest := Then(Many(body, min), One(last));
    var ends := Ends(Then(One(lead), rest), w, t, i);
    var n := ends[0];
    assert n in ends;
    OneThen(lead, rest, w, t, i);
    var run := RunEnd(body, t, i + 1);
    assert ends == Chain(One(last), w, t, i + 1, Descend(run, i + 1 + min));
    ChainOverDescent(last, w, t, i + 1, run, i + 1 + min);
    var m := ThenSplits(Many(body, min), One(last), w, t, i + 1, n);
    assert n == m + 1 && last.Has(t[m]) && m != run;
  }

  /** The engine prefers the longest digit string after a plus sign, so the
      character after a reported match is never a digit. */
  lemma NoDigitAfterPhone(w: bool, t: string)
    requires MatchLength(PhoneRegex(), w, t) > 0
    ensures var n := MatchLength(PhoneRegex(), w, t); n < |t| ==> !IsDigit(t[n])
  {
    var plus, bare := Ends(PlusPhone(), w, t, 0), Ends(BarePhone(), w, t, 0);
    assert Ends(PhoneRegex(), w, t, 0) == plus + bare;
    if plus == [] {
      assert bare[0] in bare;
      BareEnds(w, t, bare[0]);
    } else {
      assert plus[0] in plus;
      OneThen(Exactly('+'), PhoneDigits(), w, t, 0);
      FramedRunStopsAtLast(Digit, PhoneBody, 7, Digit, w, t, 1);
    }
  }

  /** After a word character only a plus sign starts a phone number. */
  lemma PhoneStart(w: bool, u: string)
    requires MatchLength(PhoneRegex(), w, u) > 0
    ensures u != "" && (u[0] == '+' || (!w && IsDigit(u[0])))
  {
    var e := Ends(PhoneRegex(), w, u, 0)[0];
    assert e in Ends(PhoneRegex(), w, u, 0);
    PhoneEnds(w, u, e);
  }

  lemma NoDigitNoContext(w: bool, w': bool, u: string)
    requires (u == "" || !IsDigit(u[0])) && MatchLength(PhoneRegex(), w, u) > 0
    ensures MatchLength(PhoneRegex(), w', u) > 0
  {
    var e := Ends(PhoneRegex(), w, u, 0)[0];
    assert e in Ends(PhoneRegex(), w, u, 0);
    PhoneEnds(w, u, e);
    PhoneEnds(w', u, e);
    MatchFound(PhoneRegex(), w', u, e);
  }

  lemma PhoneAfterPhone(w: bool, t: string, e: nat, u: string)
    requires e in Ends(PhoneRegex(), w, t, 0) && 0 < e <= |t| && MatchLength(PhoneRegex(), IsWord(t[e - 1]), u) > 0
    ensures u != "" && !IsWord(u[0])
  {
    PhoneEnds(w, t, e);
    PhoneStart(IsWord(t[e - 1]), u);
  }

  lemma AfterPhoneContextFree(w: bool, t: string)
    requires MatchLength(PhoneRegex(), w, t) > 0
    ensures ContextFree(PhoneRegex(), t[MatchLength(PhoneRegex(), w, t)..])
  {
    NoDigitAfterPhone(w, t);
    var u := t[MatchLength(PhoneRegex(), w, t)..];
    if MatchLength(PhoneRegex(), true, u) > 0 { NoDigitNoContext(true, false, u); }
    if MatchLength(PhoneRegex(), false, u) > 0 { NoDigitNoContext(false, true, u); }
  }

  lemma PhoneSettles()
    ensures Settling(PhoneRule(), '[')
  {
    BracketsUnused('[');
    RedactedIsInert();
    forall w: bool, t: string, e: nat, u: string |
      e in Ends(PhoneRegex(), w, t, 0) && 0 < e <= |t| && MatchLength(PhoneRegex(), IsWord(t[e - 1]), u) > 0 && u != ""
      ensures !IsWord(u[0])
    {
      PhoneAfterPhone(w, t, e, u);
    }
    forall w: bool, t: string | MatchLength(PhoneRegex(), w, t) > 0
      ensures ContextFree(PhoneRegex(), t[MatchLength(PhoneRegex(), w, t)..])
    {
      AfterPhoneContextFree(w, t);
    }
  }

  // ---- The promise ----

  lemma RedactedIsClean(text: string)
    ensures Clean(EmailRegex(), false, RedactContactText(text))
    ensures Clean(PhoneRegex(), false, RedactContactText(text))
  {
    EmailSettles();
    PhoneSettles();
    RedactedIsInert();
    BothPassesSettle(EmailRule(), PhoneRule(), '[', text);
  }

  lemma EmailPartsShift(t: string, i: nat, at: nat, dot: nat, e: nat)
    requires EmailParts(t, i, at, dot, e)
    ensures EmailParts(t[i..], 0, at - i, dot - i, e - i)
  {
  }

  lemma PhoneShifts(t: string, i: nat, e: nat)
    requires i < e && PhoneAt(false, t, i, e)
    ensures PhoneAt(WordBefore(false, t, i), t[i..], 0, e - i)
  {
  }

  lemma CleanHasNoEmail(t: string, i: nat, e: nat)
    requires Clean(EmailRegex(), false, t)
    ensures !EmailAt(t, i, e)
  {
    if at: nat, dot: nat :| EmailParts(t, i, at, dot, e) {
      EmailPartsShift(t, i, at, dot, e);
      assert EmailAt(t[i..], 0, e - i);
      EmailEnds(WordBefore(false, t, i), t[i..], e - i);
      CleanExcludes(EmailRegex(), t, i, e - i);
    }
  }

  lemma CleanHasNoPhone(t: string, i: nat, e: nat)
    requires Clean(PhoneRegex(), false, t)
    ensures !PhoneAt(false, t, i, e)
  {
    if PhoneAt(false, t, i, e) {
      PhoneShifts(t, i, e);
      PhoneEnds(WordBefore(false, t, i), t[i..], e - i);
      CleanExcludes(PhoneRegex(), t, i, e - i);
    }
  }

  /** No contact survives: nowhere in the result is there text of email form or
      a phone number, new word boundaries and the second pass included. */
  lemma NoContactSurvives(text: string)
    ensures forall i: nat, e: nat :: !EmailAt(RedactContactText(text), i, e)
    ensures forall i: nat, e: nat :: !PhoneAt(false, RedactContactText(text), i, e)
  {
    RedactedIsClean(text);
    forall i: nat, e: nat
      ensures !EmailAt(RedactContactText(text), i, e) && !PhoneAt(false, RedactContactText(text), i, e)
    {
      CleanHasNoEmail(RedactContactText(text), i, e);
      CleanHasNoPhone(RedactContactText(text), i, e);
    }
  }

  lemma RedactIsIdempotent(text: string)
    ensures RedactContactText(RedactContactText(text)) == RedactContactText(text)
  {
    RedactedIsClean(text);
    CleanIsUnchanged(EmailRule(), false, RedactContactText(text));
    CleanIsUnchanged(PhoneRule(), false, RedactContactText(text));
  }

  lemma EmailFound(w: bool, t: string)
    requires MatchLength(EmailRegex(), w, t) > 0
    ensures EmailAt(t, 0, MatchLength(EmailRegex(), w, t))
  {
    assert MatchLength(EmailRegex(), w, t) in Ends(EmailRegex(), w, t, 0);
    EmailEnds(w, t, MatchLength(EmailRegex(), w, t));
  }

  lemma PhoneFound(w: bool, t: string)
    requires MatchLength(PhoneRegex(), w, t) > 0
    ensures PhoneAt(w, t, 0, MatchLength(PhoneRegex(), w, t))
  {
    assert MatchLength(PhoneRegex(), w, t) in Ends(PhoneRegex(), w, t, 0);
    PhoneEnds(w, t, MatchLength(PhoneRegex(), w, t));
  }

  lemma EmailUnshifts(t: string, i: nat, e: nat)
    requires t != "" && EmailAt(t[1..], i, e)
    ensures EmailAt(t, i + 1, e + 1)
  {
    var at: nat, dot: nat :| EmailParts(t[1..], i, at, dot, e);
    assert EmailParts(t, i + 1, at + 1, dot + 1, e + 1);
  }

  lemma {:induction false} NoEmailIsClean(w: bool, t: string)
    requires forall i: nat, e: nat :: !EmailAt(t, i, e)
    ensures Clean(EmailRegex(), w, t)
    decreases |t|
  {
    if t != "" {
      assert MatchLength(EmailRegex(), w, t) == 0 by {
        if MatchLength(EmailRegex(), w, t) > 0 { EmailFound(w, t); }
      }
      forall i: nat, e: nat ensures !EmailAt(t[1..], i, e) {
        if EmailAt(t[1..], i, e) { EmailUnshifts(t, i, e); }
      }
      NoEmailIsClean(IsWord(t[0]), t[1..]);
    }
  }

  lemma {:induction false} NoPhoneIsClean(w: bool, t: string)
    requires forall i: nat, e: nat :: !PhoneAt(w, t, i, e)
    ensures Clean(PhoneRegex(), w, t)
    decreases |t|
  {
    if t != "" {
      assert MatchLength(PhoneRegex(), w, t) == 0 by {
        if MatchLength(PhoneRegex(), w, t) > 0 { PhoneFound(w, t); }
      }
      forall i: nat, e: nat ensures !PhoneAt(IsWord(t[0]), t[1..], i, e) {
        assert PhoneAt(IsWord(t[0]), t[1..], i, e) ==> PhoneAt(w, t, i + 1, e + 1);
      }
      NoPhoneIsClean(IsWord(t[0]), t[1..]);
    }
  }

  /** A text comes back as it was if and only if it holds no contact. */
  lemma UnchangedIffNoContact(text: string)
    ensures RedactContactText(text) == text <==>
              forall i: nat, e: nat :: !EmailAt(text, i, e) && !PhoneAt(false, text, i, e)
  {
    if forall i: nat, e: nat :: !EmailAt(text, i, e) && !PhoneAt(false, text, i, e) {
      NoEmailIsClean(false, text);
      NoPhoneIsClean(false, text);
      CleanIsUnchanged(EmailRule(), false, text);
      CleanIsUnchanged(PhoneRule(), false, text);
    }
    NoContactSurvives(text);
  }

  /** Nine characters of a number make a phone number even if only the first and
      the last of them are digits. */
  lemma TwoDigitsSuffice(text: string)
    requires DigitsAt(text, 0, |text|)
    ensures RedactContactText(text) != text
  {
    UnchangedIffNoContact(text);
    assert PhoneAt(false, text, 0, |text|);
  }

  /** So years do not survive: a range of two is taken for a number. */
  lemma YearsAreRedacted()
    ensures RedactContactText("2019 - 2021") != "2019 - 2021"
  {
    TwoDigitsSuffice("2019 - 2021");
  }

  ghost predicate IsEmail(m: string) { EmailAt(m, 0, |m|) }

  /** A number, with or without a plus sign. */
  predicate IsPhone(m: string) { PlusPhoneAt(m, 0, |m|) || DigitsAt(m, 0, |m|) }

  /** Only contacts are replaced: each pass changes the text exactly at the
      addresses, then at the numbers, it reports. */
  lemma OnlyContactsAreReplaced(text: string)
    ensures var once := Rewrite(EmailRule(), false, text);
      && ReplacesMatches(EmailRule(), false, text)
      && (forall m :: m in Matches(EmailRegex(), false, text) ==> IsEmail(m))
      && ReplacesMatches(PhoneRule(), false, once) && RedactContactText(text) == Rewrite(PhoneRule(), false, once)
      && (forall m :: m in Matches(PhoneRegex(), false, once) ==> IsPhone(m))
    ensures forall m :: EmailRule().replace(m) == PhoneRule().replace(m) == "[redacted]"
  {
    var once := Rewrite(EmailRule(), false, text);
    RewriteReplacesMatches(EmailRule(), false, text);
    RewriteReplacesMatches(PhoneRule(), false, once);
    forall v: bool, u: string | MatchLength(EmailRegex(), v, u) > 0
      ensures IsEmail(u[..MatchLength(EmailRegex(), v, u)])
    {
      ReportedEmail(v, u);
    }
    MatchesAre(EmailRegex(), IsEmail, false, text);
    forall v: bool, u: string | MatchLength(PhoneRegex(), v, u) > 0
      ensures IsPhone(u[..MatchLength(PhoneRegex(), v, u)])
    {
      ReportedPhone(v, u);
    }
    MatchesAre(PhoneRegex(), IsPhone, false, once);
  }

  lemma ReportedEmail(v: bool, u: string)
    requires MatchLength(EmailRegex(), v, u) > 0
    ensures IsEmail(u[..MatchLength(EmailRegex(), v, u)])
  {
    var n := MatchLength(EmailRegex(), v, u);
    assert n in Ends(EmailRegex(), v, u, 0);
    EmailEnds(v, u, n);
    var at: nat, dot: nat :| EmailParts(u, 0, at, dot, n);
    assert EmailParts(u[..n], 0, at, dot, n);
  }

  lemma ReportedPhone(v: bool, u: string)
    requires MatchLength(PhoneRegex(), v, u) > 0
    ensures IsPhone(u[..MatchLength(PhoneRegex(), v, u)])
  {
    var n := MatchLength(PhoneRegex(), v, u);
    assert n in Ends(PhoneRegex(), v, u, 0);
    PhoneEnds(v, u, n);
  }
}
