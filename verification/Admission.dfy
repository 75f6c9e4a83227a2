/** Who may have an account: the configured list of `provider:subject` entries. */
module Admission {
  import opened Wrappers
  import opened Regex

  function TrimStart(s: string): string {
    if s != [] && IsSpace(s[0]) then TrimStart(s[1..]) else s
  }

  function TrimEnd(s: string): string {
    if s != [] && IsSpace(s[|s| - 1]) then TrimEnd(s[..|s| - 1]) else s
  }

  /** String.prototype.trim takes off what `\s` matches. */
  function Trim(s: string): string {
    TrimEnd(TrimStart(s))
  }

  /** split(','): always at least one piece. */
  function Split(s: string): (pieces: seq<string>)
    ensures pieces != []
  {
    if s == [] then [[]]
    else
      var rest := Split(s[1..]);
      if s[0] == ',' then [[]] + rest else [[s[0]] + rest[0]] + rest[1..]
  }

  /** The trimmed pieces that are not empty. */
  function Entries(pieces: seq<string>): seq<string> {
    if pieces == [] then []
    else (if Trim(pieces[0]) == [] then [] else [Trim(pieces[0])]) + Entries(pieces[1..])
  }

  /** The list as the environment variable gives it; unset is empty. */
  function AllowedSubjects(setting: Option<string>): seq<string> {
    Entries(Split(if setting == None then "" else setting.value))
  }

  datatype Provider = Google | Microsoft

  function Name(p: Provider): string {
    match p
    case Google => "google"
    case Microsoft => "microsoft"
  }

  datatype Subject = Subject(provider: Provider, externalId: string)

  function EntryFor(s: Subject): string {
    Name(s.provider) + ":" + s.externalId
  }

  predicate IsAdmitted(setting: Option<string>, s: Subject) {
    EntryFor(s) in AllowedSubjects(setting)
  }

  // ---- What the list admits ----

  /** No blank at either end. */
  predicate Unpadded(s: string) {
    s != [] ==> !IsSpace(s[0]) && !IsSpace(s[|s| - 1])
  }

  lemma {:induction false} TrimStartShape(s: string)
    ensures TrimStart(s) != [] ==> !IsSpace(TrimStart(s)[0])
    ensures ',' !in s ==> ',' !in TrimStart(s)
  {
    if s != [] && IsSpace(s[0]) {
      TrimStartShape(s[1..]);
    }
  }

  lemma {:induction false} TrimEndShape(s: string)
    ensures TrimEnd(s) <= s && (TrimEnd(s) != [] ==> !IsSpace(TrimEnd(s)[|TrimEnd(s)| - 1]))
  {
    if s != [] && IsSpace(s[|s| - 1]) {
      TrimEndShape(s[..|s| - 1]);
    }
  }

  lemma TrimShape(s: string)
    ensures Unpadded(Trim(s))
    ensures ',' !in s ==> ',' !in Trim(s)
    ensures Unpadded(s) ==> Trim(s) == s
  {
    TrimStartShape(s);
    TrimEndShape(TrimStart(s));
    var t := TrimEnd(TrimStart(s));
    assert forall i :: 0 <= i < |t| ==> t[i] == TrimStart(s)[i];
  }

  lemma {:induction false} PiecesHaveNoComma(s: string)
    ensures forall i :: 0 <= i < |Split(s)| ==> ',' !in Split(s)[i]
  {
    if s != [] {
      PiecesHaveNoComma(s[1..]);
    }
  }

  lemma {:induction false} EntriesAreClean(pieces: seq<string>, e: string)
    requires forall i :: 0 <= i < |pieces| ==> ',' !in pieces[i]
    requires e in Entries(pieces)
    ensures e != [] && Unpadded(e) && ',' !in e
  {
    TrimShape(pieces[0]);
    if e in Entries(pieces[1..]) {
      EntriesAreClean(pieces[1..], e);
    }
  }

  function Join(entries: seq<string>): string {
    if entries == [] then []
    else if |entries| == 1 then entries[0]
    else entries[0] + "," + Join(entries[1..])
  }

  lemma {:induction false} SplitOne(s: string)
    requires ',' !in s
    ensures Split(s) == [s]
  {
    if s != [] {
      SplitOne(s[1..]);
      assert [s[0]] + s[1..] == s;
    }
  }

  lemma {:induction false} SplitFirst(s: string, rest: string)
    requires ',' !in s
    ensures Split(s + [','] + rest) == [s] + Split(rest)
  {
    var whole := s + [','] + rest;
    if s == [] {
      assert whole[0] == ',' && whole[1..] == rest;
    } else {
      SplitFirst(s[1..], rest);
      assert whole[0] == s[0] && whole[1..] == s[1..] + [','] + rest;
      assert [s[0]] + s[1..] == s;
    }
  }

  predicate Listable(entry: string) {
    entry != [] && Unpadded(entry) && ',' !in entry
  }

  predicate Blank(s: string) {
    forall i :: 0 <= i < |s| ==> IsSpace(s[i])
  }

  /** The entry with any blanks around it. */
  ghost predicate Pads(written: string, entry: string) {
    exists a, b :: Blank(a) && Blank(b) && written == a + entry + b
  }

  lemma {:induction false} TrimStartOfPadded(a: string, s: string)
    requires Blank(a) && s != [] && !IsSpace(s[0])
    ensures TrimStart(a + s) == s
  {
    if a == [] {
      assert a + s == s;
    } else {
      assert (a + s)[1..] == a[1..] + s;
      TrimStartOfPadded(a[1..], s);
    }
  }

  lemma {:induction false} TrimEndOfPadded(s: string, b: string)
    requires Blank(b) && s != [] && !IsSpace(s[|s| - 1])
    ensures TrimEnd(s + b) == s
  {
    if b == [] {
      assert s + b == s;
    } else {
      assert (s + b)[..|s + b| - 1] == s + b[..|b| - 1];
      TrimEndOfPadded(s, b[..|b| - 1]);
    }
  }

  lemma TrimOfPadded(written: string, entry: string)
    requires Pads(written, entry) && Listable(entry)
    ensures Trim(written) == entry && ',' !in written
  {
    var a, b :| Blank(a) && Blank(b) && written == a + entry + b;
    assert written == a + (entry + b);
    TrimStartOfPadded(a, entry + b);
    TrimEndOfPadded(entry, b);
    assert !IsSpace(',');
  }

  lemma {:induction false} EntriesOfJoin(written: seq<string>, entries: seq<string>)
    requires |written| == |entries| > 0 && forall i :: 0 <= i < |entries| ==>
              Listable(entries[i]) && Pads(written[i], entries[i])
    ensures Entries(Split(Join(written))) == entries
  {
    var first, rest := written[0], written[1..];
    TrimOfPadded(first, entries[0]);
    if |written| == 1 {
      SplitOne(first);
      assert Entries([first]) == [Trim(first)] + Entries([first][1..]);
    } else {
      SplitFirst(first, Join(rest));
      EntriesOfJoin(rest, entries[1..]);
      assert Join(written) == first + [','] + Join(rest);
      assert ([first] + Split(Join(rest)))[1..] == Split(Join(rest));
    }
  }

  /** A list written as entries with commas between, and any blanks around them, is
      read back as those entries, however many there are; unset it admits nobody. */
  lemma ListRoundTrip(written: seq<string>, entries: seq<string>, s: Subject)
    requires |written| == |entries| && forall i :: 0 <= i < |entries| ==>
              Listable(entries[i]) && Pads(written[i], entries[i])
    ensures AllowedSubjects(Some(Join(written))) == entries
    ensures IsAdmitted(Some(Join(written)), s) <==> EntryFor(s) in entries
    ensures !IsAdmitted(None, s)
  {
    NothingListed();
    if entries != [] {
      EntriesOfJoin(written, entries);
    }
  }

  lemma NothingListed()
    ensures Entries(Split("")) == []
  {
    var none: seq<string> := [""];
    assert none[1..] == [] && Trim("") == "";
  }

  lemma {:induction false} BlankTrimsToNothing(s: string)
    requires forall i :: 0 <= i < |s| ==> IsSpace(s[i])
    ensures TrimStart(s) == []
  {
    if s != [] {
      BlankTrimsToNothing(s[1..]);
    }
  }

  lemma {:induction false} BlankPieces(pieces: seq<string>)
    requires forall i, j :: 0 <= i < |pieces| && 0 <= j < |pieces[i]| ==> IsSpace(pieces[i][j])
    ensures Entries(pieces) == []
  {
    if pieces != [] {
      BlankTrimsToNothing(pieces[0]);
      BlankPieces(pieces[1..]);
    }
  }

  lemma {:induction false} PiecesAreOf(s: string)
    ensures forall i, j :: 0 <= i < |Split(s)| && 0 <= j < |Split(s)[i]| ==>
              Split(s)[i][j] in s && Split(s)[i][j] != ','
  {
    if s != [] {
      PiecesAreOf(s[1..]);
    }
  }

  /** A setting of blanks and commas only, and so one that is missing or empty,
      admits nobody. */
  lemma BlankListAdmitsNobody(setting: string, s: Subject)
    requires forall i :: 0 <= i < |setting| ==> IsSpace(setting[i]) || setting[i] == ','
    ensures !IsAdmitted(Some(setting), s)
  {
    PiecesAreOf(setting);
    BlankPieces(Split(setting));
  }

  /** An entry names one subject of one provider. */
  lemma EntriesAreUnambiguous(s: Subject, t: Subject)
    ensures EntryFor(s) == EntryFor(t) <==> s == t
  {
    if EntryFor(s) == EntryFor(t) {
      assert EntryFor(s)[0] == Name(s.provider)[0];
      assert EntryFor(t)[0] == Name(t.provider)[0];
      assert s.externalId == EntryFor(s)[|Name(s.provider)| + 1..];
      assert t.externalId == EntryFor(t)[|Name(t.provider)| + 1..];
    }
  }

  /** A subject can be admitted at all if and only if its id holds no comma and
      does not end in a blank; then a list of its entry alone admits it and
      nobody else. */
  lemma AdmissibleIff(s: Subject)
    ensures (exists setting :: IsAdmitted(setting, s)) <==> Listable(EntryFor(s))
    ensures Listable(EntryFor(s)) <==> ',' !in s.externalId && (s.externalId != [] ==>
              !IsSpace(s.externalId[|s.externalId| - 1]))
    ensures Listable(EntryFor(s)) ==> forall t :: IsAdmitted(Some(EntryFor(s)), t) <==> t == s
  {
    var entry := EntryFor(s);
    if Listable(entry) {
      assert Pads(entry, entry) by { assert Blank("") && entry == "" + entry + ""; }
      ListRoundTrip([entry], [entry], s);
      assert Join([entry]) == entry;
      forall t ensures IsAdmitted(Some(entry), t) <==> t == s {
        EntriesAreUnambiguous(s, t);
      }
      assert IsAdmitted(Some(entry), s);
    }
    forall setting | IsAdmitted(setting, s) ensures Listable(entry) {
      var text := if setting == None then "" else setting.value;
      PiecesHaveNoComma(text);
      EntriesAreClean(Split(text), entry);
    }
    ListableIff(s);
  }

  lemma ListableIff(s: Subject)
    ensures Listable(EntryFor(s)) <==> ',' !in s.externalId && (s.externalId != [] ==>
              !IsSpace(s.externalId[|s.externalId| - 1]))
  {
    var entry, n := EntryFor(s), |Name(s.provider)|;
    assert forall i :: 0 <= i < |s.externalId| ==> entry[n + 1 + i] == s.externalId[i];
    assert ',' in s.externalId ==> ',' in entry by {
      if i :| 0 <= i < |s.externalId| && s.externalId[i] == ',' {
        assert entry[n + 1 + i] == ',';
      }
    }
  }
}
