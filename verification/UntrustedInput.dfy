/** `renderUntrusted`: the caller's map of untrusted inputs as blocks in the order
    the template declares. */
module UntrustedInput {
  import opened Wrappers
  import opened PromptRender
  import opened StripContacts

  datatype Value = Text(text: string) | Structured(json: Json)

  /** An own property of the caller's object; None is `undefined`. */
  datatype Input = Input(name: string, value: Option<Value>)

  datatype InputError = Undeclared(names: seq<string>) | Missing(name: string)

  function Extra(declared: seq<string>, supplied: seq<Input>): seq<string> {
    if supplied == [] then []
    else (if supplied[0].name in declared then [] else [supplied[0].name]) + Extra(declared, supplied[1..])
  }

  function ValueOf(supplied: seq<Input>, name: string): Option<Value> {
    if supplied == [] then None
    else if supplied[0].name == name then supplied[0].value
    else ValueOf(supplied[1..], name)
  }

  /** Structured input has already been extracted, so its contacts are in a known
      field; `stringify` is JSON.stringify(..., null, 2). */
  function TextOf(value: Value, stringify: Json -> string): string {
    match value
    case Text(text) => text
    case Structured(json) => stringify(Strip(json))
  }

  function Blocks(declared: seq<string>, supplied: seq<Input>, stringify: Json -> string): Result<seq<Block>,
      InputError> {
    if declared == [] then Ok([])
    else
      match ValueOf(supplied, declared[0])
      case None => Err(Missing(declared[0]))
      case Some(value) =>
        match Blocks(declared[1..], supplied, stringify)
        case Err(e) => Err(e)
        case Ok(rest) => Ok([Block(declared[0], TextOf(value, stringify))] + rest)
  }

  function RenderUntrusted(declared: seq<string>, supplied: seq<Input>,
      stringify: Json -> string): Result<seq<Block>, InputError> {
    var extra := Extra(declared, supplied);
    if extra != [] then Err(Undeclared(extra)) else Blocks(declared, supplied, stringify)
  }

  /** The declared names without a value. */
  predicate Lacks(supplied: seq<Input>, name: string) {
    ValueOf(supplied, name) == None
  }

  lemma {:induction false} ExtraIsUndeclared(declared: seq<string>, supplied: seq<Input>)
    ensures Extra(declared, supplied) == [] <==> forall i :: 0 <= i < |supplied| ==> supplied[i].name in declared
    ensures forall n :: n in Extra(declared, supplied) <==>
              n !in declared && exists i :: 0 <= i < |supplied| && supplied[i].name == n
  {
    if supplied != [] {
      ExtraIsUndeclared(declared, supplied[1..]);
      assert forall i :: 0 < i < |supplied| ==> supplied[i] == supplied[1..][i - 1];
    }
  }

  lemma {:induction false} BlocksFollowDeclaration(declared: seq<string>, supplied: seq<Input>,
                                                   stringify: Json -> string)
    ensures
      var r := Blocks(declared, supplied, stringify);
      && (r.Ok? <==> forall i :: 0 <= i < |declared| ==> !Lacks(supplied, declared[i]))
      && (r.Ok? ==>
            && |r.value| == |declared|
            && forall i :: 0 <= i < |declared| ==>
                 r.value[i] == Block(declared[i], TextOf(ValueOf(supplied, declared[i]).value, stringify)))
      && (r.Err? ==>
            exists i :: 0 <= i < |declared| && r.error == Missing(declared[i]) && Lacks(supplied, declared[i])
                        && forall j :: 0 <= j < i ==> !Lacks(supplied, declared[j]))
  {
    if declared != [] {
      BlocksFollowDeclaration(declared[1..], supplied, stringify);
      var r := Blocks(declared, supplied, stringify);
      if r.Err? {
        if Lacks(supplied, declared[0]) {
          assert r.error == Missing(declared[0]);
        } else {
          var k :| 0 <= k < |declared[1..]| && r.error == Missing(declared[1..][k]) && Lacks(supplied, declared[1..][k])
                   && forall j :: 0 <= j < k ==> !Lacks(supplied, declared[1..][j]);
          assert declared[k + 1] == declared[1..][k];
          assert forall j :: 0 < j < k + 1 ==> declared[j] == declared[1..][j - 1];
        }
      }
    }
  }

  /** The inputs are accepted if and only if they are the declared ones, each with a
      value; the blocks then stand in declared order. An undeclared input is
      reported before a missing one, all of them together; of missing ones the
      first declared is. */
  lemma AcceptedIffAsDeclared(declared: seq<string>, supplied: seq<Input>, stringify: Json -> string)
    ensures
      var r := RenderUntrusted(declared, supplied, stringify);
      && (r.Ok? <==> (forall i :: 0 <= i < |supplied| ==> supplied[i].name in declared)
                     && (forall i :: 0 <= i < |declared| ==> !Lacks(supplied, declared[i])))
      && (r.Ok? ==>
            && |r.value| == |declared|
            && forall i :: 0 <= i < |declared| ==>
                 r.value[i] == Block(declared[i], TextOf(ValueOf(supplied, declared[i]).value, stringify)))
      && (r.Err? && r.error.Undeclared? ==>
            forall n :: n in r.error.names <==>
                n !in declared && exists i :: 0 <= i < |supplied| && supplied[i].name == n)
      && (r.Err? && r.error.Missing? ==>
            exists i :: 0 <= i < |declared| && r.error.name == declared[i] && Lacks(supplied, declared[i])
                        && forall j :: 0 <= j < i ==> !Lacks(supplied, declared[j]))
  {
    ExtraIsUndeclared(declared, supplied);
    BlocksFollowDeclaration(declared, supplied, stringify);
  }

  /** A text is written as it is, a structured value without contacts at any depth. */
  predicate WrittenSafely(value: Option<Value>, text: string, stringify: Json -> string) {
    && value.Some?
    && (value.value.Text? ==> text == value.value.text)
    && (value.value.Structured? ==> ContactFree(Strip(value.value.json)) && text == stringify(Strip(value.value.json)))
  }

  /** The text is that of the input supplied under the name, the first if there are more. */
  predicate FromInput(supplied: seq<Input>, name: string, text: string, stringify: Json -> string) {
    exists k :: 0 <= k < |supplied| && supplied[k].name == name && (forall j :: 0 <= j < k ==> supplied[j].name != name)
                && WrittenSafely(supplied[k].value, text, stringify)
  }

  lemma {:induction false} ValueIsSupplied(supplied: seq<Input>, name: string) returns (k: nat)
    requires ValueOf(supplied, name).Some?
    ensures k < |supplied| && supplied[k].name == name && supplied[k].value == ValueOf(supplied, name)
    ensures forall j :: 0 <= j < k ==> supplied[j].name != name
  {
    if supplied[0].name == name {
      k := 0;
    } else {
      k := ValueIsSupplied(supplied[1..], name);
      k := k + 1;
      assert forall j :: 0 < j < k ==> supplied[j] == supplied[1..][j - 1];
    }
  }

  /** Whatever the inputs hold, the message sent splits back into exactly the
      template's labels in their order, each with its escaped text, if and only if no
      label holds a separator; each text is that of the input supplied under the
      label, a structured one written without contacts at any depth. */
  lemma MessageHoldsDeclaredBlocks(declared: seq<string>, supplied: seq<Input>, stringify: Json -> string)
    requires RenderUntrusted(declared, supplied, stringify).Ok?
    ensures
      var blocks := RenderUntrusted(declared, supplied, stringify).value;
      && |blocks| == |declared|
      && (Split(RenderUserMessage(blocks)) == Some(EscapeAll(blocks)) <==>
          forall i :: 0 <= i < |declared| ==> !HoldsSeparator(declared[i]))
      && forall i :: 0 <= i < |declared| ==>
           && EscapeAll(blocks)[i] == Block(declared[i], EscapeDelimiters(blocks[i].text))
           && FromInput(supplied, declared[i], blocks[i].text, stringify)
  {
    AcceptedIffAsDeclared(declared, supplied, stringify);
    var blocks := RenderUntrusted(declared, supplied, stringify).value;
    RenderThenSplit(blocks);
    forall i | 0 <= i < |declared|
      ensures EscapeAll(blocks)[i] == Block(declared[i], EscapeDelimiters(blocks[i].text))
      ensures FromInput(supplied, declared[i], blocks[i].text, stringify)
    {
      SafelyWritten(ValueOf(supplied, declared[i]), stringify);
      var k := ValueIsSupplied(supplied, declared[i]);
      assert WrittenSafely(supplied[k].value, blocks[i].text, stringify);
    }
  }

  lemma SafelyWritten(value: Option<Value>, stringify: Json -> string)
    requires value.Some?
    ensures WrittenSafely(value, TextOf(value.value, stringify), stringify)
  {
    if value.value.Structured? {
      StripLeavesNoContacts(value.value.json);
    }
  }
}
