/** The sync-check answer and its `Selector` codec (src/resp/sync_check.rs). */
module RespSyncCheck {
  import opened Wrappers
  import opened Net
  import Fmt

  datatype Selector = Normal | NewMessage | ModContact | AddOrDelContact | ModChatroom

  /** The `strum` Display text of each selector. */
  function Display(s: Selector): string {
    match s
    case Normal => "0"
    case NewMessage => "2"
    case ModContact => "4"
    case AddOrDelContact => "6"
    case ModChatroom => "7"
  }

  /** `ser_selector`: a selector is written as its Display text. */
  function SerSelector(s: Selector): (t: string)
    ensures |t| == 1 && Fmt.IsDigits(t)
  {
    Display(s)
  }

  /** serde's `unknown_variant` error: the rejected text and the variant names it lists. */
  datatype DeError = UnknownVariant(variant: string, expected: seq<string>)

  /** The variant names `de_selector` puts in its error, as written. */
  const ExpectedAsWritten: seq<string> := ["0", "1", "2", "3", "4"]

  /** `de_selector` as written. */
  function DeSelectorAsWritten(t: string): (r: Result<Selector, DeError>)
    ensures r.Err? ==> r.error == UnknownVariant(t, ExpectedAsWritten)
  {
    match t
    case "0" => Ok(Normal)
    case "2" => Ok(NewMessage)
    case "4" => Ok(ModContact)
    case "6" => Ok(AddOrDelContact)
    case "7" => Ok(ModChatroom)
    case _ => Err(UnknownVariant(t, ExpectedAsWritten))
  }

  /** The error of `de_selector` names "1" and "3", which are rejected, and leaves out
      "6" and "7", which are accepted. */
  lemma ExpectedListNamesRejectedVariant()
    ensures DeSelectorAsWritten("5").Err?
    ensures "1" in DeSelectorAsWritten("5").error.expected && DeSelectorAsWritten("1").Err?
    ensures "3" in DeSelectorAsWritten("5").error.expected && DeSelectorAsWritten("3").Err?
    ensures "6" !in DeSelectorAsWritten("5").error.expected && DeSelectorAsWritten("6").Ok?
    ensures "7" !in DeSelectorAsWritten("5").error.expected && DeSelectorAsWritten("7").Ok?
  {
  }

  const AllSelectors: seq<Selector> := [Normal, NewMessage, ModContact, AddOrDelContact, ModChatroom]

  /** The names an error should list: the Display text of every selector. */
  const ExpectedVariants: seq<string> := ["0", "2", "4", "6", "7"]

  /** `de_selector` with the error listing the variants it really accepts. */
  function DeSelector(t: string): (r: Result<Selector, DeError>)
    ensures r.Err? ==> r.error == UnknownVariant(t, ExpectedVariants)
    ensures r.Ok? ==> Display(r.value) == t
  {
    match t
    case "0" => Ok(Normal)
    case "2" => Ok(NewMessage)
    case "4" => Ok(ModContact)
    case "6" => Ok(AddOrDelContact)
    case "7" => Ok(ModChatroom)
    case _ => Err(UnknownVariant(t, ExpectedVariants))
  }

  /** Both decoders accept the same texts with the same results; only the error's list differs. */
  lemma DeSelectorAgreesOnAccepted(t: string)
    ensures DeSelector(t).Ok? <==> DeSelectorAsWritten(t).Ok?
    ensures DeSelector(t).Ok? ==> DeSelector(t) == DeSelectorAsWritten(t)
  {
  }

  /** Every name the corrected error lists is accepted, and every selector is listed. */
  lemma ExpectedVariantsAccurate()
    ensures forall k :: 0 <= k < |ExpectedVariants| ==> DeSelector(ExpectedVariants[k]).Ok?
    ensures forall s :: s in AllSelectors ==> Display(s) in ExpectedVariants
    ensures forall s: Selector :: s in AllSelectors
  {
    forall s: Selector ensures s in AllSelectors {
      match s
      case Normal => assert AllSelectors[0] == s;
      case NewMessage => assert AllSelectors[1] == s;
      case ModContact => assert AllSelectors[2] == s;
      case AddOrDelContact => assert AllSelectors[3] == s;
      case ModChatroom => assert AllSelectors[4] == s;
    }
  }

  /** A text decodes exactly when it is one of "0", "2", "4", "6", "7". */
  lemma DeSelectorAcceptsExactly(t: string)
    ensures DeSelector(t).Ok? <==> t in ExpectedVariants
  {
  }

  /** Decoding the serialised form gives the selector back. */
  lemma SelectorRoundTrip(s: Selector)
    ensures DeSelector(SerSelector(s)) == Ok(s)
  {
  }

  /** Serialising a decoded text gives the text back. */
  lemma SelectorTextRoundTrip(t: string)
    requires DeSelector(t).Ok?
    ensures SerSelector(DeSelector(t).value) == t
  {
  }

  datatype ResponseSyncCheck = ResponseSyncCheck(retCode: string, selector: Selector) {
    predicate IsSuccess() {
      retCode == "0"
    }
  }

  // ---------------------------------------------------------------------------
  // The derived `Deserialize` of `ResponseSyncCheck`, read from a JSON value

  /** Why decoding a `ResponseSyncCheck` failed, as serde reports it. */
  datatype DecodeError =
    | MissingField(name: string)
    | DuplicateField(name: string)
    | NotAString(found: Json)
    | BadSelector(err: DeError)
    | NotAnObject(found: Json)

  /** How serde_json names an unexpected JSON value in an `invalid type` message. */
  function Unexpected(j: Json): string {
    match j
    case JStr(t) => "string \"" + t + "\""
    case JInt(i) => "integer `" + Fmt.IntToString(i) + "`"
    case JObj(_) => "map"
  }

  /** The names of an `expected one of` list, each in backquotes, separated by ", ". */
  function Quoted(names: seq<string>): string
    decreases |names|
  {
    if |names| == 0 then ""
    else if |names| == 1 then "`" + names[0] + "`"
    else "`" + names[0] + "`, " + Quoted(names[1..])
  }

  /** serde's text for an `unknown_variant` error. */
  function DeErrorText(e: DeError): string {
    var v := "unknown variant `" + e.variant + "`, ";
    if |e.expected| == 0 then v + "there are no variants"
    else if |e.expected| == 1 then v + "expected `" + e.expected[0] + "`"
    else if |e.expected| == 2 then v + "expected `" + e.expected[0] + "` or `" + e.expected[1] + "`"
    else v + "expected one of " + Quoted(e.expected)
  }

  /** The text serde_json displays for each decoding error. */
  function DecodeErrorText(e: DecodeError): string {
    match e
    case MissingField(n) => "missing field `" + n + "`"
    case DuplicateField(n) => "duplicate field `" + n + "`"
    case NotAString(j) => "invalid type: " + Unexpected(j) + ", expected a string"
    case BadSelector(d) => DeErrorText(d)
    case NotAnObject(j) => "invalid type: " + Unexpected(j) + ", expected struct ResponseSyncCheck"
  }

  /** The generated visitor: fields are read in order; a repeated `RetCode` or `Selector` is
      an error when met, other names are skipped, and a field still absent at the end is
      reported missing, `RetCode` first.  `de` is the selector decoder the field uses. */
  function DecodeFields(fields: seq<(string, Json)>, de: string -> Result<Selector, DeError>,
                        code: Option<string>, sel: Option<Selector>): (r: Result<ResponseSyncCheck, DecodeError>)
    ensures r.Ok? && code.Some? ==> r.value.retCode == code.value
    ensures r.Ok? && sel.Some? ==> r.value.selector == sel.value
    ensures (forall k :: 0 <= k < |fields| ==> fields[k].0 != "RetCode" && fields[k].0 != "Selector") ==>
              r == (if code.None? then Err(MissingField("RetCode"))
                    else if sel.None? then Err(MissingField("Selector"))
                    else Ok(ResponseSyncCheck(code.value, sel.value)))
    decreases |fields|
  {
    if |fields| == 0 then
      if code.None? then Err(MissingField("RetCode"))
      else if sel.None? then Err(MissingField("Selector"))
      else Ok(ResponseSyncCheck(code.value, sel.value))
    else
      var (k, v) := fields[0];
      if k == "RetCode" then
        if code.Some? then Err(DuplicateField("RetCode"))
        else if !v.JStr? then Err(NotAString(v))
        else DecodeFields(fields[1..], de, Some(v.s), sel)
      else if k == "Selector" then
        if sel.Some? then Err(DuplicateField("Selector"))
        else if !v.JStr? then Err(NotAString(v))
        else match de(v.s)
          case Err(e) => Err(BadSelector(e))
          case Ok(x) => DecodeFields(fields[1..], de, code, Some(x))
      else
        var r := DecodeFields(fields[1..], de, code, sel);
        assert (forall k :: 0 <= k < |fields| ==> fields[k].0 != "RetCode" && fields[k].0 != "Selector") ==>
               (forall k :: 0 <= k < |fields[1..]| ==> fields[1..][k].0 != "RetCode" && fields[1..][k].0 != "Selector");
        r
  }

  /** `serde_json::from_value::<ResponseSyncCheck>` with the given selector decoder. */
  function DecodeResponseSyncCheck(j: Json, de: string -> Result<Selector, DeError>): Result<ResponseSyncCheck, DecodeError> {
    if j.JObj? then DecodeFields(j.fields, de, None, None) else Err(NotAnObject(j))
  }

  /** An object naming neither `RetCode` nor `Selector` fails on the missing `RetCode`,
      whatever else it carries. */
  lemma DecodeNeedsRenamedKeys(fields: seq<(string, Json)>, de: string -> Result<Selector, DeError>)
    requires forall k :: 0 <= k < |fields| ==> fields[k].0 != "RetCode" && fields[k].0 != "Selector"
    ensures DecodeResponseSyncCheck(JObj(fields), de) == Err(MissingField("RetCode"))
    ensures DecodeErrorText(DecodeResponseSyncCheck(JObj(fields), de).error) == "missing field `RetCode`"
  {
  }

  /** The object with exactly the renamed keys decodes to the code text and the decoded
      selector, or fails with the selector's own error. */
  lemma {:induction false} DecodeRenamedObject(code: string, sel: string, de: string -> Result<Selector, DeError>)
    ensures var r := DecodeResponseSyncCheck(JObj([("RetCode", JStr(code)), ("Selector", JStr(sel))]), de);
      (r.Ok? <==> de(sel).Ok?) &&
      (r.Ok? ==> r.value == ResponseSyncCheck(code, de(sel).value) && (r.value.IsSuccess() <==> code == "0")) &&
      (r.Err? ==> r.error == BadSelector(de(sel).error))
  {
    var fs := [("RetCode", JStr(code)), ("Selector", JStr(sel))];
    var rest := [("Selector", JStr(sel))];
    assert fs[1..] == rest && rest[1..] == [];
    assert DecodeFields(fs, de, None, None) == DecodeFields(rest, de, Some(code), None);
    match de(sel)
    case Err(e) =>
      assert DecodeFields(rest, de, Some(code), None) == Err(BadSelector(e));
    case Ok(x) =>
      assert DecodeFields(rest, de, Some(code), None) == DecodeFields([], de, Some(code), Some(x));
  }

  /** The backquoted list the as-written selector error prints. */
  lemma QuotedAsWritten()
    ensures Quoted(ExpectedAsWritten) == "`0`, `1`, `2`, `3`, `4`"
  {
    var l := ExpectedAsWritten;
    assert l[1..] == ["1", "2", "3", "4"] && l[1..][1..] == ["2", "3", "4"];
    assert l[1..][1..][1..] == ["3", "4"] && l[1..][1..][1..][1..] == ["4"];
  }

  /** serde's rendering of the as-written selector error. */
  lemma UnknownSelectorText()
    ensures DeErrorText(DeSelectorAsWritten("5").error) == "unknown variant `5`, expected one of " + Quoted(ExpectedAsWritten)
  {
  }
}
