/** The human-readable step descriptions (recorder.py `_generate_short_description` and
    `_generate_detailed_description`).  Formatting a payload value follows Python's
    `str()`; a description that Python cannot produce (taking `len` of a number, say)
    is a Failure carrying the exception's name. */
module Descriptions {
  import opened Wrappers
  import opened Strings
  import opened Json
  import opened Models

  /** Python `str(v)` for the payload values the descriptions print. */
  function Display(v: Json): string {
    match v
    case JNull => "None"
    case JBool(b) => if b then "True" else "False"
    case JInt(i) => IntStr(i)
    case JStr(s) => s
    case JReal(_) => "<float>"
    case JObj(_) => "<dict>"
  }

  /** The element as the description names it: the first 30 characters of its text,
      else its id attribute, else its placeholder, else its tag. */
  function Identifier(e: ElementInfo): (r: string)
    ensures e.text.Some? && e.text.value != "" ==> r == Take(e.text.value, 30) && r != ""
    ensures (e.text.None? || e.text.value == "") && "id" in e.attributes && e.attributes["id"] != "" ==>
      r == e.attributes["id"]
    ensures (e.text.None? || e.text.value == "") && ("id" !in e.attributes || e.attributes["id"] == "") ==>
      r == (if e.placeholder.Some? && e.placeholder.value != "" then e.placeholder.value else e.tagName)
  {
    if e.text.Some? && e.text.value != "" then Take(e.text.value, 30)
    else if "id" in e.attributes && e.attributes["id"] != "" then e.attributes["id"]
    else if e.placeholder.Some? && e.placeholder.value != "" then e.placeholder.value
    else e.tagName
  }

  /** A typed value as shown: values over 20 characters are cut to 20 and marked. */
  function ShownValue(v: string): (r: string)
    ensures |v| <= 20 ==> r == v
    ensures |v| > 20 ==> |r| == 23 && r[..20] == v[..20] && r[20..] == "..."
  {
    if |v| > 20 then v[..20] + "..." else v
  }

  /** The input case as written.  `len` is defined on strings and dicts: a string
      over 20 characters is cut, a dict of at most 20 entries is printed whole, and a
      larger dict raises at the slice `value[:20]`.  `len` of null, a boolean or a
      number raises TypeError. */
  function TypedTextAsWritten(value: Json): Result<string, string> {
    match value
    case JStr(s) => Success(ShownValue(s))
    case JObj(fields) => if |fields| <= 20 then Success(Display(value)) else Failure("TypeError")
    case _ => Failure("TypeError")
  }

  /** The input case with a null value read as the empty string. */
  function TypedText(value: Json): (r: Result<string, string>)
    ensures r.Failure? <==> !value.JStr? && !value.JNull? && !(value.JObj? && |value.fields| <= 20)
    ensures value.JNull? ==> r == Success("")
    ensures TypedTextAsWritten(value).Success? ==> r == TypedTextAsWritten(value)
  {
    if value.JNull? then Success("") else TypedTextAsWritten(value)
  }

  /** The description shared by both versions, given how the input case renders. */
  function Describe(a: ActionType, e: ElementInfo, data: Payload, typed: Result<string, string>): Result<string, string> {
    var id := Identifier(e);
    match a
    case Click => Success("Click on '" + id + "'")
    case Dblclick => Success("Double-click on '" + id + "'")
    case Input => if typed.Success? then Success("Type '" + typed.value + "' in " + id) else Failure(typed.error)
    case Select =>
      var selected := Get(data.selectedText, Get(data.value, JStr("")));
      Success("Select '" + Display(selected) + "' in " + id)
    case Check => Success("Check " + id)
    case Uncheck => Success("Uncheck " + id)
    case Keypress => Success("Press " + Display(Get(data.key, JStr(""))))
    case _ => Success(ActionName(a) + " on " + id)
  }

  function ShortDescriptionAsWritten(a: ActionType, e: ElementInfo, data: Payload): Result<string, string> {
    Describe(a, e, data, TypedTextAsWritten(Get(data.value, JStr(""))))
  }

  /** The short description of a step. */
  function ShortDescription(a: ActionType, e: ElementInfo, data: Payload): (r: Result<string, string>)
    ensures var v := Get(data.value, JStr(""));
      r.Failure? <==> a == Input && !v.JStr? && !v.JNull? && !(v.JObj? && |v.fields| <= 20)
    ensures a == Input && r.Success? ==>
      var v := Get(data.value, JStr(""));
      r.value == "Type '" + (if v.JStr? then ShownValue(v.s) else if v.JObj? then Display(v) else "") + "' in " + Identifier(e)
  {
    Describe(a, e, data, TypedText(Get(data.value, JStr(""))))
  }

  /** The detailed description: the short one and the element's selector on a second
      line. */
  function DetailedDescription(a: ActionType, e: ElementInfo, data: Payload): (r: Result<string, string>)
    ensures r.Success? <==> ShortDescription(a, e, data).Success?
    ensures r.Success? ==>
      && StartsWith(r.value, ShortDescription(a, e, data).value)
      && r.value[|ShortDescription(a, e, data).value|..] == "\nElement: " + e.selector
  {
    match ShortDescription(a, e, data)
    case Failure(err) => Failure(err)
    case Success(short) =>
      var r := short + "\nElement: " + e.selector;
      assert r[..|short|] == short;
      Success(r)
  }

  /** Every description except a key press names the element. */
  lemma DescriptionNamesElement(a: ActionType, e: ElementInfo, data: Payload)
    requires a != Keypress && ShortDescription(a, e, data).Success?
    ensures Contains(ShortDescription(a, e, data).value, Identifier(e))
  {
    var id := Identifier(e);
    var r := ShortDescription(a, e, data).value;
    match a
    case Click => ContainsInfix("Click on '", id, "'");
    case Dblclick => ContainsInfix("Double-click on '", id, "'");
    case Input =>
      var typed := TypedText(Get(data.value, JStr("")));
      ContainsInfix("Type '" + typed.value + "' in ", id, "");
      assert r == "Type '" + typed.value + "' in " + id + "";
    case Select =>
      var selected := Get(data.selectedText, Get(data.value, JStr("")));
      ContainsInfix("Select '" + Display(selected) + "' in ", id, "");
      assert r == "Select '" + Display(selected) + "' in " + id + "";
    case Check => ContainsInfix("Check ", id, ""); assert r == "Check " + id + "";
    case Uncheck => ContainsInfix("Uncheck ", id, ""); assert r == "Uncheck " + id + "";
    case Navigate | Scroll | Hover | Wait =>
      ContainsInfix(ActionName(a) + " on ", id, "");
      assert r == ActionName(a) + " on " + id + "";
    case Keypress =>
  }

  /** The correction only changes inputs the source fails on. */
  lemma ShortDescriptionExtendsAsWritten(a: ActionType, e: ElementInfo, data: Payload)
    ensures ShortDescriptionAsWritten(a, e, data).Success? ==>
      ShortDescription(a, e, data) == ShortDescriptionAsWritten(a, e, data)
  {
  }

  /** An input event whose value is null (typing into an editable element that is not a
      form control) has no description as written, hence no step. */
  lemma NullInputValueRaises(e: ElementInfo, data: Payload)
    requires data.value == Some(JNull)
    ensures ShortDescriptionAsWritten(Input, e, data) == Failure("TypeError")
    ensures ShortDescription(Input, e, data) == Success("Type '' in " + Identifier(e))
  {
    assert "Type '" + "" + "' in " == "Type '' in ";
  }
}
