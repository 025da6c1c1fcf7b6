/** Values the in-page script hands to the host, as Python sees them once the browser
    has serialised them: JSON scalars and objects.  JavaScript `null` and `undefined`
    both arrive as Python `None`. */
module Json {
  import opened Wrappers

  datatype Json =
    | JNull
    | JBool(b: bool)
    | JInt(i: int)      // a JavaScript number with an integral value
    | JReal(r: real)    // any other JavaScript number
    | JStr(s: string)
    | JObj(fields: map<string, Json>)

  /** The action record (`data: dict[str, Any]`), reduced to the keys the host reads;
      each field is the value under the key of that name (`type` for `kind`), None when
      the key is absent.  The other keys the script sends (`clientX`, `clientY`,
      `checked`, `attributes`) are never read by the host. */
  datatype Payload = Payload(
    eventType: Option<Json>,
    selector: Option<Json>,
    xpath: Option<Json>,
    tagName: Option<Json>,
    text: Option<Json>,
    placeholder: Option<Json>,
    id: Option<Json>,
    name: Option<Json>,
    kind: Option<Json>,
    href: Option<Json>,
    className: Option<Json>,
    boundingBox: Option<Json>,
    value: Option<Json>,
    key: Option<Json>,
    selectedText: Option<Json>)

  /** Python `data.get(key, default)` on one key of the record. */
  function Get(entry: Option<Json>, default: Json): (r: Json)
    ensures entry.Some? ==> r == entry.value
    ensures entry.None? ==> r == default
  {
    if entry.Some? then entry.value else default
  }

  /** Python truthiness (`if v:`, `a or b`). */
  predicate Truthy(v: Json) {
    match v
    case JNull => false
    case JBool(b) => b
    case JInt(i) => i != 0
    case JReal(r) => r != 0.0
    case JStr(s) => s != ""
    case JObj(m) => m != map[]
  }

  /** JavaScript truthiness, used for `x || null` in the page script: objects are
      always truthy there. */
  predicate JsTruthy(v: Json) {
    match v
    case JObj(_) => true
    case _ => Truthy(v)
  }

  /** JavaScript `x || null`. */
  function OrNull(v: Json): (r: Json)
    ensures JsTruthy(v) ==> r == v
    ensures !JsTruthy(v) ==> r == JNull
  {
    if JsTruthy(v) then v else JNull
  }
}
