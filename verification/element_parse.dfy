/** Turning the page's element payload into an ElementInfo (events.py parse_element_info,
    then the field validation of the ElementInfo record).  Validation follows the
    record's declared field types: a string field accepts only a string, an optional
    string field a string or null, the bounding box a mapping of numbers. */
module ElementParse {
  import opened Wrappers
  import opened Json
  import opened Models

  /** The attributes that are kept, by their name in the parsed record. */
  const AttributeKeys: set<string> := {"id", "name", "type", "href", "class"}

  /** The payload entry each kept attribute is read from (`class` from `className`). */
  function Source(data: Payload, k: string): Option<Json> {
    if k == "id" then data.id
    else if k == "name" then data.name
    else if k == "type" then data.kind
    else if k == "href" then data.href
    else if k == "class" then data.className
    else None
  }

  /** The parsed record, before field validation: values are still payload values. */
  datatype ParsedElement = ParsedElement(
    selector: Json,
    xpath: Json,
    tagName: Json,
    text: Json,
    placeholder: Json,
    attributes: map<string, Json>,
    boundingBox: Json)

  /** parse_element_info: missing selector and tag name become empty strings, missing
      optional fields become null, and only the allow-listed attributes with a truthy
      value are kept. */
  function ParseElementInfo(data: Payload): (p: ParsedElement)
    ensures p.selector == (if data.selector.Some? then data.selector.value else JStr(""))
    ensures p.tagName == (if data.tagName.Some? then data.tagName.value else JStr(""))
    ensures p.xpath == (if data.xpath.Some? then data.xpath.value else JNull)
    ensures p.text == (if data.text.Some? then data.text.value else JNull)
    ensures p.placeholder == (if data.placeholder.Some? then data.placeholder.value else JNull)
    ensures forall k :: k in p.attributes <==> k in AttributeKeys && Source(data, k).Some? && Truthy(Source(data, k).value)
    ensures forall k :: k in p.attributes ==> p.attributes[k] == Source(data, k).value
  {
    ParsedElement(
      Get(data.selector, JStr("")),
      Get(data.xpath, JNull),
      Get(data.tagName, JStr("")),
      Get(data.text, JNull),
      Get(data.placeholder, JNull),
      map k | k in AttributeKeys && Source(data, k).Some? && Truthy(Source(data, k).value) :: Source(data, k).value,
      Get(data.boundingBox, JObj(map[])))
  }

  // ---------------------------------------------------------------------------
  // Field validation
  // ---------------------------------------------------------------------------

  /** A `str` field. */
  function AsStr(v: Json): (r: Option<string>)
    ensures r.Some? <==> v.JStr?
    ensures r.Some? ==> v == JStr(r.value)
  {
    if v.JStr? then Some(v.s) else None
  }

  /** A `str | None` field: the outer option is the verdict, the inner one the value. */
  function AsOptStr(v: Json): (r: Option<Option<string>>)
    ensures r.Some? <==> v.JStr? || v.JNull?
    ensures r == Some(None) <==> v.JNull?
    ensures forall s :: r == Some(Some(s)) <==> v == JStr(s)
  {
    match v
    case JNull => Some(None)
    case JStr(s) => Some(Some(s))
    case _ => None
  }

  /** A `dict[str, str]` field. */
  function AsStrMap(m: map<string, Json>): (r: Option<map<string, string>>)
    ensures r.Some? <==> forall k :: k in m ==> m[k].JStr?
    ensures r.Some? ==> r.value.Keys == m.Keys && forall k :: k in m ==> m[k] == JStr(r.value[k])
  {
    if forall k :: k in m ==> m[k].JStr? then Some(map k | k in m :: m[k].s) else None
  }

  /** A `float` field: numbers and booleans are accepted. */
  function AsFloat(v: Json): (r: Option<real>)
    ensures r.Some? <==> v.JInt? || v.JReal? || v.JBool?
    ensures v.JInt? ==> r == Some(v.i as real)
    ensures v.JReal? ==> r == Some(v.r)
  {
    match v
    case JInt(i) => Some(i as real)
    case JReal(x) => Some(x)
    case JBool(b) => Some(if b then 1.0 else 0.0)
    case _ => None
  }

  /** A `dict[str, float]` field. */
  function AsFloatMap(v: Json): (r: Option<map<string, real>>)
    ensures r.Some? <==> v.JObj? && forall k :: k in v.fields ==> AsFloat(v.fields[k]).Some?
    ensures r.Some? ==> r.value.Keys == v.fields.Keys
    ensures r.Some? ==> forall k :: k in r.value ==> AsFloat(v.fields[k]) == Some(r.value[k])
  {
    if v.JObj? && forall k :: k in v.fields ==> AsFloat(v.fields[k]).Some? then
      Some(map k | k in v.fields :: AsFloat(v.fields[k]).value)
    else
      None
  }

  /** Construction of the ElementInfo record: succeeds exactly when every field has its
      declared type, and then carries the parsed values unchanged. */
  function ValidateElement(p: ParsedElement): (r: Option<ElementInfo>)
    ensures r.Some? <==>
      && p.selector.JStr? && p.tagName.JStr?
      && AsOptStr(p.xpath).Some? && AsOptStr(p.text).Some? && AsOptStr(p.placeholder).Some?
      && AsStrMap(p.attributes).Some? && AsFloatMap(p.boundingBox).Some?
    ensures r.Some? ==>
      && p.selector == JStr(r.value.selector) && p.tagName == JStr(r.value.tagName)
      && AsOptStr(p.xpath) == Some(r.value.xpath)
      && AsOptStr(p.text) == Some(r.value.text)
      && AsOptStr(p.placeholder) == Some(r.value.placeholder)
      && AsStrMap(p.attributes) == Some(r.value.attributes)
      && AsFloatMap(p.boundingBox) == Some(r.value.boundingBox)
  {
    match (AsStr(p.selector), AsOptStr(p.xpath), AsStr(p.tagName), AsOptStr(p.text),
           AsOptStr(p.placeholder), AsStrMap(p.attributes), AsFloatMap(p.boundingBox))
    case (Some(sel), Some(xp), Some(tag), Some(txt), Some(ph), Some(attrs), Some(bb)) =>
      Some(ElementInfo(sel, xp, tag, txt, ph, attrs, bb))
    case _ => None
  }

  /** The element of an action payload, or None when the record cannot be built. */
  function BuildElement(data: Payload): Option<ElementInfo> {
    ValidateElement(ParseElementInfo(data))
  }

  /** Two payloads that agree on every key parse_element_info reads. */
  predicate SameElementFields(a: Payload, b: Payload) {
    && a.selector == b.selector && a.xpath == b.xpath && a.tagName == b.tagName
    && a.text == b.text && a.placeholder == b.placeholder && a.id == b.id && a.name == b.name
    && a.kind == b.kind && a.href == b.href && a.className == b.className && a.boundingBox == b.boundingBox
  }

  /** The event type, value, key and selected text have no influence on the element. */
  lemma BuildReadsElementFields(a: Payload, b: Payload)
    requires SameElementFields(a, b)
    ensures BuildElement(a) == BuildElement(b)
  {
    assert forall k :: Source(a, k) == Source(b, k);
    assert ParseElementInfo(a).attributes == ParseElementInfo(b).attributes;
  }

  /** Every attribute of a built element is allow-listed, non-empty and copied verbatim
      from its payload key. */
  lemma BuildElementAttributes(data: Payload)
    requires BuildElement(data).Some?
    ensures var e := BuildElement(data).value;
      && e.attributes.Keys <= AttributeKeys
      && forall k :: k in e.attributes ==>
           e.attributes[k] != "" && Source(data, k) == Some(JStr(e.attributes[k]))
  {
    var p := ParseElementInfo(data);
    var e := BuildElement(data).value;
    forall k | k in e.attributes
      ensures e.attributes[k] != "" && Source(data, k) == Some(JStr(e.attributes[k]))
    {
      assert k in p.attributes;
      assert p.attributes[k] == JStr(e.attributes[k]);
    }
  }

  /** An allow-listed attribute with a non-string truthy value (a number, say) makes the
      whole element unbuildable. */
  lemma NonStringAttributeRejects(data: Payload, k: string)
    requires k in AttributeKeys && Source(data, k).Some?
    requires Truthy(Source(data, k).value) && !Source(data, k).value.JStr?
    ensures BuildElement(data).None?
  {
    var p := ParseElementInfo(data);
    assert k in p.attributes;
  }
}
