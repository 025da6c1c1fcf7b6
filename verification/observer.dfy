/** The event listeners of the page script (events.py, EVENT_LISTENER_JS): what each
    listener sends to the host for an event on an element, and when it sends nothing.
    The input listener's timer state is in the PageScript module. */
module Observer {
  import opened Wrappers
  import opened Strings
  import opened Json
  import opened Dom
  import opened Addressor
  import opened Models
  import opened ElementParse

  /** The id of the injected control panel's root element. */
  const PanelId := "__testcaseer_panel__"

  const SpecialKeys: seq<string> := ["Enter", "Escape", "Tab"]

  /** `el.closest('#__testcaseer_panel__') !== null`: the element or an ancestor is the
      panel. */
  predicate InPanel(root: Node, p: Path)
    requires ValidPath(root, p)
    decreases |p|
  {
    At(root, p).id == PanelId || (p != [] && InPanel(root, Parent(p)))
  }

  // ---------------------------------------------------------------------------
  // From page values to payload values
  // ---------------------------------------------------------------------------

  /** A JavaScript number as it reaches the host: integral values as integers. */
  function Num(x: real): (r: Json)
    ensures AsFloat(r) == Some(x)
  {
    if x == x.Floor as real then JInt(x.Floor) else JReal(x)
  }

  function ValueJson(v: PropValue): Json {
    match v
    case NoValue => JNull
    case StrValue(s) => JStr(s)
    case NumValue(x) => Num(x)
  }

  /** An animated string has no own properties and arrives as an empty object. */
  function ClassJson(c: ClassName): Json {
    match c
    case ClassString(s) => JStr(s)
    case AnimatedString => JObj(map[])
  }

  /** `innerText || textContent || ''`. */
  function VisibleText(n: Node): string {
    if n.props.innerText != "" then n.props.innerText else n.props.textContent
  }

  /** The text the record carries: the first 100 characters, trimmed. */
  function ShortText(n: Node): (t: string)
    ensures |t| <= 100
  {
    var t := Take(VisibleText(n), 100);
    TrimShorter(t);
    Trim(t)
  }

  /** The string behind each kept attribute, empty when the element has none. */
  function AttrText(n: Node, k: string): string {
    if k == "id" then n.id
    else if k == "name" then n.props.name
    else if k == "type" then n.props.kind
    else if k == "href" then n.props.href
    else if k == "class" && n.props.className.ClassString? then n.props.className.s
    else ""
  }

  /** The attributes an element's record ends up with on the host. */
  function ElementAttributes(n: Node): map<string, string> {
    map k | k in AttributeKeys && AttrText(n, k) != "" :: AttrText(n, k)
  }

  function BoxJson(r: Rect): Json {
    JObj(map["x" := Num(r.x), "y" := Num(r.y), "width" := Num(r.width), "height" := Num(r.height)])
  }

  function BoxMap(r: Rect): map<string, real> {
    map["x" := r.x, "y" := r.y, "width" := r.width, "height" := r.height]
  }

  /** An optional property as sent: null, or a non-empty string. */
  predicate NullOrText(v: Option<Json>) {
    v == Some(JNull) || (v.Some? && v.value.JStr? && v.value.s != "")
  }

  /** getElementInfo: the record describing an element. Absent or empty optional
      properties are sent as null. */
  function ElementPayload(d: Doc, b: Browser, p: Path): (m: Payload)
    requires ValidPath(d.root, p)
    ensures m.selector == Some(JStr(CssSelector(d, b, p))) && m.xpath == Some(JStr(XPathOf(d, p)))
    ensures m.text.Some? && m.text.value.JStr? && |m.text.value.s| <= 100
    ensures m.eventType.None? && m.key.None? && m.selectedText.None?
    ensures NullOrText(m.placeholder) && NullOrText(m.id) && NullOrText(m.name)
    ensures NullOrText(m.kind) && NullOrText(m.href)
  {
    NodePayload(At(d.root, p), CssSelector(d, b, p), XPathOf(d, p))
  }

  /** The record of element `n` once its two addresses are known. */
  function NodePayload(n: Node, selector: string, xpath: string): Payload {
    Payload(
      eventType := None,
      selector := Some(JStr(selector)),
      xpath := Some(JStr(xpath)),
      tagName := Some(JStr(ToLower(n.tagName))),
      text := Some(JStr(ShortText(n))),
      placeholder := Some(OrNull(JStr(n.props.placeholder))),
      id := Some(OrNull(JStr(n.id))),
      name := Some(OrNull(JStr(n.props.name))),
      kind := Some(OrNull(JStr(n.props.kind))),
      href := Some(OrNull(JStr(n.props.href))),
      className := Some(OrNull(ClassJson(n.props.className))),
      boundingBox := Some(BoxJson(n.props.rect)),
      value := Some(OrNull(ValueJson(n.props.value))),
      key := None,
      selectedText := None)
  }

  lemma AttributesArrive(n: Node, selector: string, xpath: string)
    ensures AsStrMap(ParseElementInfo(NodePayload(n, selector, xpath)).attributes) == Some(ElementAttributes(n))
  {
    var attrs := ParseElementInfo(NodePayload(n, selector, xpath)).attributes;
    var want := ElementAttributes(n);
    forall k | k in AttributeKeys
      ensures k in attrs <==> AttrText(n, k) != ""
      ensures k in attrs ==> attrs[k] == JStr(AttrText(n, k))
    {
      AttributeArrives(n, selector, xpath, k);
    }
    assert attrs.Keys == want.Keys;
    StrMapOf(attrs, want);
  }

  /** A map of JSON strings reads back as the map of those strings. */
  lemma StrMapOf(m: map<string, Json>, want: map<string, string>)
    requires m.Keys == want.Keys && forall k :: k in m ==> m[k] == JStr(want[k])
    ensures AsStrMap(m) == Some(want)
  {
    assert forall k :: k in m ==> m[k].JStr?;
    var r := AsStrMap(m).value;
    assert r.Keys == want.Keys;
    assert forall k :: k in r ==> r[k] == want[k];
    assert r == want;
  }

  /** One kept attribute: present exactly when the element's string is non-empty, and
      then carrying that string. */
  lemma AttributeArrives(n: Node, selector: string, xpath: string, k: string)
    requires k in AttributeKeys
    ensures var attrs := ParseElementInfo(NodePayload(n, selector, xpath)).attributes;
      && (k in attrs <==> AttrText(n, k) != "")
      && (k in attrs ==> attrs[k] == JStr(AttrText(n, k)))
  {
    if k == "id" {
    } else if k == "name" {
    } else if k == "type" {
    } else if k == "href" {
    } else {
      assert k == "class";
    }
  }

  lemma BoxArrives(r: Rect)
    ensures AsFloatMap(BoxJson(r)) == Some(BoxMap(r))
  {
    var f := BoxJson(r).fields;
    var want := BoxMap(r);
    forall k | k in f
      ensures AsFloat(f[k]) == Some(want[k])
    {
      if k == "x" {
      } else if k == "y" {
      } else if k == "width" {
      } else {
        assert k == "height";
      }
    }
    var m := AsFloatMap(BoxJson(r)).value;
    assert m.Keys == want.Keys;
    assert forall k :: k in m ==> m[k] == want[k];
    assert m == want;
  }

  /** The host always accepts the record of a page element, with the selector, XPath,
      lower-cased tag and trimmed text the script computed, and exactly the non-empty
      string attributes. */
  lemma ElementPayloadBuilds(d: Doc, b: Browser, p: Path)
    requires ValidPath(d.root, p)
    ensures var n := At(d.root, p);
      BuildElement(ElementPayload(d, b, p)) ==
        Some(ElementInfo(CssSelector(d, b, p), Some(XPathOf(d, p)), ToLower(n.tagName), Some(ShortText(n)),
                         if n.props.placeholder == "" then None else Some(n.props.placeholder),
                         ElementAttributes(n), BoxMap(n.props.rect)))
  {
    var n := At(d.root, p);
    AttributesArrive(n, CssSelector(d, b, p), XPathOf(d, p));
    BoxArrives(n.props.rect);
  }

  // ---------------------------------------------------------------------------
  // Listeners
  // ---------------------------------------------------------------------------

  /** getElementInfo as the script runs it: it throws where getCssSelector throws (a
      class combination the browser cannot parse), and otherwise returns the record,
      whose selector is then the one the corrected walk computes. */
  function ElementRecord(d: Doc, b: Browser, p: Path): (r: Result<Payload, string>)
    requires ValidPath(d.root, p)
    ensures r.Failure? <==> CssSelectorAsWritten(d, b, p).Failure?
    ensures r.Success? ==> r.value == ElementPayload(d, b, p)
  {
    match CssSelectorAsWritten(d, b, p)
    case Failure(e) => Failure(e)
    case Success(sel) =>
      AsWrittenAgrees(d, b, p);
      Success(NodePayload(At(d.root, p), sel, XPathOf(d, p)))
  }

  /** The click and double-click listeners, `eventType` being "click" or "dblclick":
      the element record and the event type (the pointer position the click listener
      adds is not read by the host).  getElementInfo runs outside the listener's
      `try`, so when it throws nothing is sent. */
  function OnMouse(eventType: string, d: Doc, b: Browser, p: Path): (r: Option<Payload>)
    requires ValidPath(d.root, p)
    ensures r.None? <==> InPanel(d.root, p) || CssSelectorAsWritten(d, b, p).Failure?
    ensures r.Some? ==> r.value == ElementPayload(d, b, p).(eventType := Some(JStr(eventType)))
  {
    if InPanel(d.root, p) then None
    else
      match ElementRecord(d, b, p)
      case Failure(_) => None
      case Success(info) => Some(info.(eventType := Some(JStr(eventType))))
  }

  /** How the change listener classifies its target: checkboxes by their new state,
      radio buttons always as checked, select elements as selections; anything else is
      left to the input listener. */
  function ChangeEventType(n: Node): (r: Option<string>)
    ensures r == Some("check") <==> (n.props.kind == "checkbox" && n.props.checked) || n.props.kind == "radio"
    ensures r == Some("uncheck") <==> n.props.kind == "checkbox" && !n.props.checked
    ensures r == Some("select") <==> n.props.kind != "checkbox" && n.props.kind != "radio" && ToLower(n.tagName) == "select"
    ensures r.None? <==> n.props.kind != "checkbox" && n.props.kind != "radio" && ToLower(n.tagName) != "select"
  {
    if n.props.kind == "checkbox" then Some(if n.props.checked then "check" else "uncheck")
    else if n.props.kind == "radio" then Some("check")
    else if ToLower(n.tagName) == "select" then Some("select")
    else None
  }

  /** The text of the selected option, empty when no option is selected. */
  function SelectedText(n: Node): string {
    if 0 <= n.props.selectedIndex < |n.props.options| then n.props.options[n.props.selectedIndex] else ""
  }

  /** The change listener: the record is taken before the target is classified, so a
      throwing getElementInfo ends it whatever the target.  For a selection, the raw
      value and the selected option's text replace the record's value (the checked flag
      it adds for check boxes is not read by the host). */
  function OnChange(d: Doc, b: Browser, p: Path): (r: Option<Payload>)
    requires ValidPath(d.root, p)
    ensures r.None? <==>
      InPanel(d.root, p) || CssSelectorAsWritten(d, b, p).Failure? || ChangeEventType(At(d.root, p)).None?
    ensures r.Some? ==> r.value.eventType == Some(JStr(ChangeEventType(At(d.root, p)).value))
    ensures r.Some? && ChangeEventType(At(d.root, p)) == Some("select") ==>
      && r.value.value == Some(ValueJson(At(d.root, p).props.value))
      && r.value.selectedText == Some(JStr(SelectedText(At(d.root, p))))
    ensures r.Some? ==>
      r.value.(eventType := None, value := None, selectedText := None) == ElementPayload(d, b, p).(value := None)
  {
    var n := At(d.root, p);
    if InPanel(d.root, p) then None
    else
      match ElementRecord(d, b, p)
      case Failure(_) => None
      case Success(info) =>
        match ChangeEventType(n)
        case None => None
        case Some(ev) =>
          var m := info.(eventType := Some(JStr(ev)));
          if ev == "select" then Some(m.(value := Some(ValueJson(n.props.value)), selectedText := Some(JStr(SelectedText(n)))))
          else Some(m)
  }

  /** The keydown listener: only Enter, Escape and Tab are reported, and the record is
      taken after the key test. */
  function OnKeydown(d: Doc, b: Browser, p: Path, key: string): (r: Option<Payload>)
    requires ValidPath(d.root, p)
    ensures r.None? <==> InPanel(d.root, p) || key !in SpecialKeys || CssSelectorAsWritten(d, b, p).Failure?
    ensures r.Some? ==> r.value == ElementPayload(d, b, p).(eventType := Some(JStr("keypress")), key := Some(JStr(key)))
  {
    if InPanel(d.root, p) || key !in SpecialKeys then None
    else
      match ElementRecord(d, b, p)
      case Failure(_) => None
      case Success(info) => Some(info.(eventType := Some(JStr("keypress")), key := Some(JStr(key))))
  }

  /** An element addressed through a class combination the browser cannot parse (a
      `div` with `class="md:flex"`, no id and no test id): none of the listeners
      reports anything for it. */
  lemma UnparseableClassLosesEvents(d: Doc, b: Browser, p: Path, eventType: string, key: string)
    requires ValidPath(d.root, p) && p != [] && !IsBody(d, p)
    requires At(d.root, p).id == "" && At(d.root, p).testid == ""
    requires ClassCandidate(At(d.root, p)).Some? && b.query(ClassCandidate(At(d.root, p)).value) == InvalidSelector
    ensures OnMouse(eventType, d, b, p).None? && OnChange(d, b, p).None? && OnKeydown(d, b, p, key).None?
  {
    AsWrittenThrows(d, b, p);
  }

  /** Whatever a listener reports, the host builds the same element from it as from the
      bare element record. */
  lemma ListenerPayloadsBuild(d: Doc, b: Browser, p: Path, eventType: string, key: string)
    requires ValidPath(d.root, p)
    ensures var e := BuildElement(ElementPayload(d, b, p));
      && e.Some?
      && (OnMouse(eventType, d, b, p).Some? ==> BuildElement(OnMouse(eventType, d, b, p).value) == e)
      && (OnChange(d, b, p).Some? ==> BuildElement(OnChange(d, b, p).value) == e)
      && (OnKeydown(d, b, p, key).Some? ==> BuildElement(OnKeydown(d, b, p, key).value) == e)
  {
    ElementPayloadBuilds(d, b, p);
    var m := ElementPayload(d, b, p);
    if OnMouse(eventType, d, b, p).Some? {
      BuildReadsElementFields(OnMouse(eventType, d, b, p).value, m);
    }
    if OnChange(d, b, p).Some? {
      BuildReadsElementFields(OnChange(d, b, p).value, m);
    }
    if OnKeydown(d, b, p, key).Some? {
      BuildReadsElementFields(OnKeydown(d, b, p, key).value, m);
    }
  }
}
