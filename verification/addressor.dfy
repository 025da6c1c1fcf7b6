/** The two element addresses the page script computes (events.py getCssSelector and
    getXPath).  Each walks from the element towards the root until it reaches an
    element it can name directly (the anchor), and writes one child step per level on
    the way back down.  CSS.escape and the document-wide selector count are browser
    primitives this model does not define; they are the `Browser` parameter. */
module Addressor {
  import opened Wrappers
  import opened Strings
  import opened Dom

  datatype QueryResult = Matches(count: nat) | InvalidSelector

  /** `CSS.escape` and `document.querySelectorAll(sel).length`, which throws on a
      selector it cannot parse. */
  datatype Browser = Browser(escape: string -> string, query: string -> QueryResult)

  datatype Syntax = Css(browser: Browser) | XPath

  /** An address read as: the anchor element, written `head`, then child steps. */
  datatype Locator = Locator(anchor: Path, head: string, steps: seq<ChildStep>)

  // ---------------------------------------------------------------------------
  // Anchors
  // ---------------------------------------------------------------------------

  /** The tag name followed by each class of the element, as a compound selector;
      None when the class attribute is not a string or holds no class. */
  function ClassCandidate(n: Node): (r: Option<string>)
    ensures r.Some? ==> n.props.className.ClassString? && |Words(Trim(n.props.className.s))| > 0
  {
    match n.props.className
    case ClassString(s) =>
      if s == "" then None
      else
        var classes := Words(Trim(s));
        if |classes| > 0 then Some(ToLower(n.tagName) + "." + Join(classes, ".")) else None
    case _ => None
  }

  /** The class candidate when it matches exactly one element of the page.  A
      candidate the browser cannot parse counts as not unique. */
  function UniqueClass(b: Browser, n: Node): (r: Option<string>)
    ensures r.Some? <==> ClassCandidate(n).Some? && b.query(ClassCandidate(n).value) == Matches(1)
    ensures r.Some? ==> r == ClassCandidate(n)
  {
    match ClassCandidate(n)
    case None => None
    case Some(sel) => if b.query(sel) == Matches(1) then Some(sel) else None
  }

  /** Where the CSS walk stops: the document element or body, an id, a test id, a
      unique class combination, or a root without a parent. */
  function CssHead(d: Doc, b: Browser, p: Path): (r: Option<string>)
    requires ValidPath(d.root, p)
    ensures r.None? <==>
      p != [] && !IsBody(d, p) && At(d.root, p).id == "" && At(d.root, p).testid == ""
      && UniqueClass(b, At(d.root, p)).None?
    ensures d.attached && (p == [] || IsBody(d, p)) ==> r == Some("body")
    ensures r.Some? && At(d.root, p).id != "" ==> r == Some("body") || r == Some("#" + b.escape(At(d.root, p).id))
  {
    var n := At(d.root, p);
    if d.attached && (p == [] || IsBody(d, p)) then Some("body")
    else if n.id != "" then Some("#" + b.escape(n.id))
    else if n.testid != "" then Some("[data-testid=\"" + n.testid + "\"]")
    else if UniqueClass(b, n).Some? then UniqueClass(b, n)
    else if p == [] then Some(ToLower(n.tagName))
    else None
  }

  /** Where the XPath walk stops: an id, the body, or the root. */
  function XPathHead(d: Doc, p: Path): (r: Option<string>)
    requires ValidPath(d.root, p)
    ensures r.None? <==> p != [] && At(d.root, p).id == "" && !IsBody(d, p)
    ensures At(d.root, p).id != "" ==> r == Some("//*[@id=\"" + At(d.root, p).id + "\"]")
  {
    var n := At(d.root, p);
    if n.id != "" then Some("//*[@id=\"" + n.id + "\"]")
    else if IsBody(d, p) then Some("/html/body")
    else if p == [] then Some("/" + ToLower(n.tagName))
    else None
  }

  function Head(syn: Syntax, d: Doc, p: Path): (r: Option<string>)
    requires ValidPath(d.root, p)
    ensures p == [] ==> r.Some?
  {
    match syn
    case Css(b) => CssHead(d, b, p)
    case XPath => XPathHead(d, p)
  }

  /** One child step in each syntax: `:nth-of-type(k)` and `[k]` only when the tag is
      shared with a sibling. */
  function Seg(syn: Syntax, st: ChildStep): string {
    match syn
    case Css(_) => " > " + ToLower(st.tag) + (if st.nth.Some? then ":nth-of-type(" + Dec(st.nth.value) + ")" else "")
    case XPath => "/" + ToLower(st.tag) + (if st.nth.Some? then "[" + Dec(st.nth.value) + "]" else "")
  }

  // ---------------------------------------------------------------------------
  // The two walks
  // ---------------------------------------------------------------------------

  /** getCssSelector / getXPath: the anchor's head when the element is an anchor,
      otherwise the parent's address followed by the step to this child. */
  function Address(syn: Syntax, d: Doc, p: Path): string
    requires ValidPath(d.root, p)
    decreases |p|
  {
    match Head(syn, d, p)
    case Some(h) => h
    case None => Address(syn, d, Parent(p)) + Seg(syn, StepTo(At(d.root, Parent(p)), Last(p)))
  }

  function CssSelector(d: Doc, b: Browser, p: Path): string
    requires ValidPath(d.root, p)
  {
    Address(Css(b), d, p)
  }

  function XPathOf(d: Doc, p: Path): string
    requires ValidPath(d.root, p)
  {
    Address(XPath, d, p)
  }

  /** The same walk, keeping the anchor and the steps apart. */
  function Locate(syn: Syntax, d: Doc, p: Path): (l: Locator)
    requires ValidPath(d.root, p)
    decreases |p|
  {
    match Head(syn, d, p)
    case Some(h) => Locator(p, h, [])
    case None =>
      var l := Locate(syn, d, Parent(p));
      Locator(l.anchor, l.head, l.steps + [StepTo(At(d.root, Parent(p)), Last(p))])
  }

  function Segs(syn: Syntax, steps: seq<ChildStep>): string {
    if steps == [] then "" else Segs(syn, steps[..|steps| - 1]) + Seg(syn, steps[|steps| - 1])
  }

  function Render(syn: Syntax, l: Locator): string {
    l.head + Segs(syn, l.steps)
  }

  /** The address is the rendering of the locator. */
  lemma {:induction false} AddressIsRendered(syn: Syntax, d: Doc, p: Path)
    requires ValidPath(d.root, p)
    ensures Address(syn, d, p) == Render(syn, Locate(syn, d, p))
    decreases |p|
  {
    if Head(syn, d, p).None? {
      var q := Parent(p);
      var st := StepTo(At(d.root, q), Last(p));
      var l := Locate(syn, d, q);
      AddressIsRendered(syn, d, q);
      assert Address(syn, d, p) == Address(syn, d, q) + Seg(syn, st);
      assert Locate(syn, d, p) == Locator(l.anchor, l.head, l.steps + [st]);
      assert (l.steps + [st])[..|l.steps|] == l.steps;
      assert Segs(syn, l.steps + [st]) == Segs(syn, l.steps) + Seg(syn, st);
    }
  }

  /** The locator's anchor is an ancestor-or-self of the element whose head is the one
      written, and following its steps from there designates exactly the element. */
  lemma {:induction false} LocateResolves(syn: Syntax, d: Doc, p: Path)
    requires ValidPath(d.root, p)
    ensures var l := Locate(syn, d, p);
      && |l.anchor| <= |p| && p[..|l.anchor|] == l.anchor
      && ValidPath(d.root, l.anchor) && Head(syn, d, l.anchor) == Some(l.head)
      && Follow(d.root, l.anchor, l.steps) == Some(p)
    decreases |p|
  {
    if Head(syn, d, p).None? {
      var q := Parent(p);
      var l := Locate(syn, d, q);
      LocateUnfold(syn, d, p);
      LocateResolves(syn, d, q);
      FollowExtend(d.root, l.anchor, l.steps, q, Last(p));
      ParentThenLast(p, |l.anchor|);
    } else {
      assert p[..|p|] == p;
    }
  }

  lemma LocateUnfold(syn: Syntax, d: Doc, p: Path)
    requires ValidPath(d.root, p) && Head(syn, d, p).None?
    ensures p != [] && ValidPath(d.root, Parent(p)) && Last(p) < |At(d.root, Parent(p)).children|
    ensures var l := Locate(syn, d, Parent(p));
      Locate(syn, d, p) == Locator(l.anchor, l.head, l.steps + [StepTo(At(d.root, Parent(p)), Last(p))])
  {
  }

  /** The elements of the page the head written for anchor `a` selects, by the kind
      of anchor it names: `#id` and the XPath id test every element with that id,
      `[data-testid="t"]` every element with that test id, `body` and `/html/body` the
      body (the CSS head of the document element is `body` too), a class combination
      the anchor alone, a bare tag every element with that tag, and `/tag` the
      document element.  The class case is a modelling choice: the browser's query
      only counts one match, and class names are not escaped, so a class such as
      `a.b` can make that match an element other than the anchor; the model does not
      capture that.  A tree that is not attached is not part of the document the
      address is used on, so nothing in it is selected. */
  predicate HeadSelects(syn: Syntax, d: Doc, a: Path, q: Path)
    requires ValidPath(d.root, a) && ValidPath(d.root, q)
  {
    var n := At(d.root, a);
    var m := At(d.root, q);
    d.attached &&
    match syn
    case Css(b) =>
      if a == [] || IsBody(d, a) then IsBody(d, q)
      else if n.id != "" then m.id == n.id
      else if n.testid != "" then m.testid == n.testid
      else if UniqueClass(b, n).Some? then q == a
      else ToLower(m.tagName) == ToLower(n.tagName)
    case XPath =>
      if n.id != "" then m.id == n.id
      else if IsBody(d, a) then IsBody(d, q)
      else q == []
  }

  /** The head selects its anchor and nothing else. */
  ghost predicate NamesAnchorAlone(syn: Syntax, d: Doc, a: Path)
    requires ValidPath(d.root, a)
  {
    HeadSelects(syn, d, a, a) && forall q :: ValidPath(d.root, q) && HeadSelects(syn, d, a, q) ==> q == a
  }

  /** Both addresses are their anchor's head and the child steps, and following the
      steps from the anchor designates exactly the element.  Where the head names its
      anchor alone, every element the address selects is the element itself. */
  lemma AddressesResolve(d: Doc, b: Browser, p: Path)
    requires ValidPath(d.root, p)
    ensures var l := Locate(Css(b), d, p);
      && CssSelector(d, b, p) == Render(Css(b), l) && Follow(d.root, l.anchor, l.steps) == Some(p)
      && (NamesAnchorAlone(Css(b), d, l.anchor) ==>
            forall q :: ValidPath(d.root, q) && HeadSelects(Css(b), d, l.anchor, q) ==> Follow(d.root, q, l.steps) == Some(p))
    ensures var l := Locate(XPath, d, p);
      && XPathOf(d, p) == Render(XPath, l) && Follow(d.root, l.anchor, l.steps) == Some(p)
      && (NamesAnchorAlone(XPath, d, l.anchor) ==>
            forall q :: ValidPath(d.root, q) && HeadSelects(XPath, d, l.anchor, q) ==> Follow(d.root, q, l.steps) == Some(p))
  {
    AddressIsRendered(Css(b), d, p);
    LocateResolves(Css(b), d, p);
    AddressIsRendered(XPath, d, p);
    LocateResolves(XPath, d, p);
  }

  /** In an attached tree every anchor's head selects the anchor, except the CSS head
      of the document element, which is `body` and selects the body instead. */
  lemma HeadSelectsAnchor(syn: Syntax, d: Doc, a: Path)
    requires ValidPath(d.root, a) && Head(syn, d, a).Some?
    ensures HeadSelects(syn, d, a, a) <==> d.attached && !(syn.Css? && a == [])
  {
  }

  /** Two elements sharing an id: the XPath of the first stops at its id and also
      selects the second, so the address does not name its element alone. */
  lemma DuplicateIdAmbiguous(d: Doc, p: Path, q: Path)
    requires d.attached && ValidPath(d.root, p) && ValidPath(d.root, q) && p != q
    requires At(d.root, p).id != "" && At(d.root, q).id == At(d.root, p).id
    ensures Locate(XPath, d, p).anchor == p && Locate(XPath, d, p).steps == []
    ensures HeadSelects(XPath, d, p, q) && Follow(d.root, q, []) == Some(q)
    ensures !NamesAnchorAlone(XPath, d, p)
  {
  }

  /** Two elements sharing a test id, the first with no id, outside the body and
      document element: its CSS selector is the test-id head and selects the second
      too. */
  lemma DuplicateTestIdAmbiguous(d: Doc, b: Browser, p: Path, q: Path)
    requires d.attached && ValidPath(d.root, p) && ValidPath(d.root, q) && p != q
    requires p != [] && !IsBody(d, p)
    requires At(d.root, p).id == "" && At(d.root, p).testid != "" && At(d.root, q).testid == At(d.root, p).testid
    ensures Locate(Css(b), d, p).anchor == p && Locate(Css(b), d, p).steps == []
    ensures HeadSelects(Css(b), d, p, q) && Follow(d.root, q, []) == Some(q)
    ensures !NamesAnchorAlone(Css(b), d, p)
  {
  }

  // ---------------------------------------------------------------------------
  // The CSS walk as written: the class query may throw
  // ---------------------------------------------------------------------------

  /** CssHead with the query's exception propagated. */
  function CssHeadAsWritten(d: Doc, b: Browser, p: Path): (r: Result<Option<string>, string>)
    requires ValidPath(d.root, p)
    ensures r.Success? ==> r.value == CssHead(d, b, p)
  {
    var n := At(d.root, p);
    if d.attached && (p == [] || IsBody(d, p)) then Success(Some("body"))
    else if n.id != "" then Success(Some("#" + b.escape(n.id)))
    else if n.testid != "" then Success(Some("[data-testid=\"" + n.testid + "\"]"))
    else if ClassCandidate(n).Some? && b.query(ClassCandidate(n).value) == InvalidSelector then Failure("SyntaxError")
    else if UniqueClass(b, n).Some? then Success(UniqueClass(b, n))
    else if p == [] then Success(Some(ToLower(n.tagName)))
    else Success(None)
  }

  function CssSelectorAsWritten(d: Doc, b: Browser, p: Path): Result<string, string>
    requires ValidPath(d.root, p)
    decreases |p|
  {
    match CssHeadAsWritten(d, b, p)
    case Failure(e) => Failure(e)
    case Success(Some(h)) => Success(h)
    case Success(None) =>
      if p == [] then Success("")
      else
        match CssSelectorAsWritten(d, b, Parent(p))
        case Failure(e) => Failure(e)
        case Success(s) => Success(s + Seg(Css(b), StepTo(At(d.root, Parent(p)), Last(p))))
  }

  /** Where the selector as written produces one, it is the corrected selector. */
  lemma {:induction false} AsWrittenAgrees(d: Doc, b: Browser, p: Path)
    requires ValidPath(d.root, p)
    ensures CssSelectorAsWritten(d, b, p).Success? ==> CssSelectorAsWritten(d, b, p).value == CssSelector(d, b, p)
    decreases |p|
  {
    if CssHeadAsWritten(d, b, p).Success? && CssHeadAsWritten(d, b, p).value.None? && p != [] {
      AsWrittenAgrees(d, b, Parent(p));
    }
  }

  /** An element with no id and no test id, outside the body and document element, whose
      class combination the browser cannot parse: the selector as written throws, so the
      event is never reported. */
  lemma AsWrittenThrows(d: Doc, b: Browser, p: Path)
    requires ValidPath(d.root, p) && p != [] && !IsBody(d, p)
    requires At(d.root, p).id == "" && At(d.root, p).testid == ""
    requires ClassCandidate(At(d.root, p)).Some? && b.query(ClassCandidate(At(d.root, p)).value) == InvalidSelector
    ensures CssSelectorAsWritten(d, b, p).Failure?
    ensures CssHead(d, b, p).None?
  {
  }

  /** The class attribute `md:flex` on a div gives the candidate `div.md:flex`, which a
      selector parser reads as a pseudo-class and rejects. */
  lemma ColonClassCandidate(n: Node)
    requires n.tagName == "DIV" && n.props.className == ClassString("md:flex")
    ensures ClassCandidate(n) == Some("div" + "." + "md:flex")
  {
    var s := "md:flex";
    assert forall i :: 0 <= i < |s| ==> !IsJsSpace(s[i]);
    OneClassCandidate(n, s);
    assert ToLower("DIV") == "div" by {
      forall i | 0 <= i < 3 ensures ToLower("DIV")[i] == "div"[i] { }
    }
  }

  /** A class attribute holding one class name gives the lower-case tag, a dot and
      that name. */
  lemma OneClassCandidate(n: Node, c: string)
    requires n.props.className == ClassString(c)
    requires c != [] && forall i :: 0 <= i < |c| ==> !IsJsSpace(c[i])
    ensures ClassCandidate(n) == Some(ToLower(n.tagName) + "." + c)
  {
    WordsOfOneWord(c);
    assert Join([c], ".") == c;
  }
}
