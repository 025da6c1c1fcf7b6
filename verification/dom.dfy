/** The part of a web page the in-page script looks at: an element tree, addressed by
    paths of child indices, and the resolution of "the k-th child with this tag"
    steps that both selector syntaxes end in. */
module Dom {
  import opened Wrappers

  datatype Rect = Rect(x: real, y: real, width: real, height: real)

  /** The `className` property: a string on HTML elements, an animated string object on
      SVG elements. */
  datatype ClassName = ClassString(s: string) | AnimatedString

  /** The `value` property: a string (form controls), a number (li, progress, meter),
      or absent. */
  datatype PropValue = NoValue | StrValue(s: string) | NumValue(x: real)

  /** What the script reads from an element besides its tag, id and test id. Empty
      strings stand for properties the element does not have. */
  datatype Props = Props(
    innerText: string,
    textContent: string,
    placeholder: string,
    name: string,
    kind: string,          // the `type` property
    href: string,
    value: PropValue,
    className: ClassName,
    checked: bool,
    options: seq<string>,  // the option texts of a select element
    selectedIndex: int,
    rect: Rect)

  datatype Node = Node(tagName: string, id: string, testid: string, props: Props, children: seq<Node>)

  /** A page: the tree's root is the document element when `attached`, otherwise the
      root of a subtree that has no parent. */
  datatype Doc = Doc(root: Node, attached: bool)

  // ---------------------------------------------------------------------------
  // Paths
  // ---------------------------------------------------------------------------

  /** Child indices from the root; [] is the root itself. */
  type Path = seq<nat>

  function Parent(p: Path): Path
    requires p != []
  {
    p[..|p| - 1]
  }

  function Last(p: Path): nat
    requires p != []
  {
    p[|p| - 1]
  }

  /** A path is its parent's path extended by its last index, and shares every prefix
      no longer than the parent with it. */
  lemma ParentThenLast(p: Path, k: nat)
    requires p != [] && k <= |p| - 1
    ensures Parent(p) + [Last(p)] == p && p[..k] == Parent(p)[..k]
  {
  }

  predicate ValidPath(root: Node, p: Path)
    decreases |p|, 0
  {
    p == [] || (ValidPath(root, Parent(p)) && Last(p) < |At(root, Parent(p)).children|)
  }

  function At(root: Node, p: Path): Node
    requires ValidPath(root, p)
    decreases |p|, 1
  {
    if p == [] then root else At(root, Parent(p)).children[Last(p)]
  }

  lemma ChildPath(root: Node, p: Path, i: nat)
    requires ValidPath(root, p) && i < |At(root, p).children|
    ensures ValidPath(root, p + [i]) && At(root, p + [i]) == At(root, p).children[i]
  {
    assert Parent(p + [i]) == p;
  }

  // ---------------------------------------------------------------------------
  // Children with the same tag
  // ---------------------------------------------------------------------------

  /** How many of `cs` have tag `tag`. */
  function CountTag(cs: seq<Node>, tag: string): nat {
    if cs == [] then 0 else (if cs[0].tagName == tag then 1 else 0) + CountTag(cs[1..], tag)
  }

  /** The position of `cs[i]` among the children with its tag, from 0. */
  function RankTag(cs: seq<Node>, i: nat): nat
    requires i < |cs|
  {
    CountTag(cs[..i], cs[i].tagName)
  }

  /** The index of the k-th child (from 0) with tag `tag`, if there are that many. */
  function NthTag(cs: seq<Node>, tag: string, k: nat): (r: Option<nat>)
    ensures r.Some? ==> r.value < |cs| && cs[r.value].tagName == tag
  {
    if cs == [] then None
    else if cs[0].tagName == tag && k == 0 then Some(0)
    else
      var rest := NthTag(cs[1..], tag, if cs[0].tagName == tag then k - 1 else k);
      if rest.Some? then Some(rest.value + 1) else None
  }

  lemma CountTagAppend(a: seq<Node>, b: seq<Node>, tag: string)
    ensures CountTag(a + b, tag) == CountTag(a, tag) + CountTag(b, tag)
  {
    if a != [] {
      assert (a + b)[1..] == a[1..] + b;
      CountTagAppend(a[1..], b, tag);
    } else {
      assert a + b == b;
    }
  }

  /** A child is found again by its tag and its rank among that tag. */
  lemma {:induction false} NthTagOfRank(cs: seq<Node>, i: nat)
    requires i < |cs|
    ensures NthTag(cs, cs[i].tagName, RankTag(cs, i)) == Some(i)
  {
    var tag := cs[i].tagName;
    if i > 0 {
      assert cs[..i] == [cs[0]] + cs[1..][..i - 1];
      CountTagAppend([cs[0]], cs[1..][..i - 1], tag);
      assert cs[1..][i - 1] == cs[i];
      NthTagOfRank(cs[1..], i - 1);
    }
  }

  /** The rank is below the number of children with that tag. */
  lemma RankBelowCount(cs: seq<Node>, i: nat)
    requires i < |cs|
    ensures RankTag(cs, i) < CountTag(cs, cs[i].tagName)
  {
    assert cs == cs[..i] + cs[i..];
    CountTagAppend(cs[..i], cs[i..], cs[i].tagName);
    assert cs[i..] == [cs[i]] + cs[i + 1..];
  }

  /** The first element child with tag BODY of the document element: `document.body`. */
  predicate IsBody(d: Doc, p: Path) {
    d.attached && |p| == 1 && NthTag(d.root.children, "BODY", 0) == Some(p[0])
  }

  // ---------------------------------------------------------------------------
  // Child steps: "the child with this tag", or "the k-th child with this tag"
  // ---------------------------------------------------------------------------

  /** `nth` is the 1-based rank among same-tag siblings, present when the tag is shared. */
  datatype ChildStep = ChildStep(tag: string, nth: Option<nat>)

  /** The step both selector builders emit for child `i` of `parent`. */
  function StepTo(parent: Node, i: nat): ChildStep
    requires i < |parent.children|
  {
    var cs := parent.children;
    if CountTag(cs, cs[i].tagName) == 1 then ChildStep(cs[i].tagName, None)
    else ChildStep(cs[i].tagName, Some(RankTag(cs, i) + 1))
  }

  /** The one child a step designates among `cs`, or None when it designates none or
      several. */
  function Pick(cs: seq<Node>, st: ChildStep): (r: Option<nat>)
    ensures r.Some? ==> r.value < |cs| && cs[r.value].tagName == st.tag
  {
    match st.nth
    case None => if CountTag(cs, st.tag) == 1 then NthTag(cs, st.tag, 0) else None
    case Some(k) => if k >= 1 then NthTag(cs, st.tag, k - 1) else None
  }

  /** The step to a child designates exactly that child, and its index is between 1
      and the number of same-tag siblings. */
  lemma PickStepTo(parent: Node, i: nat)
    requires i < |parent.children|
    ensures Pick(parent.children, StepTo(parent, i)) == Some(i)
    ensures StepTo(parent, i).tag == parent.children[i].tagName
    ensures StepTo(parent, i).nth.Some? ==>
      1 <= StepTo(parent, i).nth.value <= CountTag(parent.children, parent.children[i].tagName)
  {
    NthTagOfRank(parent.children, i);
    RankBelowCount(parent.children, i);
  }

  /** The element reached from `at` by following `steps`, if every step designates
      exactly one child. */
  function Follow(root: Node, at: Path, steps: seq<ChildStep>): (r: Option<Path>)
    ensures r.Some? ==> ValidPath(root, r.value) && |r.value| == |at| + |steps| && r.value[..|at|] == at
    decreases |steps|
  {
    if !ValidPath(root, at) then None
    else if steps == [] then Some(at)
    else
      match Pick(At(root, at).children, steps[0])
      case None => None
      case Some(i) =>
        ChildPath(root, at, i);
        var r := Follow(root, at + [i], steps[1..]);
        assert r.Some? ==> r.value[..|at|] == r.value[..|at| + 1][..|at|];
        r
  }

  lemma {:induction false} FollowSnoc(root: Node, at: Path, steps: seq<ChildStep>, st: ChildStep)
    ensures Follow(root, at, steps + [st]) ==
      match Follow(root, at, steps)
      case None => None
      case Some(q) =>
        match Pick(At(root, q).children, st)
        case None => None
        case Some(i) => Some(q + [i])
    decreases |steps|
  {
    if ValidPath(root, at) {
      if steps == [] {
        assert [st][1..] == [];
        match Pick(At(root, at).children, st)
        case None =>
        case Some(i) => ChildPath(root, at, i);
      } else {
        assert (steps + [st])[0] == steps[0];
        assert (steps + [st])[1..] == steps[1..] + [st];
        match Pick(At(root, at).children, steps[0])
        case None =>
        case Some(i) =>
          ChildPath(root, at, i);
          FollowSnoc(root, at + [i], steps[1..], st);
      }
    }
  }

  /** Extending a resolved chain by the step to a child resolves to that child. */
  lemma FollowExtend(root: Node, anchor: Path, steps: seq<ChildStep>, q: Path, i: nat)
    requires Follow(root, anchor, steps) == Some(q)
    requires ValidPath(root, q) && i < |At(root, q).children|
    ensures Follow(root, anchor, steps + [StepTo(At(root, q), i)]) == Some(q + [i])
  {
    FollowSnoc(root, anchor, steps, StepTo(At(root, q), i));
    PickStepTo(At(root, q), i);
  }
}
