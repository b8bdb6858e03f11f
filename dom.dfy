/**
 * The parsed HTML document as a tree, and the searches the scraper performs on it.
 * A search visits the DESCENDANTS of an element (never the element itself) in document
 * order, that is pre-order: an element comes before its children, which come before the
 * element's later siblings.
 */
module Dom {
  import opened Errors
  import Text

  /** The attributes the scraper reads. `classes` is the element's multi-valued `class`. */
  datatype Attrs = Attrs(
    id: Option<string>,
    classes: seq<string>,
    href: Option<string>,
    src: Option<string>,
    value: Option<string>)

  datatype Node =
    | TextNode(content: string)
    | Element(name: string, attrs: Attrs, children: seq<Node>)

  /** The search keys used: tag name, `id=`, `class_=`, and tag name plus a class prefix. */
  datatype Selector =
    | ByTag(tag: string)
    | ById(id: string)
    | ByClass(cls: string)
    | ByTagAndClassPrefix(tag: string, prefix: string)

  predicate Matches(n: Node, sel: Selector) {
    n.Element? &&
    match sel
    case ByTag(t) => n.name == t
    case ById(i) => n.attrs.id == Some(i)
    case ByClass(c) => c in n.attrs.classes
    case ByTagAndClassPrefix(t, p) =>
      n.name == t && exists c :: c in n.attrs.classes && Text.StartsWith(c, p)
  }

  /** Every element of a forest, in document order. */
  function Flatten(ns: seq<Node>): (r: seq<Node>)
    ensures forall x :: x in r ==> x.Element?
    ensures forall i :: 0 <= i < |ns| && ns[i].Element? ==> ns[i] in r
    decreases ns
  {
    if ns == [] then []
    else match ns[0]
      case TextNode(_) => Flatten(ns[1..])
      case Element(_, _, cs) => [ns[0]] + Flatten(cs) + Flatten(ns[1..])
  }

  /** The elements strictly below `n`, in document order. */
  function Descendants(n: Node): seq<Node> {
    if n.Element? then Flatten(n.children) else []
  }

  /** The text nodes of a forest, in document order. */
  function Strings(ns: seq<Node>): seq<string>
    decreases ns
  {
    if ns == [] then []
    else match ns[0]
      case TextNode(s) => [s] + Strings(ns[1..])
      case Element(_, _, cs) => Strings(cs) + Strings(ns[1..])
  }

  /** Each string stripped of surrounding whitespace; strings left empty are dropped. */
  function StripAll(ss: seq<string>): (r: seq<string>)
    ensures |r| <= |ss|
    ensures forall i :: 0 <= i < |r| ==> r[i] != [] && Text.Trimmed(r[i])
  {
    if ss == [] then []
    else
      var t := Text.Strip(ss[0]);
      var rest := StripAll(ss[1..]);
      (if t == [] then [] else [t]) + rest
  }

  /** Nothing is left exactly when every string is whitespace. */
  lemma {:induction false} StripAllEmpty(ss: seq<string>)
    ensures StripAll(ss) == [] <==> forall i :: 0 <= i < |ss| ==> Text.AllSpace(ss[i])
  {
    if ss != [] {
      Text.StripEmpty(ss[0]);
      StripAllEmpty(ss[1..]);
      assert forall i :: 1 <= i < |ss| ==> ss[i] == ss[1..][i - 1];
    }
  }

  /** bs4's `stripped_strings` of an element. */
  function StrippedStrings(n: Node): seq<string> {
    if n.Element? then StripAll(Strings(n.children)) else []
  }

  /** bs4's `.string`: the text of an element whose only child is text, or an element with a `.string`. */
  function StringOf(n: Node): Option<string> {
    match n
    case TextNode(s) => Some(s)
    case Element(_, _, cs) => if |cs| == 1 then StringOf(cs[0]) else None
  }

  /** Position of the first match in `ns`. */
  function FirstIndex(ns: seq<Node>, sel: Selector): (r: Option<nat>)
    ensures r.Some? ==> r.value < |ns| && Matches(ns[r.value], sel)
    ensures r.Some? ==> forall j :: 0 <= j < r.value ==> !Matches(ns[j], sel)
    ensures r.None? ==> forall j :: 0 <= j < |ns| ==> !Matches(ns[j], sel)
  {
    if ns == [] then None
    else if Matches(ns[0], sel) then Some(0)
    else match FirstIndex(ns[1..], sel)
      case None => None
      case Some(i) => Some(i + 1)
  }

  /** bs4's `find`: the first matching descendant, if any. */
  function Find(root: Node, sel: Selector): (r: Option<Node>)
    ensures r.Some? ==> Matches(r.value, sel) && r.value in Descendants(root)
  {
    match FirstIndex(Descendants(root), sel)
    case None => None
    case Some(i) => Some(Descendants(root)[i])
  }

  /** The matching members of `ns`, in their order. */
  function Filter(ns: seq<Node>, sel: Selector): (r: seq<Node>)
    ensures |r| <= |ns|
    ensures forall x :: x in r ==> x in ns && Matches(x, sel)
    ensures forall x :: x in ns && Matches(x, sel) ==> x in r
  {
    if ns == [] then []
    else (if Matches(ns[0], sel) then [ns[0]] else []) + Filter(ns[1..], sel)
  }

  /** bs4's `find_all` (a call on the element): every matching descendant, in document order. */
  function FindAll(root: Node, sel: Selector): seq<Node> {
    Filter(Descendants(root), sel)
  }

  /** `find` is the first result of `find_all`, and fails exactly when `find_all` is empty. */
  lemma {:induction false} FindIsFirstOfFindAll(ns: seq<Node>, sel: Selector)
    ensures FirstIndex(ns, sel).None? <==> Filter(ns, sel) == []
    ensures FirstIndex(ns, sel).Some? ==> Filter(ns, sel)[0] == ns[FirstIndex(ns, sel).value]
  {
    if ns != [] && !Matches(ns[0], sel) {
      FindIsFirstOfFindAll(ns[1..], sel);
    }
  }

  lemma FindAgreesWithFindAll(root: Node, sel: Selector)
    ensures Find(root, sel).None? <==> FindAll(root, sel) == []
    ensures Find(root, sel).Some? ==> Find(root, sel).value == FindAll(root, sel)[0]
  {
    FindIsFirstOfFindAll(Descendants(root), sel);
  }
}
