/**
 * Element lookup and text extraction shared by every page parser (`get_tag`, `get_string`,
 * `get_img_src`; the three copies of these in the source are identical).
 */
module Locate {
  import opened Errors
  import opened Dom
  import Text

  /** `get_tag`: the first descendant matching `sel`, or a ParseError when none does. */
  function GetTag(root: Node, sel: Selector): (r: Result<Node>)
    ensures r.Ok? <==> Find(root, sel).Some?
    ensures r.Ok? ==> r.value == Find(root, sel).value
    ensures r.Err? ==> r.error == ParseError(TagNotFound)
  {
    match Find(root, sel)
    case Some(t) => Ok(t)
    case None => Err(ParseError(TagNotFound))
  }

  /**
   * `get_tag` succeeds exactly when some descendant matches, and then yields the first
   * element `find_all` would list.
   */
  lemma GetTagFirstMatch(root: Node, sel: Selector)
    ensures GetTag(root, sel).Ok? <==> exists i :: 0 <= i < |Descendants(root)| && Matches(Descendants(root)[i], sel)
    ensures GetTag(root, sel).Ok? ==>
      Matches(GetTag(root, sel).value, sel) && FindAll(root, sel) != [] && GetTag(root, sel).value == FindAll(root, sel)[0]
  {
    FindAgreesWithFindAll(root, sel);
  }

  /** `get_string(tag)`: the element's text pieces, each stripped, joined by single spaces. */
  function GetString(tag: Node): (r: string)
    ensures Text.Trimmed(r)
  {
    var parts := StrippedStrings(tag);
    assert forall i :: 0 <= i < |parts| ==> parts[i] != [];
    Text.Join(parts)
  }

  /** The text is empty exactly when every text piece below the element is whitespace. */
  lemma GetStringEmpty(tag: Node)
    requires tag.Element?
    ensures GetString(tag) == [] <==> forall i :: 0 <= i < |Strings(tag.children)| ==> Text.AllSpace(Strings(tag.children)[i])
  {
    var parts := StrippedStrings(tag);
    assert forall i :: 0 <= i < |parts| ==> parts[i] != [];
    assert parts == StripAll(Strings(tag.children));
    StripAllEmpty(Strings(tag.children));
  }

  /** `get_string(root, **kwargs)`: the text of the first descendant matching `sel`. */
  function GetStringOf(root: Node, sel: Selector): (r: Result<string>)
    ensures r.Ok? <==> Find(root, sel).Some?
    ensures r.Ok? ==> r.value == GetString(Find(root, sel).value)
    ensures r.Err? ==> r.error == ParseError(TagNotFound)
  {
    var tag :- GetTag(root, sel);
    Ok(GetString(tag))
  }

  /** `get_img_src`: the `src` of the first `img` below `root`; none when there is no image. */
  function GetImgSrc(root: Node): (r: Result<Option<string>>)
    ensures r == Ok(None) <==> Find(root, ByTag("img")).None?
    ensures r.Ok? && r.value.Some? ==> Find(root, ByTag("img")).value.attrs.src == r.value
    ensures r.Err? ==> r.error == KeyError && Find(root, ByTag("img")).value.attrs.src.None?
  {
    match Find(root, ByTag("img"))
    case None => Ok(None)
    case Some(img) =>
      match img.attrs.src
      case None => Err(KeyError)
      case Some(src) => Ok(Some(src))
  }
}
