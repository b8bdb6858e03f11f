/**
 * Page guard and link helpers of the older copies (`parsers/parsers.py` and the flat
 * `parsers.py`, which agree line for line): a missing root raises WrongItemError, and
 * `parse_link` does not reject empty text.
 */
module LegacyHelpers {
  import opened Errors
  import opened Dom
  import opened Locate
  import Text
  import Urls
  import Models
  import Helpers

  /** `get_tag_from_html`: the page root, or WrongItemError (a kind of ParseError). */
  function GetTagFromHtml(doc: Node, id: string): (r: Result<Node>)
    ensures r.Ok? <==> Find(doc, ById(id)).Some?
    ensures r.Ok? ==> r.value == Find(doc, ById(id)).value
    ensures r.Err? ==> r.error == WrongItemError && IsParseError(r.error)
  {
    match GetTag(doc, ById(id))
    case Ok(t) => Ok(t)
    case Err(_) => Err(WrongItemError)
  }

  /** `parse_link`: the element's text and its anchor's href without the `/music/` prefix. */
  function ParseLink(root: Node): (r: Result<(string, string)>)
    ensures Helpers.Anchor(root).None? ==> r == Err(ParseError(TagNotFound))
    ensures r.Ok? ==> r.value.0 == GetString(root)
    ensures r.Ok? ==> Helpers.Anchor(root).Some? && Helpers.Anchor(root).value.attrs.href.Some?
    ensures r.Ok? ==> r.value.1 == Text.RemovePrefix(Helpers.Anchor(root).value.attrs.href.value, Helpers.MusicPrefix)
    ensures r.Err? ==> r.error in {ParseError(TagNotFound), KeyError}
    ensures Helpers.Anchor(root).Some? ==>
      (r.Ok? <==> Helpers.Anchor(root).value.attrs.href.Some?) && (r.Err? ==> r.error == KeyError)
  {
    var text := GetString(root);
    var anchor :- if root.Element? && root.name == "a" then Ok(root) else GetTag(root, ByTag("a"));
    match anchor.attrs.href
    case None => Err(KeyError)
    case Some(href) => Ok((text, Text.RemovePrefix(href, Helpers.MusicPrefix)))
  }

  /**
   * `item_from_link` (`_item_from_link` in the flat file): an entity only when the link
   * parses and both its name and its URL path are non-empty; a ParseError gives none.
   */
  function ItemFromLink(tag: Node): (r: Result<Option<Models.Browsable>>)
    ensures r.Err? ==> r.error == KeyError
    ensures r.Ok? && r.value.Some? <==>
      ParseLink(tag).Ok? && ParseLink(tag).value.0 != [] && Urls.RawPath(ParseLink(tag).value.1) != []
    ensures r.Ok? && r.value.Some? ==>
      r.value.value == Models.Browsable(Urls.RawPath(ParseLink(tag).value.1), ParseLink(tag).value.0)
    ensures r.Ok? && r.value.Some? ==> r.value.value.name != [] && r.value.value.path != []
    ensures ParseLink(tag).Err? && IsParseError(ParseLink(tag).error) ==> r == Ok(None)
    ensures ParseLink(tag).Err? && !IsParseError(ParseLink(tag).error) ==> r == Err(ParseLink(tag).error)
  {
    match ParseLink(tag)
    case Err(e) => if IsParseError(e) then Ok(None) else Err(e)
    case Ok((name, url)) =>
      var path := Urls.RawPath(url);
      if name != [] && path != [] then Ok(Some(Models.Browsable(path, name))) else Ok(None)
  }

  /**
   * The two link conversions agree where this one yields an entity. Where the package's
   * conversion yields none, this one yields none too, except for a link with empty text
   * whose anchor has no href: that raises KeyError here. Where the package's conversion
   * raises, this one raises the same error.
   */
  lemma ItemFromLinkRefinesBrowsableFromLink(tag: Node)
    ensures ItemFromLink(tag).Ok? && ItemFromLink(tag).value.Some? ==>
      Helpers.BrowsableFromLink(tag) == ItemFromLink(tag)
    ensures Helpers.BrowsableFromLink(tag) == Ok(None) ==>
      ItemFromLink(tag) == Ok(None) || (GetString(tag) == [] && ItemFromLink(tag) == Err(KeyError))
    ensures Helpers.BrowsableFromLink(tag).Err? ==> ItemFromLink(tag) == Helpers.BrowsableFromLink(tag)
  {
  }
}
