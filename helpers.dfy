/** Page guard and link helpers of the `parsers` package (`parsers/helpers.py`). */
module Helpers {
  import opened Errors
  import opened Dom
  import opened Locate
  import Text
  import Urls
  import Models

  const MusicPrefix := "/music/"

  /** `get_tag_from_html`: the page root with the given id; a ParseError naming another page type otherwise. */
  function GetTagFromHtml(doc: Node, id: string): (r: Result<Node>)
    ensures r.Ok? <==> Find(doc, ById(id)).Some?
    ensures r.Ok? ==> r.value == Find(doc, ById(id)).value
    ensures r.Err? ==> r.error == ParseError(OtherPage)
  {
    match GetTag(doc, ById(id))
    case Ok(t) => Ok(t)
    case Err(_) => Err(ParseError(OtherPage))
  }

  /** The anchor a link element stands for: itself when it is an `a`, else its first `a`. */
  function Anchor(tag: Node): Option<Node> {
    if tag.Element? && tag.name == "a" then Some(tag) else Find(tag, ByTag("a"))
  }

  /** `parse_link`: the element's text as name, its anchor's href without `/music/` as path. */
  function ParseLink(tag: Node): (r: Result<Models.Browsable>)
    ensures GetString(tag) == [] ==> r == Err(ParseError(NoName))
    ensures GetString(tag) != [] && Anchor(tag).None? ==> r == Err(ParseError(TagNotFound))
    ensures r.Ok? ==> r.value.name == GetString(tag) && r.value.name != [] && Text.Trimmed(r.value.name)
    ensures r.Ok? ==> Anchor(tag).Some? && Anchor(tag).value.attrs.href.Some?
    ensures r.Ok? ==> r.value.path == Urls.RawPath(Text.RemovePrefix(Anchor(tag).value.attrs.href.value, MusicPrefix))
    ensures r.Err? ==> r.error in {ParseError(NoName), ParseError(TagNotFound), KeyError}
    ensures GetString(tag) != [] && Anchor(tag).Some? ==>
      (r.Ok? <==> Anchor(tag).value.attrs.href.Some?) && (r.Err? ==> r.error == KeyError)
  {
    var name := GetString(tag);
    if name == [] then Err(ParseError(NoName))
    else
      var anchor :- if tag.Element? && tag.name == "a" then Ok(tag) else GetTag(tag, ByTag("a"));
      match anchor.attrs.href
      case None => Err(KeyError)
      case Some(href) => Ok(Models.Browsable(Urls.RawPath(Text.RemovePrefix(href, MusicPrefix)), name))
  }

  /**
   * `browsable_from_link`: the link as an entity, or none when `parse_link` raises a
   * ParseError. Only ParseError is caught: an anchor without `href` still raises KeyError.
   */
  function BrowsableFromLink(tag: Node): (r: Result<Option<Models.Browsable>>)
    ensures r.Err? ==> ParseLink(tag).Err? && r.error == ParseLink(tag).error && !IsParseError(r.error)
    ensures r == Ok(None) <==> ParseLink(tag).Err? && IsParseError(ParseLink(tag).error)
    ensures r.Ok? && r.value.Some? <==> ParseLink(tag).Ok?
    ensures r.Ok? && r.value.Some? ==> ParseLink(tag) == Ok(r.value.value)
  {
    match ParseLink(tag)
    case Ok(b) => Ok(Some(b))
    case Err(e) => if IsParseError(e) then Ok(None) else Err(e)
  }

  /**
   * The conversion raises exactly for a link with text whose anchor has no `href`, and
   * raises KeyError then.
   */
  lemma BrowsableFromLinkRaises(tag: Node)
    ensures BrowsableFromLink(tag).Err? <==>
      GetString(tag) != [] && Anchor(tag).Some? && Anchor(tag).value.attrs.href.None?
    ensures BrowsableFromLink(tag).Err? <==> ParseLink(tag) == Err(KeyError)
    ensures BrowsableFromLink(tag).Err? ==> BrowsableFromLink(tag).error == KeyError
  {
  }
}
