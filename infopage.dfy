/**
 * The info page (a console, developer or year listing): every anchor on the page converted
 * into an entity, dropping the anchors the conversion turns down. The package version
 * (`parsers/infopage.py`) and the flat one (`parsers.py`) differ only in their page guard
 * and link conversion.
 */
module InfoPage {
  import opened Errors
  import opened Dom
  import opened Locate
  import Text
  import Urls
  import Models
  import Helpers
  import LegacyHelpers

  const PageId := "infopage"

  /** The values present in a sequence of options, in order (`[x for x in xs if x]`). */
  function Kept<T>(os: seq<Option<T>>): (r: seq<T>)
    ensures |r| <= |os|
  {
    if os == [] then []
    else
      var n := |os| - 1;
      Kept(os[..n]) + (match os[n] case Some(x) => [x] case None => [])
  }

  /** The positions of the present values, in order. */
  function KeptAt<T>(os: seq<Option<T>>): seq<nat> {
    if os == [] then []
    else
      var n := |os| - 1;
      KeptAt(os[..n]) + (if os[n].Some? then [n] else [])
  }

  /**
   * The filter keeps exactly the present values and keeps their order: the k-th value kept
   * sits at the k-th kept position, positions increase, and every present value is kept.
   */
  lemma {:induction false} KeptIndexes<T>(os: seq<Option<T>>)
    ensures |KeptAt(os)| == |Kept(os)|
    ensures forall k :: 0 <= k < |KeptAt(os)| ==> KeptAt(os)[k] < |os| && os[KeptAt(os)[k]] == Some(Kept(os)[k])
    ensures forall k, l :: 0 <= k < l < |KeptAt(os)| ==> KeptAt(os)[k] < KeptAt(os)[l]
    ensures forall i :: 0 <= i < |os| && os[i].Some? ==> i in KeptAt(os)
  {
    if os != [] {
      var n := |os| - 1;
      var init := os[..n];
      KeptIndexes(init);
      var at := KeptAt(init);
      if os[n].None? {
        KeptStepNone(os, n);
      } else {
        KeptStepSome(os, n);
        var at' := KeptAt(os);
        forall k | 0 <= k < |at'|
          ensures at'[k] < |os| && os[at'[k]] == Some(Kept(os)[k])
        {
          if k < |at| {
            assert at'[k] == at[k] && Kept(os)[k] == Kept(init)[k];
            assert init[at[k]] == os[at[k]];
          }
        }
        forall k, l | 0 <= k < l < |at'|
          ensures at'[k] < at'[l]
        {
          if l < |at| {
            assert at'[k] == at[k] && at'[l] == at[l];
          }
        }
      }
      forall i | 0 <= i < |os| && os[i].Some?
        ensures i in KeptAt(os)
      {
        if i < n {
          assert init[i] == os[i];
        }
      }
    }
  }

  /** One more option that is absent: neither the values nor their positions change. */
  lemma KeptStepNone<T>(os: seq<Option<T>>, n: nat)
    requires n == |os| - 1 && os[n].None?
    ensures KeptAt(os) == KeptAt(os[..n]) && Kept(os) == Kept(os[..n])
  {
  }

  /** One more option that is present: its value and its position are appended. */
  lemma KeptStepSome<T>(os: seq<Option<T>>, n: nat)
    requires n == |os| - 1 && os[n].Some?
    ensures KeptAt(os) == KeptAt(os[..n]) + [n] && Kept(os) == Kept(os[..n]) + [os[n].value]
  {
  }

  /** A value is kept exactly when some option holds it. */
  lemma {:induction false} KeptMembers<T>(os: seq<Option<T>>, x: T)
    ensures x in Kept(os) <==> Some(x) in os
  {
    if os != [] {
      var n := |os| - 1;
      var init := os[..n];
      KeptMembers(init, x);
      assert os == init + [os[n]];
      assert Kept(os) == Kept(init) + (match os[n] case Some(y) => [y] case None => []);
    }
  }

  /** The anchors of the page, in document order (`page("a")`). */
  function Links(page: Node): seq<Node> {
    FindAll(page, ByTag("a"))
  }

  /** `browsable_from_link` on every anchor. */
  function Conversions(links: seq<Node>): (r: seq<Result<Option<Models.Browsable>>>)
    ensures |r| == |links| && forall i :: 0 <= i < |links| ==> r[i] == Helpers.BrowsableFromLink(links[i])
  {
    seq(|links|, i requires 0 <= i < |links| => Helpers.BrowsableFromLink(links[i]))
  }

  /**
   * The comprehension of `parse_infopage`: the truthy conversions, in order. An anchor that
   * raises KeyError ends the list with that error.
   */
  function Children(page: Node): (r: Result<seq<Models.Browsable>>)
    ensures r.Err? ==> r.error == KeyError
    ensures r.Ok? ==> |r.value| <= |Links(page)|
    ensures r.Ok? ==> forall b :: b in r.value ==> b.name != [] && Text.Trimmed(b.name)
  {
    var os :- Collect(Conversions(Links(page)));
    KeptIndexesMembers(os);
    Ok(Kept(os))
  }

  /** Every kept value of the conversions is the value of one of them. */
  lemma KeptIndexesMembers(os: seq<Option<Models.Browsable>>)
    ensures forall b :: b in Kept(os) ==> Some(b) in os
  {
    forall b | b in Kept(os)
      ensures Some(b) in os
    {
      KeptMembers(os, b);
    }
  }

  /** `parse_infopage` (`parsers/infopage.py`): a page without the root is another page type. */
  function ParseInfoPage(doc: Node): (r: Result<seq<Models.Browsable>>)
    ensures Find(doc, ById(PageId)).None? ==> r == Err(ParseError(OtherPage))
    ensures Find(doc, ById(PageId)).Some? ==> r == Children(Find(doc, ById(PageId)).value)
  {
    var page :- Helpers.GetTagFromHtml(doc, PageId);
    Children(page)
  }

  /** The positions of the anchors whose entities were kept. */
  function ChildLinks(page: Node): seq<nat>
    requires Children(page).Ok?
  {
    KeptAt(Collect(Conversions(Links(page))).value)
  }

  /**
   * The result lists the entities of exactly the anchors that parse, in document order:
   * the k-th child is the parsed k-th kept anchor, and every anchor left out was turned
   * down with a ParseError.
   */
  lemma ChildrenInOrder(page: Node)
    requires Children(page).Ok?
    ensures |ChildLinks(page)| == |Children(page).value|
    ensures forall k :: 0 <= k < |ChildLinks(page)| ==>
      ChildLinks(page)[k] < |Links(page)| && Helpers.ParseLink(Links(page)[ChildLinks(page)[k]]) == Ok(Children(page).value[k])
    ensures forall k, l :: 0 <= k < l < |ChildLinks(page)| ==> ChildLinks(page)[k] < ChildLinks(page)[l]
    ensures forall i :: 0 <= i < |Links(page)| ==>
      (i in ChildLinks(page) <==> Helpers.ParseLink(Links(page)[i]).Ok?)
    ensures forall i :: 0 <= i < |Links(page)| && i !in ChildLinks(page) ==>
      Helpers.ParseLink(Links(page)[i]).Err? && IsParseError(Helpers.ParseLink(Links(page)[i]).error)
  {
    var links := Links(page);
    var os := Collect(Conversions(links)).value;
    var idx := KeptAt(os);
    var r := Children(page).value;
    assert r == Kept(os);
    assert idx == ChildLinks(page);
    KeptIndexes(os);
    forall k | 0 <= k < |idx|
      ensures idx[k] < |links| && Helpers.ParseLink(links[idx[k]]) == Ok(r[k])
    {
      ConversionOf(page, idx[k]);
    }
    forall i | 0 <= i < |links|
      ensures i in idx <==> Helpers.ParseLink(links[i]).Ok?
      ensures i !in idx ==> Helpers.ParseLink(links[i]).Err? && IsParseError(Helpers.ParseLink(links[i]).error)
    {
      ConversionOf(page, i);
      if i in idx {
        var k :| 0 <= k < |idx| && idx[k] == i;
      }
    }
  }

  /** What the conversion of one anchor of a page that parses says about that anchor. */
  lemma ConversionOf(page: Node, i: nat)
    requires Children(page).Ok? && i < |Links(page)|
    ensures Collect(Conversions(Links(page))).value[i].Some? <==> Helpers.ParseLink(Links(page)[i]).Ok?
    ensures Collect(Conversions(Links(page))).value[i].Some? ==>
      Helpers.ParseLink(Links(page)[i]) == Ok(Collect(Conversions(Links(page))).value[i].value)
    ensures Collect(Conversions(Links(page))).value[i].None? ==>
      Helpers.ParseLink(Links(page)[i]).Err? && IsParseError(Helpers.ParseLink(Links(page)[i]).error)
  {
    var rs := Conversions(Links(page));
    assert rs[i] == Ok(Collect(rs).value[i]);
  }

  /** Every link of a page is an `a` element, and so is its own anchor. */
  lemma LinkIsAnchor(page: Node, i: nat)
    requires i < |Links(page)|
    ensures Links(page)[i].Element? && Links(page)[i].name == "a"
    ensures Helpers.Anchor(Links(page)[i]) == Some(Links(page)[i])
  {
    assert Links(page)[i] in Links(page);
  }

  /** An anchor element with text but no `href`. */
  predicate TextWithoutHref(a: Node) {
    a.Element? && GetString(a) != [] && a.attrs.href.None?
  }

  /** The page raises exactly when one of its anchors has text but no `href`. */
  lemma ChildrenFails(page: Node)
    ensures Children(page).Err? <==> exists i :: 0 <= i < |Links(page)| && Helpers.ParseLink(Links(page)[i]) == Err(KeyError)
    ensures Children(page).Err? <==> exists i :: 0 <= i < |Links(page)| && TextWithoutHref(Links(page)[i])
  {
    var links := Links(page);
    var rs := Conversions(links);
    assert Children(page).Err? <==> Collect(rs).Err?;
    if Collect(rs).Err? {
      var i :| 0 <= i < |rs| && rs[i].Err?;
      LinkIsAnchor(page, i);
      Helpers.BrowsableFromLinkRaises(links[i]);
    }
    if Collect(rs).Ok? {
      forall i | 0 <= i < |links|
        ensures Helpers.ParseLink(links[i]) != Err(KeyError)
        ensures !TextWithoutHref(links[i])
      {
        assert rs[i].Ok?;
        LinkIsAnchor(page, i);
        Helpers.BrowsableFromLinkRaises(links[i]);
      }
    }
  }

  /** `_item_from_link` of the flat module on every anchor. */
  function LegacyConversions(links: seq<Node>): (r: seq<Result<Option<Models.Browsable>>>)
    ensures |r| == |links| && forall i :: 0 <= i < |links| ==> r[i] == LegacyHelpers.ItemFromLink(links[i])
  {
    seq(|links|, i requires 0 <= i < |links| => LegacyHelpers.ItemFromLink(links[i]))
  }

  /** The comprehension of the flat `parse_infopage`, over `_item_from_link`. */
  function LegacyChildren(page: Node): (r: Result<seq<Models.Browsable>>)
    ensures r.Err? ==> r.error == KeyError
    ensures r.Ok? ==> |r.value| <= |Links(page)|
  {
    var os :- Collect(LegacyConversions(Links(page)));
    Ok(Kept(os))
  }

  /** The flat `parse_infopage` (`parsers.py`): a page without the root raises WrongItemError. */
  function LegacyParseInfoPage(doc: Node): (r: Result<seq<Models.Browsable>>)
    ensures Find(doc, ById(PageId)).None? ==> r == Err(WrongItemError)
    ensures Find(doc, ById(PageId)).Some? ==> r == LegacyChildren(Find(doc, ById(PageId)).value)
  {
    var page :- LegacyHelpers.GetTagFromHtml(doc, PageId);
    LegacyChildren(page)
  }

  /** Every entity the flat version lists has a non-empty name and a non-empty path. */
  lemma LegacyChildrenNonEmpty(page: Node)
    requires LegacyChildren(page).Ok?
    ensures forall b :: b in LegacyChildren(page).value ==> b.name != [] && b.path != []
  {
    var os := Collect(LegacyConversions(Links(page))).value;
    forall b | b in LegacyChildren(page).value
      ensures b.name != [] && b.path != []
    {
      KeptMembers(os, b);
      var i :| 0 <= i < |os| && os[i] == Some(b);
      assert LegacyConversions(Links(page))[i] == Ok(Some(b));
    }
  }

  /** When the package version raises, so does the flat one. */
  lemma PackageFailsLegacyFails(page: Node)
    ensures Children(page).Err? ==> LegacyChildren(page).Err?
  {
    var links := Links(page);
    var rs := Conversions(links);
    var ls := LegacyConversions(links);
    assert Children(page).Err? <==> Collect(rs).Err?;
    assert LegacyChildren(page).Err? <==> Collect(ls).Err?;
    if Collect(rs).Err? {
      var i :| 0 <= i < |rs| && rs[i].Err?;
      LegacyHelpers.ItemFromLinkRefinesBrowsableFromLink(links[i]);
      assert ls[i].Err?;
    }
  }

  /** When the flat version succeeds, so does the package version. */
  lemma LegacyOkPackageOk(page: Node)
    requires LegacyChildren(page).Ok?
    ensures Children(page).Ok?
  {
    var rs := Conversions(Links(page));
    var ls := LegacyConversions(Links(page));
    assert Collect(ls).Ok?;
    forall i | 0 <= i < |rs|
      ensures rs[i].Ok?
    {
      assert ls[i].Ok?;
      LegacyHelpers.ItemFromLinkRefinesBrowsableFromLink(Links(page)[i]);
    }
    assert Collect(rs).Ok?;
  }

  /** An anchor the flat version turns into an entity gives that entity in the package version. */
  lemma LegacyLinkListed(page: Node, i: nat, b: Models.Browsable)
    requires Children(page).Ok? && i < |Links(page)|
    requires LegacyHelpers.ItemFromLink(Links(page)[i]) == Ok(Some(b))
    ensures b in Children(page).value
  {
    var rs := Conversions(Links(page));
    var os := Collect(rs).value;
    LegacyHelpers.ItemFromLinkRefinesBrowsableFromLink(Links(page)[i]);
    assert rs[i] == Ok(os[i]);
    KeptMembers(os, b);
  }

  /** Every entity the flat version lists is listed by the package version too. */
  lemma LegacyChildrenWithinChildren(page: Node)
    requires LegacyChildren(page).Ok?
    ensures Children(page).Ok?
    ensures forall b :: b in LegacyChildren(page).value ==> b in Children(page).value
  {
    LegacyOkPackageOk(page);
    var ls := LegacyConversions(Links(page));
    var lo := Collect(ls).value;
    forall b | b in LegacyChildren(page).value
      ensures b in Children(page).value
    {
      KeptMembers(lo, b);
      var i :| 0 <= i < |lo| && lo[i] == Some(b);
      assert ls[i] == Ok(Some(b));
      LegacyLinkListed(page, i, b);
    }
  }
}
