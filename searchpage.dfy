/**
 * The main (search) page: the sidebar menu and the platform list of the search form
 * (`parse_mainpage`; the flat `parsers.py` holds the same code).
 */
module SearchPage {
  import opened Errors
  import opened Dom
  import opened Locate
  import Text
  import Dicts
  import Models
  import Helpers

  /** Category headings whose links are left out of the menu. */
  const Blacklist: set<string> := {"Emulated Files"}

  /** One element of the sidebar stream: its sole text, and its href if it has one. */
  datatype MenuToken = MenuToken(text: string, href: Option<string>)

  /** The elements the sidebar loop visits: tag name starting with `a` or `h`, with a `.string`. */
  predicate IsMenuTag(n: Node) {
    n.Element? && n.name != [] && (n.name[0] == 'a' || n.name[0] == 'h') && StringOf(n).Some?
  }

  /** `sidebar(re.compile(r"^[ah]"), string=True)` as tokens, in document order. */
  function MenuTokens(ns: seq<Node>): (r: seq<MenuToken>)
    ensures |r| <= |ns|
  {
    if ns == [] then []
    else
      (if IsMenuTag(ns[0]) then [MenuToken(StringOf(ns[0]).value, ns[0].attrs.href)] else [])
      + MenuTokens(ns[1..])
  }

  function SidebarStream(sidebar: Node): seq<MenuToken> {
    MenuTokens(Descendants(sidebar))
  }

  /** The loop's variables: the `blacklisted` flag, the current category, the entries so far. */
  datatype MenuState = MenuState(blacklisted: bool, menu: Option<string>, items: Dicts.Dict<string, Models.MenuItem>)

  /** Outside a blacklisted section the current category is always set. */
  ghost predicate Consistent(st: MenuState) {
    (!st.blacklisted ==> st.menu.Some?) && Dicts.Valid(st.items)
  }

  /** One turn of the loop. */
  function Step(st: MenuState, tok: MenuToken): (r: MenuState)
    requires Consistent(st)
    ensures Consistent(r)
  {
    match tok.href
    case None =>
      var bl := tok.text in Blacklist;
      MenuState(bl, if bl then st.menu else Some(tok.text), st.items)
    case Some(h) =>
      if st.blacklisted || !Text.StartsWith(h, Helpers.MusicPrefix) then st
      else
        var path := h[|Helpers.MusicPrefix|..];
        st.(items := Dicts.Set(st.items, path, Models.MenuItem(path, tok.text, st.menu.value)))
  }

  /** The state after the loop has seen `toks`; it starts blacklisted with no entries. */
  function Run(toks: seq<MenuToken>): (r: MenuState)
    ensures Consistent(r)
  {
    if toks == [] then MenuState(true, None, Dicts.Empty())
    else Step(Run(toks[..|toks| - 1]), toks[|toks| - 1])
  }

  /** The state after one more token is one more turn of the loop. */
  lemma RunSnoc(toks: seq<MenuToken>, i: nat)
    requires i < |toks|
    ensures Run(toks[..i + 1]) == Step(Run(toks[..i]), toks[i])
  {
    assert toks[..i + 1][..i] == toks[..i];
  }

  /** The position of the last heading (a token without href) before position `n`. */
  function LastHeading(toks: seq<MenuToken>, n: nat): (r: Option<nat>)
    requires n <= |toks|
    ensures r.Some? ==> r.value < n && toks[r.value].href.None?
    ensures r.Some? ==> forall j :: r.value < j < n ==> toks[j].href.Some?
    ensures r.None? ==> forall j :: 0 <= j < n ==> toks[j].href.Some?
  {
    if n == 0 then None
    else if toks[n - 1].href.None? then Some(n - 1)
    else LastHeading(toks, n - 1)
  }

  /**
   * Token `i` is recorded in the menu: it is a link into `/music/`, and the latest heading
   * before it exists and is not blacklisted.
   */
  predicate Recorded(toks: seq<MenuToken>, i: nat)
    requires i < |toks|
  {
    && toks[i].href.Some?
    && Text.StartsWith(toks[i].href.value, Helpers.MusicPrefix)
    && LastHeading(toks, i).Some?
    && toks[LastHeading(toks, i).value].text !in Blacklist
  }

  /** The key of a recorded link: its href without the 7-character `/music/` prefix. */
  function KeyAt(toks: seq<MenuToken>, i: nat): string
    requires i < |toks| && Recorded(toks, i)
  {
    toks[i].href.value[|Helpers.MusicPrefix|..]
  }

  /** The entry of a recorded link: key, link text, and the text of its category heading. */
  function EntryAt(toks: seq<MenuToken>, i: nat): Models.MenuItem
    requires i < |toks| && Recorded(toks, i)
  {
    Models.MenuItem(KeyAt(toks, i), toks[i].text, toks[LastHeading(toks, i).value].text)
  }

  lemma {:induction false} LastHeadingOfPrefix(toks: seq<MenuToken>, m: nat, n: nat)
    requires n <= m <= |toks|
    ensures LastHeading(toks[..m], n) == LastHeading(toks, n)
  {
    if n > 0 {
      assert toks[..m][n - 1] == toks[n - 1];
      LastHeadingOfPrefix(toks, m, n - 1);
    }
  }

  /** The flag and the category after the loop are determined by the latest heading. */
  lemma {:induction false} RunFollowsLastHeading(toks: seq<MenuToken>)
    ensures var h := LastHeading(toks, |toks|);
      Run(toks).blacklisted <==> h.None? || toks[h.value].text in Blacklist
    ensures var h := LastHeading(toks, |toks|);
      !Run(toks).blacklisted ==> Run(toks).menu == Some(toks[h.value].text)
  {
    if toks != [] {
      var init := toks[..|toks| - 1];
      RunFollowsLastHeading(init);
      LastHeadingOfPrefix(toks, |init|, |init|);
    }
  }

  /** Whether a token is recorded, and its entry, do not depend on the tokens after it. */
  lemma RecordedInPrefix(toks: seq<MenuToken>, m: nat, i: nat)
    requires i < m <= |toks|
    ensures Recorded(toks[..m], i) == Recorded(toks, i)
    ensures Recorded(toks, i) ==> KeyAt(toks[..m], i) == KeyAt(toks, i) && EntryAt(toks[..m], i) == EntryAt(toks, i)
  {
    LastHeadingOfPrefix(toks, m, i);
  }

  /** The last token adds its entry exactly when it is recorded. */
  lemma RunLastStep(toks: seq<MenuToken>)
    requires toks != []
    ensures var init := toks[..|toks| - 1];
      Run(toks).items == if Recorded(toks, |toks| - 1)
        then Dicts.Set(Run(init).items, KeyAt(toks, |toks| - 1), EntryAt(toks, |toks| - 1))
        else Run(init).items
  {
    var init := toks[..|toks| - 1];
    RunFollowsLastHeading(init);
    LastHeadingOfPrefix(toks, |init|, |init|);
  }

  /** A recorded link whose key no later recorded link repeats is in the menu with its own entry. */
  lemma {:induction false} MenuLastWins(toks: seq<MenuToken>, i: nat)
    requires i < |toks| && Recorded(toks, i)
    requires forall j :: i < j < |toks| && Recorded(toks, j) ==> KeyAt(toks, j) != KeyAt(toks, i)
    ensures KeyAt(toks, i) in Run(toks).items.items
    ensures Run(toks).items.items[KeyAt(toks, i)] == EntryAt(toks, i)
  {
    var n := |toks|;
    var init := toks[..n - 1];
    RunLastStep(toks);
    if i < n - 1 {
      RecordedInPrefix(toks, n - 1, i);
      forall j | i < j < |init| && Recorded(init, j)
        ensures KeyAt(init, j) != KeyAt(init, i)
      {
        RecordedInPrefix(toks, n - 1, j);
      }
      MenuLastWins(init, i);
    }
  }

  /** A key that no recorded link has is not in the menu. */
  lemma {:induction false} MenuOnlyRecorded(toks: seq<MenuToken>, path: string)
    requires forall i :: 0 <= i < |toks| && Recorded(toks, i) ==> KeyAt(toks, i) != path
    ensures path !in Run(toks).items.items
  {
    if toks != [] {
      var n := |toks|;
      var init := toks[..n - 1];
      forall i | 0 <= i < |init| && Recorded(init, i)
        ensures KeyAt(init, i) != path
      {
        RecordedInPrefix(toks, n - 1, i);
      }
      MenuOnlyRecorded(init, path);
      RunLastStep(toks);
    }
  }

  /** Links that come before every heading contribute nothing: the loop starts blacklisted. */
  lemma LinksBeforeAnyHeadingAreDropped(toks: seq<MenuToken>)
    requires forall j :: 0 <= j < |toks| ==> toks[j].href.Some?
    ensures Run(toks).items.items == map[]
  {
    forall path: string
      ensures path !in Run(toks).items.items
    {
      MenuOnlyRecorded(toks, path);
    }
  }

  /** An element carrying a `value` attribute. */
  predicate HasValue(n: Node) {
    n.Element? && n.attrs.value.Some?
  }

  /** The `option` elements of the first `select` on the page, as (text, value) pairs. */
  function OptionPairs(options: seq<Node>): (r: Result<seq<(Option<string>, string)>>)
    ensures r.Ok? ==> |r.value| == |options|
    ensures r.Ok? ==> forall i :: 0 <= i < |options| ==>
      options[i].Element? && options[i].attrs.value.Some?
      && r.value[i] == (StringOf(options[i]), options[i].attrs.value.value)
    ensures r.Ok? <==> forall i :: 0 <= i < |options| ==> HasValue(options[i])
    ensures r.Err? ==> r.error == KeyError
  {
    if options == [] then Ok([])
    else
      var init :- OptionPairs(options[..|options| - 1]);
      var last := options[|options| - 1];
      if !last.Element? || last.attrs.value.None? then Err(KeyError)
      else Ok(init + [(StringOf(last), last.attrs.value.value)])
  }

  /** The platform map: option text to option value; a later option with the same text wins. */
  function Platforms(doc: Node): (r: Result<Dicts.Dict<Option<string>, string>>)
    ensures Find(doc, ByTag("select")).None? ==> r == Err(ParseError(TagNotFound))
    ensures r.Ok? ==> Dicts.Valid(r.value)
    ensures r.Ok? ==> Find(doc, ByTag("select")).Some?
    ensures r.Ok? ==> |r.value.keys| <= |FindAll(Find(doc, ByTag("select")).value, ByTag("option"))|
    ensures Find(doc, ByTag("select")).Some? ==>
      var pairs := OptionPairs(FindAll(Find(doc, ByTag("select")).value, ByTag("option")));
      && (r.Ok? <==> pairs.Ok?)
      && (r.Ok? ==> r.value == Dicts.FromPairs(pairs.value))
      && (r.Err? ==> r.error == pairs.error)
  {
    var select :- GetTag(doc, ByTag("select"));
    var pairs :- OptionPairs(FindAll(select, ByTag("option")));
    Dicts.FromPairsSize(pairs);
    Ok(Dicts.FromPairs(pairs))
  }

  /** An option whose text no later option repeats maps that text to its own value. */
  lemma PlatformOptionLastWins(options: seq<Node>, i: nat)
    requires OptionPairs(options).Ok? && i < |options|
    requires forall j :: i < j < |options| ==> StringOf(options[j]) != StringOf(options[i])
    ensures var d := Dicts.FromPairs(OptionPairs(options).value);
      StringOf(options[i]) in d.items && d.items[StringOf(options[i])] == options[i].attrs.value.value
  {
    Dicts.FromPairsLastWins(OptionPairs(options).value, i);
  }

  /** `parse_mainpage`: the menu entries keyed by path, and the platform map. */
  method ParseMainPage(doc: Node) returns (r: Result<(Dicts.Dict<string, Models.MenuItem>, Dicts.Dict<Option<string>, string>)>)
    ensures Find(doc, ById("sidebarSearch")).None? ==> r == Err(ParseError(TagNotFound))
    ensures Find(doc, ById("sidebarSearch")).Some? ==>
      var sidebar := Find(doc, ById("sidebarSearch")).value;
      && (r.Ok? <==> Platforms(doc).Ok?)
      && (r.Ok? ==> r.value == (Run(SidebarStream(sidebar)).items, Platforms(doc).value))
      && (r.Err? ==> r.error == Platforms(doc).error)
  {
    var sidebar :- GetTag(doc, ById("sidebarSearch"));
    var toks := SidebarStream(sidebar);
    var items: Dicts.Dict<string, Models.MenuItem> := Dicts.Empty();
    var blacklisted := true;
    var menu: Option<string> := None;
    var i := 0;
    while i < |toks|
      invariant 0 <= i <= |toks|
      invariant Run(toks[..i]) == MenuState(blacklisted, menu, items)
    {
      var tok := toks[i];
      RunSnoc(toks, i);
      if tok.href.None? {
        blacklisted := tok.text in Blacklist;
        if !blacklisted {
          menu := Some(tok.text);
        }
      } else if !blacklisted {
        var path := tok.href.value;
        if Text.StartsWith(path, Helpers.MusicPrefix) {
          path := path[7..];
          items := Dicts.Set(items, path, Models.MenuItem(path, tok.text, menu.value));
        }
      }
      i := i + 1;
    }
    assert toks[..|toks|] == toks;
    var platforms :- Platforms(doc);
    r := Ok((items, platforms));
  }
}
