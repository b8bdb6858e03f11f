# zophar scraper core, modelled in Dafny

This project models the extraction engine of `python-zophar`, a scraper for a video-game
music archive. The engine reads four kinds of page of the site and gives typed results or
typed errors:

- the main (search) page: the sidebar menu, built by a small state machine over headings and
  links, and the platform list of the search form;
- a game-list page: one entry per table row, plus the page count read from a
  "Page m of n" counter;
- a game-detail page: the information block, the cover, the archive downloads and the track
  list, gathered into the keyword arguments of a `GameInfo` record whose unknown keys are
  dropped;
- an info page: every anchor of the page turned into a `Browsable` entity, dropping the
  anchors the conversion turns down.

It also models the entity model those parsers fill: `Browsable.parts`, the `Folder` tree
with `id`, `get` and `add`, and `GameInfo`'s `has_format` and `formats`.

The repository holds two versions of the parsers. One is the package `src/zophar/parsers/`.
The other is the older flat module `src/zophar/parsers.py`, whose helpers also survive as
`src/zophar/parsers/parsers.py`. Both are modelled. The flat module:

- raises `WrongItemError` for a page of another type;
- keeps an entity only when both its name and its path are non-empty;
- takes the page's path as an argument of the game-page parser;
- keeps every information value as text.

The flat `parse_mainpage` and `_parse_npages` are the same code as the package ones, so one
model covers both.

Modules:

- `Errors`: `Option`, `Result` and the exceptions the code raises. `WrongItemError` is a kind
  of `ParseError`. `Collect` runs steps in order and stops at the first one that raises.
- `Dom`: the parsed document as a tree of elements and text. It also holds bs4's `find`,
  `find_all`, `stripped_strings` and `.string`.
- `Text`, `Urls`, `Dicts`: Python string methods, the parts of a yarl URL the code reads, and
  insertion-ordered dictionaries.
- `Locate`, `Helpers`, `LegacyHelpers`: `get_tag`, `get_string`, `get_img_src`,
  `get_tag_from_html`, `parse_link`, `browsable_from_link` and `item_from_link`.
- `Models`: the records and the `Folder` class.
- `SearchPage`, `GameListPage`, `GamePage`, `LegacyGamePage`, `InfoPage`: one module per
  page parser.

Where the code iterates and updates a dictionary, it is modelled as a method with a loop.
Examples are the menu pass, the archive and track-file loops, the flat info loop and the loop
that pops unknown keys. Each such method is proved equal to a function, and the properties are
proved about that function. Comprehensions and single lookups are modelled as functions.

Where the documented behaviour and the code disagree, the model follows the code:

- The page count is not always at least 1. A counter reading "Page 1 of 0" gives 0 pages.
- `browsable_from_link` catches only `ParseError`. An anchor without `href` raises
  `KeyError` out of it, and out of every parser that uses it.
- The package parsers report a page of another type as a plain `ParseError`. Only the flat
  module raises `WrongItemError`.
- The package `parse_gamepage` takes no path argument (see Findings).

## Model

| member | source | states |
|---|---|---|
| Models.Browsable.Parts | src/zophar/models.py:42-47 | the identifier has no `/`; a path without `/` has an empty parent; otherwise parent + "/" + identifier is the path |
| Models.Folder.Id | src/zophar/models.py:57-61 | `rsplit("/", 1)[-1]` is the identifier half of `parts` and holds no `/` |
| Models.Folder.Get | src/zophar/models.py:63-77 | `get` returns or raises exactly what walking the tree gives: itself for "", KeyError for a leading `/` or a missing child |
| Models.ResolveFollowsSegments | src/zophar/models.py:63-77 | a path without empty segments is resolved by following its `/`-separated segments in order |
| Models.ResolveRejectsEmptySegment | src/zophar/models.py:69-70 | an absolute path, or one with an empty segment before the last, raises KeyError |
| Models.ResolveIgnoresTrailingSlash | src/zophar/models.py:63-77 | `get("a/b/")` is `get("a/b")` |
| Models.Folder.Add | src/zophar/models.py:79-86 | the children become the old children with every item stored in turn under its id, or under the slug of its name when the id is empty |
| Models.AddAllLastWins | src/zophar/models.py:82-86 | an item whose key no later item shares is the child under that key |
| Models.AddAllKeepsOthers | src/zophar/models.py:82-86 | a key no item has keeps its child, or its absence |
| Models.GetAfterAdd | src/zophar/models.py:63-86 | after `add(x)` with a non-empty id, `get(x.id)` returns `x` |
| Models.FormatsOfFirstTrack | src/zophar/models.py:114-125 | no tracks means no formats; otherwise the formats are the first track's extensions in order, and `has_format` is membership in them |
| Models.NewGameInfo | src/zophar/models.py:101-128 | `GameInfo(**args)` succeeds exactly when every key is a field and every field without a default is given, else TypeError; given values are kept, omitted optional fields are None |
| Locate.GetTag | src/zophar/parsers/helpers.py:13-17 | the first matching descendant, or ParseError exactly when there is none |
| Locate.GetTagFirstMatch | src/zophar/parsers/helpers.py:13-17 | `get_tag` succeeds exactly when some descendant matches, and yields the first one `find_all` lists |
| Locate.GetString | src/zophar/parsers/helpers.py:35-39 | the joined stripped strings have no surrounding whitespace |
| Locate.GetStringEmpty | src/zophar/parsers/helpers.py:35-39 | the text is empty exactly when every text piece below the element is whitespace |
| Locate.GetStringOf | src/zophar/parsers/helpers.py:35-39 | with a selector, the text of the first match, or ParseError exactly when nothing matches |
| Locate.GetImgSrc | src/zophar/parsers/helpers.py:30-32 | None exactly when there is no `img`; its `src` otherwise; KeyError for an `img` without `src` |
| Helpers.GetTagFromHtml | src/zophar/parsers/helpers.py:20-27 | the root with the id, or ParseError ("another parsing method") exactly when it is missing |
| Helpers.ParseLink | src/zophar/parsers/helpers.py:42-54 | empty text raises ParseError; a missing anchor raises ParseError; with text and an anchor it succeeds exactly when the anchor has an href and raises KeyError otherwise; the name is the element's text and the path the href without `/music/`, cut at `?` or `#` |
| Urls.RawPath | src/zophar/parsers/helpers.py:51-54 | the raw path is the href cut at its first `?` or `#`: a prefix without either character, followed in the href by one of them unless it is the whole href |
| Helpers.BrowsableFromLink | src/zophar/parsers/helpers.py:57-64 | an entity exactly when `parse_link` succeeds; None exactly when it raises ParseError; any other error escapes |
| Helpers.BrowsableFromLinkRaises | src/zophar/parsers/helpers.py:57-64 | the conversion raises exactly for a link with text whose anchor has no `href`, and the error is KeyError |
| LegacyHelpers.GetTagFromHtml | src/zophar/parsers/parsers.py:29-36 | the root with the id, or WrongItemError (a ParseError) exactly when it is missing; the flat copy at `src/zophar/parsers.py:43-50` is the same code |
| LegacyHelpers.ParseLink | src/zophar/parsers/parsers.py:51-59 | text and href without `/music/`, with no check on empty text; a missing anchor raises ParseError; with an anchor it succeeds exactly when the anchor has an href and raises KeyError otherwise |
| LegacyHelpers.ItemFromLink | src/zophar/parsers/parsers.py:62-74 | an entity exactly when the link parses with a non-empty name and a non-empty raw path, and that entity has both non-empty; a ParseError from the link gives None and any other error escapes, which can only be KeyError; the flat copy at `src/zophar/parsers.py:76-88` is the same code |
| LegacyHelpers.ItemFromLinkRefinesBrowsableFromLink | src/zophar/parsers/parsers.py:62-74 | agrees with `browsable_from_link` wherever it gives an entity; gives None where that gives None, except for an empty-text link without href (KeyError); raises wherever that raises |
| SearchPage.Step | src/zophar/parsers/searchpage.py:28-59 | one turn of the menu loop keeps the current category set whenever the section is not blacklisted, so `menu` is never read unset |
| SearchPage.RunFollowsLastHeading | src/zophar/parsers/searchpage.py:24-44 | after any prefix of the sidebar, the flag is set exactly when there is no heading yet or the latest heading is blacklisted, and otherwise the category is that heading |
| SearchPage.RunLastStep | src/zophar/parsers/searchpage.py:46-59 | one more token adds its entry exactly when it is a `/music/` link under a non-blacklisted heading |
| SearchPage.MenuLastWins | src/zophar/parsers/searchpage.py:46-59 | a recorded link whose key no later recorded link repeats is in the menu as (key without `/music/`, its text, its heading) |
| SearchPage.MenuOnlyRecorded | src/zophar/parsers/searchpage.py:46-59 | a key no recorded link has is not in the menu |
| SearchPage.LinksBeforeAnyHeadingAreDropped | src/zophar/parsers/searchpage.py:24-48 | the loop starts blacklisted, so links before every heading give an empty menu |
| SearchPage.OptionPairs | src/zophar/parsers/searchpage.py:62-63 | succeeds exactly when every option has a value, giving one (text, value) pair per option in order; otherwise KeyError |
| SearchPage.Platforms | src/zophar/parsers/searchpage.py:62-63 | ParseError without a `select`; otherwise the dictionary of the first select's (text, value) pairs, later texts winning, or the KeyError of an option without a value; at most one platform per option |
| SearchPage.PlatformOptionLastWins | src/zophar/parsers/searchpage.py:63 | an option whose text no later option repeats maps that text to its value |
| SearchPage.ParseMainPage | src/zophar/parsers/searchpage.py:19-65 | ParseError without the sidebar; otherwise the menu the loop builds and the platform map, or the platform map's error; the flat copy at `src/zophar/parsers.py:91-137` is the same code |
| GameListPage.CounterValueOfText | src/zophar/parsers/gamelistpage.py:32-33 | every "Page d1 of d2" with one to three digits each gives d2 |
| GameListPage.CounterValueHasShape | src/zophar/parsers/gamelistpage.py:32-35 | only texts of that shape give a value |
| GameListPage.CounterZeroPages | src/zophar/parsers/gamelistpage.py:32-33 | "Page 1 of 0" gives 0 pages |
| GameListPage.CounterNotNumbers | src/zophar/parsers/gamelistpage.py:32-35 | "Page x of y" matches nothing |
| GameListPage.ParseNPages | src/zophar/parsers/gamelistpage.py:23-35 | one page without a counter; the counter's second number when it matches; at most 999; ParseError for a counter that does not match; the flat copy at `src/zophar/parsers.py:140-152` is the same code |
| GameListPage.ParseRow | src/zophar/parsers/gamelistpage.py:41-62 | a missing name cell raises ParseError; an empty name raises ParseError; a name link that fails to parse raises its error (ParseError without an anchor, KeyError without an href); an entry always has a non-empty trimmed name; errors are ParseError or KeyError |
| GameListPage.RowAfterName | src/zophar/parsers/gamelistpage.py:50-62 | the entry keeps the name link and reads cover, year and developer from their own cells; a missing image, year or developer cell raises ParseError at its turn, and an image without `src` raises KeyError |
| GameListPage.ParseRowFields | src/zophar/parsers/gamelistpage.py:41-62 | a parsed row takes every field from its own cell |
| GameListPage.ParsePage | src/zophar/parsers/gamelistpage.py:38-62 | the rows as entries in order; the first row that raises ends the list with its error |
| GameListPage.ParseGameListPage | src/zophar/parsers/gamelistpage.py:65-70 | a wrong page raises first, then a failing row, then a bad counter; otherwise the entries and the page count |
| GamePage.LabelKey | src/zophar/parsers/gamepage.py:61 | one trailing `:` removed, every other character lower-cased, spaces turned to `_` |
| GamePage.LabelKeyIdempotent | src/zophar/parsers/gamepage.py:61 | a key that does not end in `:` is its own key |
| GamePage.ArchiveSearch | src/zophar/parsers/gamepage.py:26 | the leftmost position where the lookbehind " (", a word run and ").zophar.zip" all match |
| GamePage.ArchiveType | src/zophar/parsers/gamepage.py:49-52 | the matched type is non-empty ASCII word characters with no upper-case letter |
| GamePage.ArchiveTypeOfName | src/zophar/parsers/gamepage.py:26-52 | "stem (Type).zophar.zip" with no `(` in the stem gives the lower-cased Type |
| GamePage.ArchiveTypeNeedsParenthesis | src/zophar/parsers/gamepage.py:26-52 | a file name without `(` has no archive type |
| GamePage.ParseDuration | src/zophar/parsers/gamepage.py:34-35 | a text without `:` raises ValueError, and ValueError is the only error it raises |
| GamePage.DurationRejectsNonInteger | src/zophar/parsers/gamepage.py:34 | "m:s" where either part is not an integer raises ValueError |
| GamePage.DurationOfParts | src/zophar/parsers/gamepage.py:34-35 | "m:s" whose parts read as `m` and `s` lasts 60*m + s seconds |
| GamePage.DurationOfDigits | src/zophar/parsers/gamepage.py:34-35 | the same for decimal digit strings |
| GamePage.DurationExample | src/zophar/parsers/gamepage.py:34-35 | "3:45" lasts 225 seconds |
| Urls.Extension | src/zophar/parsers/gamepage.py:38-39 | the lower-cased suffix without its dot has no `.` and no `/` |
| Urls.ExtensionOfFile | src/zophar/parsers/gamepage.py:38-39 | a file URL `stem.ext`, with a stem that does not end its path and an extension without a dot or a slash, has the lower-cased `ext` as its extension |
| GamePage.UrlPair | src/zophar/parsers/gamepage.py:38-40 | (extension, href) exactly when the anchor has an href, else KeyError |
| GamePage.CollectUrls | src/zophar/parsers/gamepage.py:37-40 | the loop gives the dictionary of the anchors' (extension, URL) pairs, or KeyError |
| GamePage.TrackUrlLastWins | src/zophar/parsers/gamepage.py:40 | an anchor whose extension no later anchor repeats is the track's file of that extension |
| GamePage.TrackUrlKeys | src/zophar/parsers/gamepage.py:37-40 | the track's extensions are exactly those of its anchors |
| GamePage.TrackOf | src/zophar/parsers/gamepage.py:31-42 | title from the `name` cell, length from the `length` cell, files from the row's anchors; errors are ParseError, ValueError or KeyError |
| GamePage.ParseTrack | src/zophar/parsers/gamepage.py:31-42 | the loop body computes the track of its row |
| GamePage.Tracklist | src/zophar/parsers/gamepage.py:30-42 | one track per row in order; the first row that raises ends the list |
| GamePage.ArchivePair | src/zophar/parsers/gamepage.py:46-52 | (type, href) with the type the file name names; KeyError exactly for an anchor without href; otherwise ParseError |
| GamePage.ArchivesOf | src/zophar/parsers/gamepage.py:45-52 | succeeds exactly when every anchor does; every key is a word and is the type its URL names; errors are KeyError or ParseError |
| GamePage.ArchiveLastWins | src/zophar/parsers/gamepage.py:93 | an anchor whose type no later anchor repeats is the archive of that type |
| GamePage.InfoValue | src/zophar/parsers/gamepage.py:64-69 | the cell's text, or a link named by that text to the anchor's path without `/music/`; KeyError for an anchor without href |
| GamePage.InfoEntry | src/zophar/parsers/gamepage.py:58-71 | the `infoname` cell is read first and the `infodata` cell second, both required; the entry is (label key, value) |
| GamePage.InfoEntryKinds | src/zophar/parsers/gamepage.py:58-71 | a value is text or a link; errors are ParseError or KeyError |
| GamePage.MusicInfo | src/zophar/parsers/gamepage.py:55-71 | the `h2` title first, then one entry per `p` in order |
| GamePage.MusicInfoTitle | src/zophar/parsers/gamepage.py:56 | the first entry is ("name", title) |
| GamePage.MusicInfoEntry | src/zophar/parsers/gamepage.py:58-71 | entry i + 1 is what the i-th `p` gives |
| GamePage.MusicInfoValues | src/zophar/parsers/gamepage.py:55-71 | every value is text or a link |
| GamePage.MusicInfoError | src/zophar/parsers/gamepage.py:58-71 | with a title, the block raises exactly when some `p` raises, and the first such error is reported |
| GamePage.KnownFields | src/zophar/parsers/gamepage.py:99-104 | keeps exactly the keys that name a field, with their values |
| GamePage.DropKeysItems | src/zophar/parsers/gamepage.py:99-104 | popping over a key list removes exactly its unknown keys |
| GamePage.DropKeysOrder | src/zophar/parsers/gamepage.py:99-104 | after i turns the known keys keep their order ahead of the rest |
| GamePage.DropKeysAll | src/zophar/parsers/gamepage.py:99-104 | going through a snapshot of every key leaves exactly the known fields |
| GamePage.DropUnknownFields | src/zophar/parsers/gamepage.py:99-104 | the popping loop leaves exactly the known fields, in their order |
| GamePage.Gathered | src/zophar/parsers/gamepage.py:77-97 | the arguments carry the archive map and the track list the blocks give |
| GamePage.PageBlocks | src/zophar/parsers/gamepage.py:83-97 | a successful read of the blocks holds the entries the information block gives |
| GamePage.PageArgs | src/zophar/parsers/gamepage.py:77-97 | the keys are those given up front, cover, the entries' keys, archives and tracks |
| GamePage.GameInfoOf | src/zophar/parsers/gamepage.py:77-106 | a block error propagates; otherwise the only error is TypeError |
| GamePage.GameInfoOfOk | src/zophar/parsers/gamepage.py:77-106 | a record is built exactly when "path" and "console" are among the keys given up front or read from the entries |
| GamePage.GameInfoBlocks | src/zophar/parsers/gamepage.py:91-97 | the record's archives and tracks are those of their blocks |
| GamePage.InfoHasName | src/zophar/parsers/gamepage.py:56 | the entries always include "name" |
| GamePage.PackagePageNeedsPathEntry | src/zophar/parsers/gamepage.py:74-106 | as written, a page without a "Path:" entry always raises TypeError |
| GamePage.PathGivenUpFront | src/zophar/parsers/gamepage.py:74-106 | with the path given up front, a page whose entries name the console gives a record with that path |
| GamePage.GameInfoFromPage | src/zophar/parsers/gamepage.py:77-106 | the parser body builds the record of the page |
| GamePage.ParseGamePage | src/zophar/parsers/gamepage.py:74-106 | ParseError without the `gamepage` root; otherwise the record built with nothing given up front |
| GamePage.ParseGamePageAt | src/zophar/parsers/gamepage.py:74-106 | the same with the page's path given up front |
| LegacyGamePage.InfoPair | src/zophar/parsers.py:202-206 | Ok exactly when both cells exist; the key is the label key and the value the data text; ParseError otherwise |
| LegacyGamePage.InfoPairAgrees | src/zophar/parsers.py:202-206 | without an anchor in the data cell, the flat and the package readings agree |
| LegacyGamePage.InfoPairKeepsText | src/zophar/parsers.py:203-206 | with an anchor, the flat reading keeps text where the package makes a link or raises KeyError |
| LegacyGamePage.EntriesAreText | src/zophar/parsers.py:202-206 | every entry the paragraphs give is text |
| LegacyGamePage.PageBlocks | src/zophar/parsers.py:199-238 | a successful read of the blocks holds only text entries |
| LegacyGamePage.ArgsOf | src/zophar/parsers.py:193-238 | cover, archives and tracks hold their blocks' values, being written after the entries |
| LegacyGamePage.ArgsKeys | src/zophar/parsers.py:193-238 | the keys are path, name, the entries' keys, cover, archives and tracks |
| LegacyGamePage.GameInfoOf | src/zophar/parsers.py:190-245 | a block error propagates; otherwise the only error is TypeError |
| LegacyGamePage.GameInfoOfOk | src/zophar/parsers.py:190-245 | a record is built exactly when some entry names the console |
| LegacyGamePage.GameInfoPath | src/zophar/parsers.py:193 | the record's path is the one given unless an entry is labelled "Path:" |
| LegacyGamePage.GameInfoName | src/zophar/parsers.py:200 | the record's name is the block's title unless an entry is labelled "Name:" |
| LegacyGamePage.GameInfoValues | src/zophar/parsers.py:199-245 | cover, archives and tracks come from their blocks; every other field is text or absent |
| LegacyGamePage.ReadInfo | src/zophar/parsers.py:202-206 | the loop writes every paragraph's (key, text) in turn, or stops with the first error |
| LegacyGamePage.MassDownload | src/zophar/parsers.py:212-222 | the loop gives the same archives, or error, as the package's archive reading |
| LegacyGamePage.ReadInfoBlock | src/zophar/parsers.py:193-206 | path, title and entries written in turn |
| LegacyGamePage.ReadOtherBlocks | src/zophar/parsers.py:208-238 | cover, then the archive loop, then the track loop |
| LegacyGamePage.Fill | src/zophar/parsers.py:209-223 | the three later assignments made on the dictionary |
| LegacyGamePage.PageArgsOf | src/zophar/parsers.py:193-238 | the method fills the dictionary the blocks define |
| LegacyGamePage.ParseGamePage | src/zophar/parsers.py:190-245 | WrongItemError without the `gamepage` root; otherwise the record of the page with the given path |
| InfoPage.KeptIndexes | src/zophar/parsers/infopage.py:19-21 | the filter keeps exactly the present values, each at an increasing position |
| InfoPage.KeptMembers | src/zophar/parsers/infopage.py:19-21 | a value is kept exactly when some conversion gives it |
| InfoPage.Children | src/zophar/parsers/infopage.py:19-21 | at most one entity per anchor, each with a non-empty trimmed name; the only error is KeyError |
| InfoPage.ChildrenInOrder | src/zophar/parsers/infopage.py:19-21 | the k-th entity is the parsed k-th kept anchor, in document order; an anchor is kept exactly when its link parses; every dropped anchor failed with ParseError |
| InfoPage.ChildrenFails | src/zophar/parsers/infopage.py:19-21 | the page raises exactly when one of its anchors has text but no href |
| InfoPage.ParseInfoPage | src/zophar/parsers/infopage.py:14-21 | ParseError without the `infopage` root; otherwise the kept entities |
| InfoPage.LegacyChildren | src/zophar/parsers.py:253 | at most one entity per anchor; the only error is KeyError |
| InfoPage.LegacyChildrenNonEmpty | src/zophar/parsers.py:253 | every listed entity has a non-empty name and path |
| InfoPage.LegacyParseInfoPage | src/zophar/parsers.py:248-253 | WrongItemError without the `infopage` root; otherwise the kept entities |
| InfoPage.PackageFailsLegacyFails | src/zophar/parsers.py:248-253 | wherever the package version raises, the flat one raises too |
| InfoPage.LegacyChildrenWithinChildren | src/zophar/parsers.py:248-253 | wherever the flat version succeeds, the package version does, and lists every entity the flat one lists |

## Left out

- HTML parsing is not modelled. A parser takes the parsed document (`Dom.Node`) in place of
  the HTML text. The bs4 searches are modelled from their documented behaviour.
- Case and characters: lower-casing covers ASCII letters only, and `int()` accepts ASCII
  digits and underscores only. Unicode letters and digits are not modelled.
- URLs are the href text as written. yarl's percent-decoding and normalisation are not
  modelled.
- Urls.RawPath: an absolute href keeps its scheme and host. `RawPath("https://h/x")` is
  `"https://h/x"`, where yarl's `raw_path` is `"/x"`. An entity read from an off-site anchor
  therefore gets a different path from the one the scraper gives it.
- Urls.Name: for the same reason `Name("https://h")` is `"h"`, where yarl's `name` is `""`.
  It changes the archive type and the extension read from an off-site URL that has no path.
- `slugify` is a foreign library. It is a function parameter of `Folder.Add`.
- `dt.timedelta` is modelled as an integer number of seconds.
- `MappingProxyType` is modelled as a plain dictionary value, because the results are only
  read.
- Logging, `__main__.py`, `const.py` and the package `__init__.py` files are not modelled.
- The flat `_parse_gamelist_raw` and the flat `parse_gamelistpage` (`src/zophar/parsers.py:155-187`)
  are left out. They rely on `assert` statements and assign strings to fields typed as
  entities.
- `src/zophar/parsers/models.py` is not part of this model. The package `gamepage.py` imports
  `GameInfo` and `GAMEINFO_FIELDS` from it, and they are taken to be those of
  `src/zophar/models.py`.
- `MenuItem` is not declared in `src/zophar/models.py`. It is modelled as
  (path, name, menu), from the way it is constructed.
- The `Folder` children map is a plain map. Its insertion order is never observed.
- Models.Folder.Get: stated against the ghost function `Resolve`, which reads the heap.
  Aliasing between folders of the tree is not constrained.
- SearchPage.ParseMainPage: a sidebar element's `.string` is taken as given. bs4's rule
  for elements with several children is modelled only for the single-child chain.

## Findings

| source | as written | input that shows it | evidently intended | confidence | as-written member | corrected member |
|---|---|---|---|---|---|---|
| src/zophar/parsers/gamepage.py:74-106 | `parse_gamepage(html)` starts from an empty `args` and never assigns "path". Yet `GameInfo` requires `path`, so `GameInfo(**args)` raises TypeError | any game page whose information block has no "Path:" label | the page's path is passed in by the caller and placed in `args` first, as the flat `parse_gamepage(html, path)` does at `src/zophar/parsers.py:190-193` | not executed; medium, since `parsers/models.py` is not part of this model | GamePage.PackagePageNeedsPathEntry | GamePage.PathGivenUpFront |
