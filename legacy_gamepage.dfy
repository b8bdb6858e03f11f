/**
 * The game-detail parser of the flat `parsers.py`: the caller gives the page's path, the
 * information block is read before the cover, every information value is kept as text, and
 * each block is filled by a loop that writes into the argument dictionary.
 */
module LegacyGamePage {
  import opened Errors
  import opened Dom
  import opened Locate
  import Dicts
  import Models
  import Urls
  import LegacyHelpers
  import GamePage

  // ---------------------------------------------------------------------------------------
  // Information block
  // ---------------------------------------------------------------------------------------

  /**
   * One paragraph of the information block as (key, text). The `infodata` cell is read
   * before the `infoname` cell, and its text is kept even when it holds a link.
   */
  function InfoPair(p: Node): (r: Result<(string, Models.Value)>)
    ensures r.Ok? <==> Find(p, ByClass("infodata")).Some? && Find(p, ByClass("infoname")).Some?
    ensures r.Ok? ==> r.value.1 == Models.Str(GetString(Find(p, ByClass("infodata")).value))
    ensures r.Ok? ==> r.value.0 == GamePage.LabelKey(GetString(Find(p, ByClass("infoname")).value))
    ensures r.Err? ==> r.error == ParseError(TagNotFound)
  {
    var data :- GetStringOf(p, ByClass("infodata"));
    var name :- GetStringOf(p, ByClass("infoname"));
    Ok((GamePage.LabelKey(name), Models.Str(data)))
  }

  /** Where the data cell holds no anchor, the package's reading of a paragraph is the same. */
  lemma InfoPairAgrees(p: Node)
    requires Find(p, ByClass("infodata")).Some? ==> Find(Find(p, ByClass("infodata")).value, ByTag("a")).None?
    ensures InfoPair(p) == GamePage.InfoEntry(p)
  {
  }

  /**
   * Where the data cell holds a linked anchor, this reading keeps the text and the
   * package's makes a link of it; where the anchor has no `href`, the package raises.
   */
  lemma InfoPairKeepsText(p: Node)
    requires Find(p, ByClass("infodata")).Some? && Find(p, ByClass("infoname")).Some?
    requires Find(Find(p, ByClass("infodata")).value, ByTag("a")).Some?
    ensures InfoPair(p).Ok? && InfoPair(p).value.1.Str?
    ensures GamePage.InfoEntry(p).Ok? ==> GamePage.InfoEntry(p).value.1.Link?
    ensures GamePage.InfoEntry(p).Err? ==> GamePage.InfoEntry(p).error == KeyError
  {
  }

  function InfoPairs(ps: seq<Node>): (r: seq<Result<(string, Models.Value)>>)
    ensures |r| == |ps| && forall i :: 0 <= i < |ps| ==> r[i] == InfoPair(ps[i])
  {
    seq(|ps|, i requires 0 <= i < |ps| => InfoPair(ps[i]))
  }

  /** Every entry the paragraphs yield is text. */
  lemma EntriesAreText(ps: seq<Node>)
    requires Collect(InfoPairs(ps)).Ok?
    ensures forall e :: e in Collect(InfoPairs(ps)).value ==> e.1.Str?
  {
    var rs := InfoPairs(ps);
    var es := Collect(rs).value;
    forall e | e in es
      ensures e.1.Str?
    {
      var i :| 0 <= i < |es| && es[i] == e;
      assert rs[i] == Ok(es[i]);
    }
  }

  // ---------------------------------------------------------------------------------------
  // The arguments
  // ---------------------------------------------------------------------------------------

  /** What the blocks of a page yield: the title, the entries, the cover, archives and tracks. */
  datatype Blocks = Blocks(
    name: string,
    entries: seq<(string, Models.Value)>,
    cover: Option<string>,
    archives: Dicts.Dict<string, string>,
    tracks: seq<Models.GameTrack>)

  /** The information block: its title, then one text entry per paragraph. */
  function InfoOf(page: Node): (r: Result<(string, seq<(string, Models.Value)>)>)
    ensures r.Ok? ==> forall e :: e in r.value.1 ==> e.1.Str?
  {
    var infoBlock :- GetTag(page, ById("music_info"));
    var name :- GetStringOf(infoBlock, ByTag("h2"));
    var entries :- Collect(InfoPairs(FindAll(infoBlock, ByTag("p"))));
    EntriesAreText(FindAll(infoBlock, ByTag("p")));
    Ok((name, entries))
  }

  /** The blocks after the information block: the cover, the archives, the tracks. */
  function OtherBlocks(page: Node): Result<(Option<string>, Dicts.Dict<string, string>, seq<Models.GameTrack>)> {
    var coverBlock :- GetTag(page, ById("music_cover"));
    var cover :- GetImgSrc(coverBlock);
    var downloads :- GetTag(page, ById("mass_download"));
    var archives :- GamePage.ArchivesOf(downloads);
    var tracklist :- GetTag(page, ById("tracklist"));
    var tracks :- Collect(GamePage.TrackResults(GamePage.TrackRows(tracklist)));
    Ok((cover, archives, tracks))
  }

  /**
   * The blocks in the order the parser reads them: the information block (title, then
   * every paragraph), the cover, the archives, the tracks. The first that raises ends the parse.
   */
  function PageBlocks(page: Node): (r: Result<Blocks>)
    ensures r.Ok? ==> forall e :: e in r.value.entries ==> e.1.Str?
  {
    var info :- InfoOf(page);
    var rest :- OtherBlocks(page);
    Ok(Blocks(info.0, info.1, rest.0, rest.1, rest.2))
  }

  /** The assignments before the entries: the given path, then the title. */
  function Head(path: string, name: string): seq<(string, Models.Value)> {
    [("path", Models.Str(path)), ("name", Models.Str(name))]
  }

  /** The assignments after the entries: cover, archives, tracks. */
  function Tail(b: Blocks): seq<(string, Models.Value)> {
    [("cover", GamePage.CoverValue(b.cover)), ("archives", Models.Archives(b.archives)), ("tracks", Models.Tracks(b.tracks))]
  }

  /** The dictionary after every assignment, a later one replacing an earlier one of the same key. */
  function ArgsOf(path: string, b: Blocks): (r: Dicts.Dict<string, Models.Value>)
    ensures Dicts.Valid(r) && Models.WellTyped(r)
    ensures "cover" in r.items && r.items["cover"] == GamePage.CoverValue(b.cover)
    ensures "archives" in r.items && r.items["archives"] == Models.Archives(b.archives)
    ensures "tracks" in r.items && r.items["tracks"] == Models.Tracks(b.tracks)
  {
    var ps := Head(path, b.name) + b.entries + Tail(b);
    var n := |ps|;
    assert ps[n - 3..] == Tail(b);
    Dicts.FromPairsLastWins(ps, n - 3);
    Dicts.FromPairsLastWins(ps, n - 2);
    Dicts.FromPairsLastWins(ps, n - 1);
    Dicts.FromPairs(ps)
  }

  /** The keys given: path, name, the entries' keys, cover, archives and tracks. */
  lemma ArgsKeys(path: string, b: Blocks)
    ensures ArgsOf(path, b).items.Keys ==
      {"path", "name"} + Dicts.KeysOf(b.entries) + {"cover", "archives", "tracks"}
  {
    var head := Head(path, b.name);
    var tail := Tail(b);
    Dicts.FromPairsKeySet(head + b.entries + tail);
    Dicts.KeysOfAppend(head, b.entries);
    Dicts.KeysOfAppend(head + b.entries, tail);
    Dicts.KeysOfTwo(head[0], head[1]);
    Dicts.KeysOfThree(tail[0], tail[1], tail[2]);
  }

  function PageArgs(page: Node, path: string): (r: Result<Dicts.Dict<string, Models.Value>>)
    ensures PageBlocks(page).Err? ==> r == Err(PageBlocks(page).error)
    ensures r.Ok? ==> Dicts.Valid(r.value) && Models.WellTyped(r.value)
  {
    var b :- PageBlocks(page);
    Ok(ArgsOf(path, b))
  }

  /** The record: the arguments without the unknown keys, given to the record's constructor. */
  function GameInfoOf(page: Node, path: string): (r: Result<Models.GameInfo>)
    ensures PageBlocks(page).Err? ==> r == Err(PageBlocks(page).error)
    ensures PageBlocks(page).Ok? && r.Err? ==> r.error == TypeError
  {
    var args :- PageArgs(page, path);
    Models.NewGameInfo(GamePage.KnownFields(args))
  }

  // ---------------------------------------------------------------------------------------
  // Properties of the record
  // ---------------------------------------------------------------------------------------

  /** With the path given and the title always read, a record is built exactly when some entry names the console. */
  lemma GameInfoOfOk(page: Node, path: string)
    requires PageBlocks(page).Ok?
    ensures GameInfoOf(page, path).Ok? <==> "console" in Dicts.KeysOf(PageBlocks(page).value.entries)
  {
    var b := PageBlocks(page).value;
    var args := ArgsOf(path, b);
    assert GameInfoOf(page, path) == Models.NewGameInfo(GamePage.KnownFields(args));
    ArgsKeys(path, b);
    GamePage.KeptRequired(args);
    RequiredBesideHead(args.items.Keys, Dicts.KeysOf(b.entries));
  }

  /** Path, name, archives and tracks are always assigned, so only the console can be missing. */
  lemma RequiredBesideHead(keys: set<string>, entries: set<string>)
    requires keys == {"path", "name"} + entries + {"cover", "archives", "tracks"}
    ensures Models.RequiredFields <= keys <==> "console" in entries
  {
  }

  /** The record is built from the arguments of the page's blocks. */
  lemma RecordOfArgs(page: Node, path: string)
    requires GameInfoOf(page, path).Ok?
    ensures PageBlocks(page).Ok?
    ensures var args := ArgsOf(path, PageBlocks(page).value);
      GameInfoOf(page, path) == Models.NewGameInfo(GamePage.KnownFields(args))
  {
  }

  /** A head assignment no entry repeats keeps its value. */
  lemma HeadKept(path: string, b: Blocks, i: nat)
    requires i < 2 && Head(path, b.name)[i].0 !in Dicts.KeysOf(b.entries)
    ensures var args := ArgsOf(path, b);
      Head(path, b.name)[i].0 in args.items && args.items[Head(path, b.name)[i].0] == Head(path, b.name)[i].1
  {
    var head := Head(path, b.name);
    var tail := Tail(b);
    var ps := head + b.entries + tail;
    var m := 2 + |b.entries|;
    forall j | i < j < |ps|
      ensures ps[j].0 != ps[i].0
    {
      if j < 2 {
        assert ps[j] == head[j];
      } else if j < m {
        assert ps[j] == b.entries[j - 2];
      } else {
        assert ps[j] == tail[j - m];
      }
    }
    assert ps[i] == head[i];
    Dicts.FromPairsLastWins(ps, i);
  }

  /** The path is the one given, unless an entry is itself labelled "Path:". */
  lemma GameInfoPath(page: Node, path: string)
    requires GameInfoOf(page, path).Ok?
    requires "path" !in Dicts.KeysOf(PageBlocks(page).value.entries)
    ensures GameInfoOf(page, path).value.path == Models.Str(path)
  {
    var b := PageBlocks(page).value;
    RecordOfArgs(page, path);
    HeadKept(path, b, 0);
    var args := ArgsOf(path, b);
    assert args.items["path"] == Models.Str(path);
    var kept := GamePage.KnownFields(args);
    assert kept.items["path"] == Models.Str(path);
  }

  /** The name is the block's title, unless an entry is itself labelled "Name:". */
  lemma GameInfoName(page: Node, path: string)
    requires GameInfoOf(page, path).Ok?
    requires "name" !in Dicts.KeysOf(PageBlocks(page).value.entries)
    ensures GameInfoOf(page, path).value.name == Models.Str(PageBlocks(page).value.name)
  {
    var b := PageBlocks(page).value;
    RecordOfArgs(page, path);
    HeadKept(path, b, 1);
    var args := ArgsOf(path, b);
    assert args.items["name"] == Models.Str(b.name);
    var kept := GamePage.KnownFields(args);
    assert kept.items["name"] == Models.Str(b.name);
  }

  /**
   * The cover, archives and tracks are those of their blocks (they are written after the
   * entries), and every other field holds text or is absent: no field is a link here.
   */
  lemma GameInfoValues(page: Node, path: string)
    requires GameInfoOf(page, path).Ok?
    ensures var g := GameInfoOf(page, path).value;
      && g.cover == GamePage.CoverValue(PageBlocks(page).value.cover)
      && g.archives == PageBlocks(page).value.archives
      && g.tracks == PageBlocks(page).value.tracks
      && g.path.Str? && g.name.Str? && g.console.Str?
      && (g.releaseDate.Str? || g.releaseDate.NoValue?)
      && (g.developer.Str? || g.developer.NoValue?)
      && (g.publisher.Str? || g.publisher.NoValue?)
  {
    var b := PageBlocks(page).value;
    RecordOfArgs(page, path);
    KeptText(path, b);
    var kept := GamePage.KnownFields(ArgsOf(path, b));
    FieldsOfKept(kept);
    assert kept.items["cover"] == GamePage.CoverValue(b.cover);
  }

  lemma KeptText(path: string, b: Blocks)
    requires forall e :: e in b.entries ==> e.1.Str?
    ensures var kept := GamePage.KnownFields(ArgsOf(path, b));
      forall k :: k in kept.items && k !in {"cover", "archives", "tracks"} ==> kept.items[k].Str?
  {
    var args := ArgsOf(path, b);
    var kept := GamePage.KnownFields(args);
    forall k | k in kept.items && k !in {"cover", "archives", "tracks"}
      ensures kept.items[k].Str?
    {
      ArgsText(path, b, k);
    }
  }

  /** Fields read from arguments whose values other than cover, archives and tracks are text. */
  lemma FieldsOfKept(kept: Dicts.Dict<string, Models.Value>)
    requires Models.WellTyped(kept) && Models.NewGameInfo(kept).Ok?
    requires forall k :: k in kept.items && k !in {"cover", "archives", "tracks"} ==> kept.items[k].Str?
    ensures var g := Models.NewGameInfo(kept).value;
      && g.cover == Models.Lookup(kept, "cover")
      && g.archives == kept.items["archives"].archives
      && g.tracks == kept.items["tracks"].tracks
      && g.path.Str? && g.name.Str? && g.console.Str?
      && (g.releaseDate.Str? || g.releaseDate.NoValue?)
      && (g.developer.Str? || g.developer.NoValue?)
      && (g.publisher.Str? || g.publisher.NoValue?)
  {
  }

  /** Every value of the arguments other than cover, archives and tracks is text. */
  lemma ArgsText(path: string, b: Blocks, k: string)
    requires forall e :: e in b.entries ==> e.1.Str?
    requires k in ArgsOf(path, b).items && k !in {"cover", "archives", "tracks"}
    ensures ArgsOf(path, b).items[k].Str?
  {
    var ps := Head(path, b.name) + b.entries + Tail(b);
    Dicts.FromPairsValueFrom(ps, k);
    var i :| 0 <= i < |ps| && ps[i].0 == k && ps[i].1 == ArgsOf(path, b).items[k];
    var p := ps[i];
    assert p in Head(path, b.name) || p in b.entries || p in Tail(b);
  }

  // ---------------------------------------------------------------------------------------
  // The parser
  // ---------------------------------------------------------------------------------------

  /**
   * The loop over the paragraphs: `args[key] = data` for each in turn. The first paragraph
   * that raises ends the parse with its error.
   */
  method ReadInfo(args: Dicts.Dict<string, Models.Value>, ghost prefix: seq<(string, Models.Value)>, ps: seq<Node>)
    returns (r: Result<Dicts.Dict<string, Models.Value>>)
    requires args == Dicts.FromPairs(prefix)
    ensures Collect(InfoPairs(ps)).Err? ==> r == Err(Collect(InfoPairs(ps)).error)
    ensures Collect(InfoPairs(ps)).Ok? ==> r == Ok(Dicts.FromPairs(prefix + Collect(InfoPairs(ps)).value))
  {
    ghost var results := InfoPairs(ps);
    ghost var entries: seq<(string, Models.Value)> := [];
    var current := args;
    var i := 0;
    assert prefix + [] == prefix;
    while i < |ps|
      invariant 0 <= i <= |ps|
      invariant Collect(results[..i]) == Ok(entries)
      invariant current == Dicts.FromPairs(prefix + entries)
    {
      CollectSnoc(results, i);
      var data := GetStringOf(ps[i], ByClass("infodata"));
      if data.Err? {
        CollectStopsAtError(results, i + 1);
        return Err(data.error);
      }
      var name := GetStringOf(ps[i], ByClass("infoname"));
      if name.Err? {
        CollectStopsAtError(results, i + 1);
        return Err(name.error);
      }
      var key := GamePage.LabelKey(name.value);
      current := Dicts.Set(current, key, Models.Str(data.value));
      Dicts.FromPairsSnocAfter(prefix, entries, (key, Models.Str(data.value)));
      entries := entries + [(key, Models.Str(data.value))];
      i := i + 1;
    }
    assert results[..i] == results;
    r := Ok(current);
  }

  /**
   * The loop over the download anchors: `archives[type] = url` for each in turn; an anchor
   * without `href` raises KeyError and a file name without the type token a ParseError.
   */
  method MassDownload(block: Node) returns (r: Result<Dicts.Dict<string, string>>)
    ensures r == GamePage.ArchivesOf(block)
  {
    var anchors := FindAll(block, ByTag("a"));
    ghost var results := GamePage.ArchiveResults(anchors);
    ghost var pairs: seq<(string, string)> := [];
    var archives: Dicts.Dict<string, string> := Dicts.Empty();
    var i := 0;
    while i < |anchors|
      invariant 0 <= i <= |anchors|
      invariant Collect(results[..i]) == Ok(pairs)
      invariant archives == Dicts.FromPairs(pairs)
    {
      CollectSnoc(results, i);
      var pair := GamePage.ArchivePair(anchors[i]);
      if pair.Err? {
        CollectStopsAtError(results, i + 1);
        GamePage.ArchivesOfRun(block);
        return Err(pair.error);
      }
      var (t, url) := pair.value;
      archives := Dicts.Set(archives, t, url);
      Dicts.FromPairsSnoc(pairs, (t, url));
      pairs := pairs + [(t, url)];
      i := i + 1;
    }
    assert results[..i] == results;
    GamePage.ArchivesOfRun(block);
    r := Ok(archives);
  }

  /**
   * `parse_gamepage(html, path)`: a document without the `gamepage` root raises
   * WrongItemError; otherwise the dictionary starts with the given path and is filled block
   * by block, the unknown keys are popped and the record is built.
   */
  method ParseGamePage(doc: Node, path: string) returns (r: Result<Models.GameInfo>)
    ensures Find(doc, ById("gamepage")).None? ==> r == Err(WrongItemError)
    ensures Find(doc, ById("gamepage")).Some? ==> r == GameInfoOf(Find(doc, ById("gamepage")).value, path)
  {
    var page :- LegacyHelpers.GetTagFromHtml(doc, "gamepage");
    var args := PageArgsOf(page, path);
    if args.Err? {
      return Err(args.error);
    }
    var kept := GamePage.DropUnknownFields(args.value);
    r := Models.NewGameInfo(kept);
  }

  /** The dictionary built by the blocks of `page`, as the parser fills it. */
  method PageArgsOf(page: Node, path: string) returns (r: Result<Dicts.Dict<string, Models.Value>>)
    ensures r == PageArgs(page, path)
  {
    var filled :- ReadInfoBlock(page, path);
    ghost var info := InfoOf(page).value;
    var rest :- ReadOtherBlocks(page);
    ghost var b := Blocks(info.0, info.1, rest.0, rest.1, rest.2);
    assert PageBlocks(page) == Ok(b);
    assert Tail(b) == Tail(Blocks([], [], rest.0, rest.1, rest.2));
    r := Ok(Fill(filled, Head(path, info.0) + info.1, rest.0, rest.1, rest.2));
  }

  /** The path, the title and the entries written in turn. */
  method ReadInfoBlock(page: Node, path: string) returns (r: Result<Dicts.Dict<string, Models.Value>>)
    ensures InfoOf(page).Err? ==> r == Err(InfoOf(page).error)
    ensures InfoOf(page).Ok? ==> r == Ok(Dicts.FromPairs(Head(path, InfoOf(page).value.0) + InfoOf(page).value.1))
  {
    var infoBlock :- GetTag(page, ById("music_info"));
    var name :- GetStringOf(infoBlock, ByTag("h2"));
    var head := Head(path, name);
    var args := Dicts.Set(Dicts.Set(Dicts.Empty(), "path", Models.Str(path)), "name", Models.Str(name));
    Dicts.FromPairsTwo(("path", Models.Str(path)), ("name", Models.Str(name)));
    r := ReadInfo(args, head, FindAll(infoBlock, ByTag("p")));
  }

  /** The cover, then the archive loop, then the track loop. */
  method ReadOtherBlocks(page: Node)
    returns (r: Result<(Option<string>, Dicts.Dict<string, string>, seq<Models.GameTrack>)>)
    ensures r == OtherBlocks(page)
  {
    var coverBlock :- GetTag(page, ById("music_cover"));
    var cover :- GetImgSrc(coverBlock);
    var downloads :- GetTag(page, ById("mass_download"));
    var archives :- MassDownload(downloads);
    var tracklist :- GetTag(page, ById("tracklist"));
    var tracks :- GamePage.Tracklist(tracklist);
    r := Ok((cover, archives, tracks));
  }

  /** The three assignments after the entries, made in turn on the dictionary. */
  function Fill(
    args: Dicts.Dict<string, Models.Value>, ghost ps: seq<(string, Models.Value)>,
    cover: Option<string>, archives: Dicts.Dict<string, string>, tracks: seq<Models.GameTrack>)
    : (r: Dicts.Dict<string, Models.Value>)
    requires args == Dicts.FromPairs(ps)
    ensures r == Dicts.FromPairs(ps + Tail(Blocks([], [], cover, archives, tracks)))
  {
    var tail := Tail(Blocks([], [], cover, archives, tracks));
    Dicts.FromPairsSnoc3(ps, tail[0], tail[1], tail[2]);
    assert tail == [tail[0], tail[1], tail[2]];
    var withCover := Dicts.Set(args, "cover", GamePage.CoverValue(cover));
    var withArchives := Dicts.Set(withCover, "archives", Models.Archives(archives));
    Dicts.Set(withArchives, "tracks", Models.Tracks(tracks))
  }
}
