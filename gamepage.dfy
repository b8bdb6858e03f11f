/**
 * The game-detail page parser (`parsers/gamepage.py`): the information block, the cover,
 * the archive downloads and the track list, gathered into keyword arguments of a game record.
 */
module GamePage {
  import opened Errors
  import opened Dom
  import opened Locate
  import opened Text
  import Dicts
  import Urls
  import Helpers
  import Models

  // ---------------------------------------------------------------------------------------
  // Label keys
  // ---------------------------------------------------------------------------------------

  /** The field key of an information label: one trailing `:` removed, lower-cased, spaces to `_`. */
  function LabelKey(caption: string): (r: string)
    ensures ' ' !in r
    ensures |r| == (if EndsWith(caption, ":") then |caption| - 1 else |caption|)
    ensures forall i :: 0 <= i < |r| ==> r[i] == (if caption[i] == ' ' then '_' else LowerChar(caption[i]))
  {
    var base := RemoveSuffix(caption, ":");
    assert forall i :: 0 <= i < |base| ==> base[i] == caption[i] by {
      if EndsWith(caption, ":") {
        assert base + ":" == caption;
        assert forall i :: 0 <= i < |base| ==> (base + ":")[i] == base[i];
      }
    }
    ReplaceChar(Lower(base), ' ', '_')
  }

  /** A key is its own key, unless it still ends in `:`. */
  lemma LabelKeyIdempotent(caption: string)
    requires !EndsWith(LabelKey(caption), ":")
    ensures LabelKey(LabelKey(caption)) == LabelKey(caption)
  {
    var k := LabelKey(caption);
    assert forall i :: 0 <= i < |k| ==> LowerChar(k[i]) == k[i];
  }

  // ---------------------------------------------------------------------------------------
  // Archive type
  // ---------------------------------------------------------------------------------------

  /** `\w` under ASCII matching: letters, digits and `_`. */
  predicate IsWordChar(c: char) {
    'a' <= c <= 'z' || 'A' <= c <= 'Z' || '0' <= c <= '9' || c == '_'
  }

  predicate AllWord(s: string) {
    forall i :: 0 <= i < |s| ==> IsWordChar(s[i])
  }

  /** The number of leading word characters of `s`. */
  function WordRun(s: string): (r: nat)
    ensures r <= |s|
    ensures AllWord(s[..r])
    ensures r < |s| ==> !IsWordChar(s[r])
  {
    if s == [] || !IsWordChar(s[0]) then 0
    else
      var k := WordRun(s[1..]);
      assert s[..k + 1] == [s[0]] + s[1..][..k];
      k + 1
  }

  lemma {:induction false} WordRunOf(w: string, t: string)
    requires AllWord(w) && (t != [] ==> !IsWordChar(t[0]))
    ensures WordRun(w + t) == |w|
  {
    if w != [] {
      assert (w + t)[1..] == w[1..] + t;
      WordRunOf(w[1..], t);
    } else {
      assert w + t == t;
    }
  }

  const ArchiveSuffix := ").zophar.zip"

  /**
   * The archive pattern `(?<= \()\w+(?=\)\.zophar\.zip)` matches at `p`: `p` follows " (",
   * and the word run starting there is followed by ").zophar.zip". A shorter run would be
   * followed by a word character rather than `)`, so the greedy run is the only candidate.
   */
  predicate ArchiveMatchAt(name: string, p: int) {
    && 2 <= p <= |name|
    && name[p - 2..p] == " ("
    && WordRun(name[p..]) >= 1
    && StartsWith(name[p + WordRun(name[p..])..], ArchiveSuffix)
  }

  /** The leftmost match at or after `from` (`search` scans left to right). */
  function ArchiveSearch(name: string, from: nat): (r: Option<nat>)
    ensures r.Some? ==> from <= r.value && ArchiveMatchAt(name, r.value)
    ensures r.Some? ==> forall q :: from <= q < r.value ==> !ArchiveMatchAt(name, q)
    ensures r.None? ==> forall q :: from <= q ==> !ArchiveMatchAt(name, q)
    decreases |name| - from
  {
    if from > |name| then None
    else if ArchiveMatchAt(name, from) then Some(from)
    else ArchiveSearch(name, from + 1)
  }

  /** The archive type named in a file name, lower-cased; none when the pattern does not match. */
  function ArchiveType(name: string): (r: Option<string>)
    ensures r.Some? ==> r.value != [] && AllWord(r.value)
    ensures r.Some? ==> forall i :: 0 <= i < |r.value| ==> !('A' <= r.value[i] <= 'Z')
  {
    match ArchiveSearch(name, 0)
    case None => None
    case Some(p) =>
      var w := name[p..][..WordRun(name[p..])];
      Some(Lower(w))
  }

  /** A file name "<stem> (<type>).zophar.zip" whose stem has no `(` names its type. */
  lemma ArchiveTypeOfName(stem: string, w: string)
    requires '(' !in stem && w != [] && AllWord(w)
    ensures ArchiveType(stem + " (" + w + ArchiveSuffix) == Some(Lower(w))
  {
    var name := stem + " (" + w + ArchiveSuffix;
    var t := w + ArchiveSuffix;
    assert name == stem + " (" + t;
    ArchiveMatchAfterStem(name, stem, w);
    NoArchiveMatchInStem(name, stem, t);
    ArchiveSearchFinds(name, |stem| + 2);
    ArchiveTypeAt(name, |stem| + 2);
  }

  /** The type is the word run at the position the search finds. */
  lemma ArchiveTypeAt(name: string, p: nat)
    requires ArchiveSearch(name, 0) == Some(p)
    ensures ArchiveType(name) == Some(Lower(name[p..][..WordRun(name[p..])]))
  {
  }

  /** The search stops at the leftmost match. */
  lemma ArchiveSearchFinds(name: string, p: nat)
    requires ArchiveMatchAt(name, p)
    requires forall q :: 0 <= q < p ==> !ArchiveMatchAt(name, q)
    ensures ArchiveSearch(name, 0) == Some(p)
  {
  }

  /** In "<stem> (<w>).zophar.zip" the word run after " (" is `w` and the suffix follows it. */
  lemma ArchiveMatchAfterStem(name: string, stem: string, w: string)
    requires name == stem + " (" + (w + ArchiveSuffix)
    requires w != [] && AllWord(w)
    ensures ArchiveMatchAt(name, |stem| + 2)
    ensures name[|stem| + 2..][..WordRun(name[|stem| + 2..])] == w
  {
    var p := |stem| + 2;
    assert name[p - 2..p] == " (";
    assert name[p..] == w + ArchiveSuffix;
    WordRunOf(w, ArchiveSuffix);
    assert name[p..][|w|..] == ArchiveSuffix;
    assert name[p..][..|w|] == w;
  }

  /** No match can start inside a stem without `(`, nor right after it. */
  lemma NoArchiveMatchInStem(name: string, stem: string, rest: string)
    requires name == stem + " (" + rest
    requires '(' !in stem
    ensures forall q :: 0 <= q < |stem| + 2 ==> !ArchiveMatchAt(name, q)
  {
    forall q | 0 <= q < |stem| + 2
      ensures !ArchiveMatchAt(name, q)
    {
      if 2 <= q {
        assert name[q - 2..q][1] == name[q - 1];
        if q - 1 < |stem| {
          assert name[q - 1] == stem[q - 1];
        } else {
          assert name[q - 1] == ' ';
        }
      }
    }
  }

  /** A file name without `(` names no archive type. */
  lemma ArchiveTypeNeedsParenthesis(name: string)
    requires '(' !in name
    ensures ArchiveType(name) == None
  {
    forall q | 0 <= q
      ensures !ArchiveMatchAt(name, q)
    {
      if 2 <= q <= |name| {
        assert name[q - 2..q][1] == name[q - 1];
      }
    }
  }

  // ---------------------------------------------------------------------------------------
  // Track duration
  // ---------------------------------------------------------------------------------------

  /**
   * `m, s = map(int, text.split(":", 1))` then `timedelta(minutes=m, seconds=s)`, in seconds.
   * Without a `:` there is one value to unpack; a part that is not an integer fails `int()`.
   * Both raise ValueError.
   */
  function ParseDuration(text: string): (r: Result<int>)
    ensures ':' !in text ==> r == Err(ValueError)
    ensures r.Err? ==> r.error == ValueError
  {
    if ':' !in text then Err(ValueError)
    else
      var parts := Partition(text, ':');
      var m := ParseInt(parts.0);
      var s := ParseInt(parts.1);
      if m.Some? && s.Some? then Ok(60 * m.value + s.value) else Err(ValueError)
  }

  /** "m:s" where either part is not an integer raises ValueError. */
  lemma DurationRejectsNonInteger(a: string, b: string)
    requires ':' !in a && (ParseInt(a).None? || ParseInt(b).None?)
    ensures ParseDuration(a + ":" + b) == Err(ValueError)
  {
    var t := a + ":" + b;
    assert t == a + [':'] + b;
    PartitionAt(a, b, ':');
    assert t[|a|] == ':';
  }

  /** "m:s" whose parts read as integers `m` and `s` is `m` minutes and `s` seconds. */
  lemma DurationOfParts(a: string, b: string, m: int, s: int)
    requires ':' !in a && ParseInt(a) == Some(m) && ParseInt(b) == Some(s)
    ensures ParseDuration(a + ":" + b) == Ok(60 * m + s)
  {
    var t := a + ":" + b;
    assert t == a + [':'] + b;
    PartitionAt(a, b, ':');
    assert t[|a|] == ':';
    assert Partition(t, ':') == (a, b);
  }

  /** "m:s" written in decimal digits is `m` minutes and `s` seconds. */
  lemma DurationOfDigits(a: string, b: string, m: nat, s: nat)
    requires a != [] && AllDigits(a) && b != [] && AllDigits(b)
    requires m == DigitsValue(a) && s == DigitsValue(b)
    ensures ParseDuration(a + ":" + b) == Ok(60 * m + s)
  {
    ParseIntOfDigits(a);
    ParseIntOfDigits(b);
    NoColonInDigits(a);
    DurationOfParts(a, b, m, s);
  }

  lemma NoColonInDigits(a: string)
    requires AllDigits(a)
    ensures ':' !in a
  {
    forall i | 0 <= i < |a|
      ensures a[i] != ':'
    {
      assert IsDigit(a[i]);
    }
  }

  /** "3:45" lasts 225 seconds. */
  lemma DurationExample()
    ensures ParseDuration("3:45") == Ok(225)
  {
    DigitsThree();
    DigitsFortyFive();
    DurationOfDigits("3", "45", 3, 45);
    ThreeFortyFive();
  }

  lemma ThreeFortyFive()
    ensures "3" + ":" + "45" == "3:45"
  {
    assert ("3" + ":" + "45")[2] == '4';
  }

  lemma DigitsThree()
    ensures AllDigits("3") && DigitsValue("3") == 3
  {
    assert "3"[..0] == [];
  }

  lemma DigitsFortyFive()
    ensures AllDigits("45") && DigitsValue("45") == 45
  {
    assert "45"[..1] == "4";
    assert "4"[..0] == [];
  }

  // ---------------------------------------------------------------------------------------
  // Track files
  // ---------------------------------------------------------------------------------------

  /** An anchor of a track row as (extension, URL); an anchor without `href` raises KeyError. */
  function UrlPair(a: Node): (r: Result<(string, string)>)
    ensures r.Ok? <==> a.Element? && a.attrs.href.Some?
    ensures r.Ok? ==> r.value == (Urls.Extension(a.attrs.href.value), a.attrs.href.value)
    ensures r.Err? ==> r.error == KeyError
  {
    if !a.Element? || a.attrs.href.None? then Err(KeyError)
    else Ok((Urls.Extension(a.attrs.href.value), a.attrs.href.value))
  }

  function UrlResults(anchors: seq<Node>): (r: seq<Result<(string, string)>>)
    ensures |r| == |anchors| && forall i :: 0 <= i < |anchors| ==> r[i] == UrlPair(anchors[i])
  {
    seq(|anchors|, i requires 0 <= i < |anchors| => UrlPair(anchors[i]))
  }

  /** The (extension, URL) pairs of the anchors, in document order. */
  function UrlPairs(anchors: seq<Node>): (r: Result<seq<(string, string)>>)
    ensures r.Err? ==> r.error == KeyError
  {
    Collect(UrlResults(anchors))
  }

  /** The loop filling a track's `urls`: `urls[extension] = url` for every anchor in turn. */
  method CollectUrls(anchors: seq<Node>) returns (r: Result<Dicts.Dict<string, string>>)
    ensures r.Ok? <==> UrlPairs(anchors).Ok?
    ensures r.Ok? ==> r.value == Dicts.FromPairs(UrlPairs(anchors).value)
    ensures r.Err? ==> r.error == KeyError
  {
    ghost var results := UrlResults(anchors);
    ghost var pairs: seq<(string, string)> := [];
    var urls: Dicts.Dict<string, string> := Dicts.Empty();
    var i := 0;
    while i < |anchors|
      invariant 0 <= i <= |anchors|
      invariant Collect(results[..i]) == Ok(pairs)
      invariant urls == Dicts.FromPairs(pairs)
    {
      CollectSnoc(results, i);
      var a := anchors[i];
      if !a.Element? || a.attrs.href.None? {
        CollectStopsAtError(results, i + 1);
        return Err(KeyError);
      }
      var url := a.attrs.href.value;
      var format := Urls.Extension(url);
      urls := Dicts.Set(urls, format, url);
      Dicts.FromPairsSnoc(pairs, (format, url));
      pairs := pairs + [(format, url)];
      i := i + 1;
    }
    assert results[..i] == results;
    r := Ok(urls);
  }

  /** An anchor whose extension no later anchor repeats is the track's file of that extension. */
  lemma TrackUrlLastWins(anchors: seq<Node>, i: nat)
    requires UrlPairs(anchors).Ok? && i < |anchors|
    requires forall j :: i < j < |anchors| ==>
      Urls.Extension(anchors[j].attrs.href.value) != Urls.Extension(anchors[i].attrs.href.value)
    ensures var urls := Dicts.FromPairs(UrlPairs(anchors).value);
      && Urls.Extension(anchors[i].attrs.href.value) in urls.items
      && urls.items[Urls.Extension(anchors[i].attrs.href.value)] == anchors[i].attrs.href.value
  {
    Dicts.FromPairsLastWins(UrlPairs(anchors).value, i);
  }

  /** The track's extensions are exactly the extensions of its anchors. */
  lemma TrackUrlKeys(anchors: seq<Node>, ext: string)
    requires UrlPairs(anchors).Ok?
    ensures ext in Dicts.FromPairs(UrlPairs(anchors).value).items <==>
      exists i :: 0 <= i < |anchors| && Urls.Extension(anchors[i].attrs.href.value) == ext
  {
    var ps := UrlPairs(anchors).value;
    if exists i :: 0 <= i < |anchors| && Urls.Extension(anchors[i].attrs.href.value) == ext {
      var i :| 0 <= i < |anchors| && Urls.Extension(anchors[i].attrs.href.value) == ext;
      Dicts.FromPairsHasKey(ps, i);
    } else {
      Dicts.FromPairsOnlyGivenKeys(ps, ext);
    }
  }

  // ---------------------------------------------------------------------------------------
  // Tracks
  // ---------------------------------------------------------------------------------------

  /**
   * One track row: title from the `name` cell, duration from the `length` cell, files from
   * every anchor of the row.
   */
  function TrackOf(row: Node): (r: Result<Models.GameTrack>)
    ensures Find(row, ByClass("name")).None? ==> r == Err(ParseError(TagNotFound))
    ensures r.Ok? ==>
      && Find(row, ByClass("name")).Some? && Find(row, ByClass("length")).Some?
      && r.value.title == GetString(Find(row, ByClass("name")).value)
      && ParseDuration(GetString(Find(row, ByClass("length")).value)) == Ok(r.value.length)
      && UrlPairs(FindAll(row, ByTag("a"))).Ok?
      && r.value.url == Dicts.FromPairs(UrlPairs(FindAll(row, ByTag("a"))).value)
    ensures r.Err? ==> r.error in {ParseError(TagNotFound), ValueError, KeyError}
  {
    match Find(row, ByClass("name"))
    case None => Err(ParseError(TagNotFound))
    case Some(name) =>
      match Find(row, ByClass("length"))
      case None => Err(ParseError(TagNotFound))
      case Some(cell) =>
        match ParseDuration(GetString(cell))
        case Err(e) => Err(e)
        case Ok(length) =>
          match UrlPairs(FindAll(row, ByTag("a")))
          case Err(e) => Err(e)
          case Ok(pairs) => Ok(Models.GameTrack(GetString(name), length, Dicts.FromPairs(pairs)))
  }

  /** The body of the track loop for one row. */
  method ParseTrack(row: Node) returns (r: Result<Models.GameTrack>)
    ensures r == TrackOf(row)
  {
    var title :- GetStringOf(row, ByClass("name"));
    var text :- GetStringOf(row, ByClass("length"));
    var length :- ParseDuration(text);
    var urls :- CollectUrls(FindAll(row, ByTag("a")));
    r := Ok(Models.GameTrack(title, length, urls));
  }

  function TrackResults(rows: seq<Node>): (r: seq<Result<Models.GameTrack>>)
    ensures |r| == |rows| && forall i :: 0 <= i < |rows| ==> r[i] == TrackOf(rows[i])
  {
    seq(|rows|, i requires 0 <= i < |rows| => TrackOf(rows[i]))
  }

  /** The rows of the track list. */
  function TrackRows(tracklist: Node): seq<Node> {
    FindAll(tracklist, ByTag("tr"))
  }

  /** One turn of the track loop, stated on the rows' results. */
  lemma TrackStep(rows: seq<Node>, i: nat, tracks: seq<Models.GameTrack>)
    requires i < |rows| && Collect(TrackResults(rows)[..i]) == Ok(tracks)
    ensures TrackOf(rows[i]).Err? ==> Collect(TrackResults(rows)) == Err(TrackOf(rows[i]).error)
    ensures TrackOf(rows[i]).Ok? ==>
      Collect(TrackResults(rows)[..i + 1]) == Ok(tracks + [TrackOf(rows[i]).value])
  {
    var results := TrackResults(rows);
    CollectSnoc(results, i);
    if results[i].Err? {
      CollectStopsAtError(results, i + 1);
    }
  }

  /**
   * `list(_tracklist(tag))`: one track per row, in document order; the first row that
   * raises ends the list with its error.
   */
  method Tracklist(tracklist: Node) returns (r: Result<seq<Models.GameTrack>>)
    ensures r == Collect(TrackResults(TrackRows(tracklist)))
  {
    var rows := TrackRows(tracklist);
    ghost var results := TrackResults(rows);
    var tracks: seq<Models.GameTrack> := [];
    var i := 0;
    while i < |rows|
      invariant 0 <= i <= |rows|
      invariant Collect(results[..i]) == Ok(tracks)
    {
      var track := ParseTrack(rows[i]);
      TrackStep(rows, i, tracks);
      if track.Err? {
        return Err(track.error);
      }
      tracks := tracks + [track.value];
      i := i + 1;
    }
    assert results[..i] == results;
    r := Ok(tracks);
  }

  // ---------------------------------------------------------------------------------------
  // Archive downloads
  // ---------------------------------------------------------------------------------------

  /**
   * A download anchor as (type, URL). An anchor without `href` raises KeyError; a file name
   * without the type token raises a ParseError.
   */
  function ArchivePair(a: Node): (r: Result<(string, string)>)
    ensures r.Ok? ==> a.Element? && a.attrs.href == Some(r.value.1)
    ensures r.Ok? ==> ArchiveType(Urls.Name(r.value.1)) == Some(r.value.0)
    ensures r.Err? && r.error == KeyError <==> !a.Element? || a.attrs.href.None?
    ensures r.Err? && r.error != KeyError ==> r.error == ParseError(NoArchiveType)
  {
    if !a.Element? || a.attrs.href.None? then Err(KeyError)
    else
      var url := a.attrs.href.value;
      match ArchiveType(Urls.Name(url))
      case None => Err(ParseError(NoArchiveType))
      case Some(t) => Ok((t, url))
  }

  function ArchiveResults(anchors: seq<Node>): (r: seq<Result<(string, string)>>)
    ensures |r| == |anchors| && forall i :: 0 <= i < |anchors| ==> r[i] == ArchivePair(anchors[i])
  {
    seq(|anchors|, i requires 0 <= i < |anchors| => ArchivePair(anchors[i]))
  }

  /**
   * `dict(_mass_download(tag))`: archive type to URL over every anchor of the block, a
   * later anchor of the same type replacing an earlier one.
   */
  function ArchivesOf(block: Node): (r: Result<Dicts.Dict<string, string>>)
    ensures r.Ok? ==> Dicts.Valid(r.value)
    ensures r.Ok? <==> forall i :: 0 <= i < |FindAll(block, ByTag("a"))| ==> ArchivePair(FindAll(block, ByTag("a"))[i]).Ok?
    ensures r.Ok? ==> forall t :: t in r.value.items ==> t != [] && AllWord(t)
    ensures r.Ok? ==> forall t :: t in r.value.items ==> ArchiveType(Urls.Name(r.value.items[t])) == Some(t)
    ensures r.Err? ==> r.error in {KeyError, ParseError(NoArchiveType)}
  {
    var run := Collect(ArchiveResults(FindAll(block, ByTag("a"))));
    ArchiveRun(FindAll(block, ByTag("a")));
    match run
    case Err(e) => Err(e)
    case Ok(pairs) =>
      ArchivesOfPairs(pairs);
      Ok(Dicts.FromPairs(pairs))
  }

  /** The run over the anchors: it fails on an anchor that fails, with that anchor's error. */
  lemma ArchiveRun(anchors: seq<Node>)
    ensures var run := Collect(ArchiveResults(anchors));
      && (run.Ok? <==> forall i :: 0 <= i < |anchors| ==> ArchivePair(anchors[i]).Ok?)
      && (run.Ok? ==> forall i :: 0 <= i < |run.value| ==> ArchiveType(Urls.Name(run.value[i].1)) == Some(run.value[i].0))
      && (run.Err? ==> run.error in {KeyError, ParseError(NoArchiveType)})
  {
    var rs := ArchiveResults(anchors);
    var run: Result<seq<(string, string)>> := Collect(rs);
    if run.Err? {
      var i :| 0 <= i < |rs| && rs[i] == Err(run.error);
    } else {
      forall i | 0 <= i < |run.value|
        ensures ArchiveType(Urls.Name(run.value[i].1)) == Some(run.value[i].0)
      {
        assert rs[i] == Ok(run.value[i]);
      }
    }
  }

  /** The archives of a block, as the run over its anchors gives them. */
  lemma ArchivesOfRun(block: Node)
    ensures var run := Collect(ArchiveResults(FindAll(block, ByTag("a"))));
      ArchivesOf(block) == if run.Ok? then Ok(Dicts.FromPairs(run.value)) else Err(run.error)
  {
  }

  lemma {:induction false} ArchivesOfPairs(ps: seq<(string, string)>)
    requires forall i :: 0 <= i < |ps| ==> ArchiveType(Urls.Name(ps[i].1)) == Some(ps[i].0)
    ensures forall t :: t in Dicts.FromPairs(ps).items ==> t != [] && AllWord(t)
    ensures forall t :: t in Dicts.FromPairs(ps).items ==> ArchiveType(Urls.Name(Dicts.FromPairs(ps).items[t])) == Some(t)
  {
    if ps != [] {
      ArchivesOfPairs(ps[..|ps| - 1]);
    }
  }

  /** An anchor whose type no later anchor repeats is the archive of that type. */
  lemma ArchiveLastWins(block: Node, i: nat)
    requires ArchivesOf(block).Ok? && i < |FindAll(block, ByTag("a"))|
    requires var anchors := FindAll(block, ByTag("a"));
      forall j :: i < j < |anchors| ==> ArchivePair(anchors[j]).value.0 != ArchivePair(anchors[i]).value.0
    ensures var p := ArchivePair(FindAll(block, ByTag("a"))[i]).value;
      p.0 in ArchivesOf(block).value.items && ArchivesOf(block).value.items[p.0] == p.1
  {
    var pairs := Collect(ArchiveResults(FindAll(block, ByTag("a")))).value;
    Dicts.FromPairsLastWins(pairs, i);
  }

  // ---------------------------------------------------------------------------------------
  // Information block
  // ---------------------------------------------------------------------------------------

  /**
   * The value of an `infodata` cell: its text, or, when the cell holds an anchor, a link to
   * the anchor's path without `/music/` named by that text. An anchor without `href` raises
   * KeyError.
   */
  function InfoValue(cell: Node): (r: Result<Models.Value>)
    ensures Find(cell, ByTag("a")).None? ==> r == Ok(Models.Str(GetString(cell)))
    ensures Find(cell, ByTag("a")).Some? && Find(cell, ByTag("a")).value.attrs.href.None? ==> r == Err(KeyError)
    ensures Find(cell, ByTag("a")).Some? && Find(cell, ByTag("a")).value.attrs.href.Some? ==>
      r == Ok(Models.Link(Models.Browsable(
        RemovePrefix(Find(cell, ByTag("a")).value.attrs.href.value, Helpers.MusicPrefix), GetString(cell))))
  {
    var data := GetString(cell);
    match Find(cell, ByTag("a"))
    case None => Ok(Models.Str(data))
    case Some(a) =>
      match a.attrs.href
      case None => Err(KeyError)
      case Some(href) => Ok(Models.Link(Models.Browsable(RemovePrefix(href, Helpers.MusicPrefix), data)))
  }

  /**
   * One `p` of the information block: the key from its `infoname` cell, read first, then the
   * value of its `infodata` cell. Both cells are required.
   */
  function InfoEntry(p: Node): (r: Result<(string, Models.Value)>)
    ensures Find(p, ByClass("infoname")).None? ==> r == Err(ParseError(TagNotFound))
    ensures Find(p, ByClass("infoname")).Some? && Find(p, ByClass("infodata")).None? ==> r == Err(ParseError(TagNotFound))
    ensures Find(p, ByClass("infoname")).Some? && Find(p, ByClass("infodata")).Some? ==>
      match InfoValue(Find(p, ByClass("infodata")).value)
      case Ok(v) => r == Ok((LabelKey(GetString(Find(p, ByClass("infoname")).value)), v))
      case Err(e) => r == Err(e)
  {
    var caption :- GetStringOf(p, ByClass("infoname"));
    var cell :- GetTag(p, ByClass("infodata"));
    var value :- InfoValue(cell);
    Ok((LabelKey(caption), value))
  }

  /** An entry's value is text or a link; a failing entry raises ParseError or KeyError. */
  lemma InfoEntryKinds(p: Node)
    ensures InfoEntry(p).Ok? ==> InfoEntry(p).value.1.Str? || InfoEntry(p).value.1.Link?
    ensures InfoEntry(p).Err? ==> InfoEntry(p).error in {ParseError(TagNotFound), KeyError}
  {
  }

  function InfoResults(ps: seq<Node>): (r: seq<Result<(string, Models.Value)>>)
    ensures |r| == |ps| && forall i :: 0 <= i < |ps| ==> r[i] == InfoEntry(ps[i])
  {
    seq(|ps|, i requires 0 <= i < |ps| => InfoEntry(ps[i]))
  }

  /**
   * `_music_info`: first the title from the block's `h2` under "name", then one entry per
   * `p` of the block, in document order.
   */
  function MusicInfo(info: Node): (r: Result<seq<(string, Models.Value)>>)
    ensures Find(info, ByTag("h2")).None? ==> r == Err(ParseError(TagNotFound))
    ensures r.Ok? ==> Find(info, ByTag("h2")).Some? && |r.value| == 1 + |FindAll(info, ByTag("p"))|
    ensures r.Ok? ==> Collect(InfoResults(FindAll(info, ByTag("p")))) == Ok(r.value[1..])
  {
    var name :- GetStringOf(info, ByTag("h2"));
    var entries :- Collect(InfoResults(FindAll(info, ByTag("p"))));
    var r := [("name", Models.Str(name))] + entries;
    assert r[1..] == entries;
    Ok(r)
  }

  /** The first entry of a parsed block is its `h2` title, under "name". */
  lemma MusicInfoTitle(info: Node)
    requires MusicInfo(info).Ok?
    ensures MusicInfo(info).value[0] == ("name", Models.Str(GetString(Find(info, ByTag("h2")).value)))
  {
  }

  /** Entry `i + 1` of a parsed block is what the block's `i`-th `p` yields. */
  lemma MusicInfoEntry(info: Node, i: nat)
    requires MusicInfo(info).Ok? && i < |FindAll(info, ByTag("p"))|
    ensures InfoEntry(FindAll(info, ByTag("p"))[i]) == Ok(MusicInfo(info).value[i + 1])
  {
    var ps := FindAll(info, ByTag("p"));
    var results := InfoResults(ps);
    var entries := MusicInfo(info).value[1..];
    assert results[i] == Ok(entries[i]);
  }

  /** Every value the block yields is text or a link. */
  lemma MusicInfoValues(info: Node)
    requires MusicInfo(info).Ok?
    ensures forall e :: e in MusicInfo(info).value ==> e.1.Str? || e.1.Link?
  {
    var ps := FindAll(info, ByTag("p"));
    var r := MusicInfo(info).value;
    forall e | e in r
      ensures e.1.Str? || e.1.Link?
    {
      var i :| 0 <= i < |r| && r[i] == e;
      if i > 0 {
        MusicInfoEntry(info, i - 1);
        InfoEntryKinds(ps[i - 1]);
      }
    }
  }

  /** A block whose entries all parse yields them all; the first that raises is the error. */
  lemma MusicInfoError(info: Node)
    requires Find(info, ByTag("h2")).Some?
    ensures MusicInfo(info).Err? <==> exists i :: FirstErr(InfoResults(FindAll(info, ByTag("p"))), i)
  {
    var rs := InfoResults(FindAll(info, ByTag("p")));
    if Collect(rs).Err? {
      CollectFirstError(rs);
    }
  }

  // ---------------------------------------------------------------------------------------
  // Unknown fields
  // ---------------------------------------------------------------------------------------

  /** The keys that name a field of the game record, in their order. */
  function KnownKeys(keys: seq<string>): (r: seq<string>)
    ensures forall k :: k in r <==> k in keys && k in Models.GameInfoFields
    ensures |r| <= |keys|
  {
    if keys == [] then []
    else
      var last := keys[|keys| - 1];
      KnownKeys(keys[..|keys| - 1]) + (if last in Models.GameInfoFields then [last] else [])
  }

  /** The arguments without the keys that name no field of the game record. */
  function KnownFields(args: Dicts.Dict<string, Models.Value>): (r: Dicts.Dict<string, Models.Value>)
    requires Dicts.Valid(args)
    ensures Dicts.Valid(r)
    ensures forall k :: k in r.items <==> k in args.items && k in Models.GameInfoFields
    ensures forall k :: k in r.items ==> r.items[k] == args.items[k]
    ensures Models.WellTyped(args) ==> Models.WellTyped(r)
  {
    KnownKeysDistinct(args.keys);
    var r := Dicts.Dict(KnownKeys(args.keys), args.items - Unknown(args.keys));
    assert forall k :: k in r.items <==> k in args.items && k in Models.GameInfoFields;
    r
  }

  lemma {:induction false} KnownKeysDistinct(keys: seq<string>)
    requires forall i, j :: 0 <= i < j < |keys| ==> keys[i] != keys[j]
    ensures forall i, j :: 0 <= i < j < |KnownKeys(keys)| ==> KnownKeys(keys)[i] != KnownKeys(keys)[j]
  {
    if keys != [] {
      var init := keys[..|keys| - 1];
      var last := keys[|keys| - 1];
      KnownKeysDistinct(init);
      var r0 := KnownKeys(init);
      assert keys[..|keys| - 1] == init;
      if last !in Models.GameInfoFields {
        assert KnownKeys(keys) == r0 + [] == r0;
      } else {
        assert last !in init by {
          assert forall i :: 0 <= i < |init| ==> init[i] == keys[i];
        }
        assert last !in r0;
        var r := r0 + [last];
        assert KnownKeys(keys) == r;
        forall i, j | 0 <= i < j < |r|
          ensures r[i] != r[j]
        {
          assert r[i] == r0[i];
          if j == |r0| {
            assert r[i] in r0;
          } else {
            assert r[j] == r0[j];
          }
        }
      }
    }
  }

  /** How one turn of the loop below changes the key order. */
  lemma DropStep(keys: seq<string>, i: nat)
    requires forall a, b :: 0 <= a < b < |keys| ==> keys[a] != keys[b]
    requires i < |keys|
    ensures keys[i] in Models.GameInfoFields ==>
      KnownKeys(keys[..i]) + keys[i..] == KnownKeys(keys[..i + 1]) + keys[i + 1..]
    ensures keys[i] !in Models.GameInfoFields ==>
      Dicts.RemoveFromSeq(KnownKeys(keys[..i]) + keys[i..], keys[i]) == KnownKeys(keys[..i + 1]) + keys[i + 1..]
  {
    DistinctKeyApart(keys, i);
    if keys[i] in Models.GameInfoFields {
      DropStepKnown(keys, i);
    } else {
      DropStepUnknown(keys, i);
    }
  }

  lemma DropStepKnown(keys: seq<string>, i: nat)
    requires i < |keys| && keys[i] in Models.GameInfoFields
    ensures KnownKeys(keys[..i]) + keys[i..] == KnownKeys(keys[..i + 1]) + keys[i + 1..]
  {
    var key := keys[i];
    var known := KnownKeys(keys[..i]);
    KnownKeysSnoc(keys, i);
    ShiftOne(known, keys, i);
  }

  /** Moving the first element of a suffix onto the prefix leaves the whole unchanged. */
  lemma ShiftOne<T>(prefix: seq<T>, s: seq<T>, i: nat)
    requires i < |s|
    ensures prefix + s[i..] == prefix + [s[i]] + s[i + 1..]
  {
    assert s[i..] == [s[i]] + s[i + 1..];
  }

  lemma DropStepUnknown(keys: seq<string>, i: nat)
    requires i < |keys| && keys[i] !in Models.GameInfoFields
    requires keys[i] !in KnownKeys(keys[..i]) && keys[i] !in keys[i + 1..]
    ensures Dicts.RemoveFromSeq(KnownKeys(keys[..i]) + keys[i..], keys[i]) == KnownKeys(keys[..i + 1]) + keys[i + 1..]
  {
    var key := keys[i];
    var known := KnownKeys(keys[..i]);
    var rest := keys[i + 1..];
    KnownKeysSnoc(keys, i);
    assert KnownKeys(keys[..i + 1]) == known;
    ShiftOne(known, keys, i);
    Dicts.RemoveFromSeqAt(known, key, rest);
  }

  lemma KnownKeysSnoc(keys: seq<string>, i: nat)
    requires i < |keys|
    ensures KnownKeys(keys[..i + 1]) ==
      KnownKeys(keys[..i]) + (if keys[i] in Models.GameInfoFields then [keys[i]] else [])
  {
    assert keys[..i + 1][..i] == keys[..i];
  }

  /** A key of a duplicate-free sequence occurs neither before nor after its own place. */
  lemma DistinctKeyApart(keys: seq<string>, i: nat)
    requires forall a, b :: 0 <= a < b < |keys| ==> keys[a] != keys[b]
    requires i < |keys|
    ensures keys[i] !in KnownKeys(keys[..i]) && keys[i] !in keys[i + 1..]
  {
    var before := keys[..i];
    forall j | 0 <= j < |before|
      ensures before[j] != keys[i]
    {
      assert before[j] == keys[j];
    }
    var after := keys[i + 1..];
    forall j | 0 <= j < |after|
      ensures after[j] != keys[i]
    {
      assert after[j] == keys[i + 1 + j];
    }
  }

  /** One turn of the loop below: a key that names no field is popped. */
  function DropKey(d: Dicts.Dict<string, Models.Value>, key: string): (r: Dicts.Dict<string, Models.Value>)
    requires Dicts.Valid(d)
    ensures Dicts.Valid(r)
  {
    if key in Models.GameInfoFields then d else Dicts.Remove(d, key)
  }

  /** The turns of the loop for the keys `ks`, in order. */
  function DropKeys(d: Dicts.Dict<string, Models.Value>, ks: seq<string>): (r: Dicts.Dict<string, Models.Value>)
    requires Dicts.Valid(d)
    ensures Dicts.Valid(r)
  {
    if ks == [] then d else DropKey(DropKeys(d, ks[..|ks| - 1]), ks[|ks| - 1])
  }

  /** After the turns for the first `i` keys, the known ones among them stay in order ahead of the rest. */
  lemma {:induction false} DropKeysOrder(args: Dicts.Dict<string, Models.Value>, i: nat)
    requires Dicts.Valid(args) && i <= |args.keys|
    ensures DropKeys(args, args.keys[..i]).keys == KnownKeys(args.keys[..i]) + args.keys[i..]
  {
    var keys := args.keys;
    if i == 0 {
      assert keys[..0] == [];
      assert keys[0..] == keys;
    } else {
      var j := i - 1;
      DropKeysOrder(args, j);
      assert keys[..i][..j] == keys[..j];
      DropStep(keys, j);
    }
  }

  /** The keys among `ks` that name no field of the game record. */
  function Unknown(ks: seq<string>): set<string> {
    set k | k in ks && k !in Models.GameInfoFields
  }

  lemma UnknownSnoc(ks: seq<string>, k: string)
    ensures Unknown(ks + [k]) == Unknown(ks) + (if k in Models.GameInfoFields then {} else {k})
  {
    assert forall x :: x in ks + [k] <==> x in ks || x == k;
  }

  /** The turns for the keys `ks` remove exactly the unknown ones among them. */
  lemma {:induction false} DropKeysItems(d: Dicts.Dict<string, Models.Value>, ks: seq<string>)
    requires Dicts.Valid(d)
    ensures DropKeys(d, ks).items == d.items - Unknown(ks)
  {
    if ks != [] {
      var init := ks[..|ks| - 1];
      var last := ks[|ks| - 1];
      DropKeysItems(d, init);
      assert ks == init + [last];
      UnknownSnoc(init, last);
      var prev := DropKeys(d, init);
      if last !in Models.GameInfoFields {
        assert DropKeys(d, ks).items == prev.items - {last};
        assert (d.items - Unknown(init)) - {last} == d.items - (Unknown(init) + {last});
      }
    }
  }

  /** Going through every key pops exactly the unknown ones. */
  lemma DropKeysAll(args: Dicts.Dict<string, Models.Value>)
    requires Dicts.Valid(args)
    ensures DropKeys(args, args.keys) == KnownFields(args)
  {
    DropKeysAllOrder(args);
    DropKeysItems(args, args.keys);
  }

  lemma DropKeysAllOrder(args: Dicts.Dict<string, Models.Value>)
    requires Dicts.Valid(args)
    ensures DropKeys(args, args.keys).keys == KnownFields(args).keys
  {
    var keys := args.keys;
    DropKeysOrder(args, |keys|);
    assert keys[..|keys|] == keys;
    assert keys[|keys|..] == [];
  }

  /** The loop over a snapshot of the keys that pops every key naming no field. */
  method DropUnknownFields(args: Dicts.Dict<string, Models.Value>) returns (kept: Dicts.Dict<string, Models.Value>)
    requires Dicts.Valid(args)
    ensures kept == KnownFields(args)
  {
    var keys := args.keys;
    kept := args;
    var i := 0;
    while i < |keys|
      invariant 0 <= i <= |keys|
      invariant kept == DropKeys(args, keys[..i])
    {
      assert keys[..i + 1][..i] == keys[..i];
      var key := keys[i];
      if key !in Models.GameInfoFields {
        kept := Dicts.Remove(kept, key);
      }
      i := i + 1;
    }
    assert keys[..i] == keys;
    DropKeysAll(args);
  }

  // ---------------------------------------------------------------------------------------
  // The whole page
  // ---------------------------------------------------------------------------------------

  /** The cover as a field value: a URL, or None when the cover block has no image. */
  function CoverValue(src: Option<string>): Models.Value {
    match src
    case None => Models.NoValue
    case Some(u) => Models.Url(u)
  }

  /** The information entries of a page, read from its `music_info` block. */
  function InfoOf(page: Node): Result<seq<(string, Models.Value)>> {
    var block :- GetTag(page, ById("music_info"));
    MusicInfo(block)
  }

  /**
   * The arguments gathered from the blocks: `initial`, then the cover, then the information
   * entries (a later key replacing an earlier one), then the archives and the tracks.
   */
  function Gathered(
    initial: seq<(string, Models.Value)>, cover: Option<string>, info: seq<(string, Models.Value)>,
    archives: Dicts.Dict<string, string>, tracks: seq<Models.GameTrack>): (r: Dicts.Dict<string, Models.Value>)
    ensures Dicts.Valid(r) && Models.WellTyped(r)
    ensures "archives" in r.items && r.items["archives"] == Models.Archives(archives)
    ensures "tracks" in r.items && r.items["tracks"] == Models.Tracks(tracks)
  {
    var args := Dicts.FromPairs(initial + [("cover", CoverValue(cover))] + info);
    Dicts.Set(Dicts.Set(args, "archives", Models.Archives(archives)), "tracks", Models.Tracks(tracks))
  }

  /** The gathered keys: those of `initial`, the cover, those of the entries, archives and tracks. */
  lemma GatheredKeys(
    initial: seq<(string, Models.Value)>, cover: Option<string>, info: seq<(string, Models.Value)>,
    archives: Dicts.Dict<string, string>, tracks: seq<Models.GameTrack>)
    ensures Gathered(initial, cover, info, archives, tracks).items.Keys ==
      Dicts.KeysOf(initial) + {"cover"} + Dicts.KeysOf(info) + {"archives", "tracks"}
  {
    var ps := initial + [("cover", CoverValue(cover))] + info;
    var args := Dicts.FromPairs(ps);
    InitialCoverInfoKeys(initial, ("cover", CoverValue(cover)), info);
    var withArchives := Dicts.Set(args, "archives", Models.Archives(archives));
    Dicts.SetKeys(args, "archives", Models.Archives(archives));
    Dicts.SetKeys(withArchives, "tracks", Models.Tracks(tracks));
  }

  lemma InitialCoverInfoKeys<V>(initial: seq<(string, V)>, p: (string, V), info: seq<(string, V)>)
    ensures Dicts.FromPairs(initial + [p] + info).items.Keys == Dicts.KeysOf(initial) + {p.0} + Dicts.KeysOf(info)
  {
    Dicts.FromPairsKeySet(initial + [p] + info);
    Dicts.KeysOfAppend(initial, [p]);
    Dicts.KeysOfAppend(initial + [p], info);
    Dicts.KeysOfSingle(p);
  }

  /** What the four blocks of a page yield. */
  datatype Blocks = Blocks(
    cover: Option<string>,
    info: seq<(string, Models.Value)>,
    archives: Dicts.Dict<string, string>,
    tracks: seq<Models.GameTrack>)

  /**
   * The blocks read in the order cover, information, archives, tracks; the first that
   * raises ends the parse.
   */
  function PageBlocks(page: Node): (r: Result<Blocks>)
    ensures r.Ok? ==> InfoOf(page) == Ok(r.value.info)
  {
    var coverBlock :- GetTag(page, ById("music_cover"));
    var cover :- GetImgSrc(coverBlock);
    var info :- InfoOf(page);
    var downloads :- GetTag(page, ById("mass_download"));
    var archives :- ArchivesOf(downloads);
    var tracklist :- GetTag(page, ById("tracklist"));
    var tracks :- Collect(TrackResults(TrackRows(tracklist)));
    Ok(Blocks(cover, info, archives, tracks))
  }

  /** The keyword arguments before unknown keys are dropped. */
  function PageArgs(page: Node, initial: seq<(string, Models.Value)>): (r: Result<Dicts.Dict<string, Models.Value>>)
    ensures r.Ok? ==> Dicts.Valid(r.value) && Models.WellTyped(r.value)
    ensures r.Ok? ==> InfoOf(page).Ok?
    ensures r.Ok? ==> (r.value.items.Keys ==
      Dicts.KeysOf(initial) + {"cover"} + Dicts.KeysOf(InfoOf(page).value) + {"archives", "tracks"})
  {
    var b :- PageBlocks(page);
    GatheredKeys(initial, b.cover, b.info, b.archives, b.tracks);
    Ok(Gathered(initial, b.cover, b.info, b.archives, b.tracks))
  }

  /**
   * The game record of a page: the gathered arguments without the unknown keys, given to
   * the record's constructor.
   */
  function GameInfoOf(page: Node, initial: seq<(string, Models.Value)>): (r: Result<Models.GameInfo>)
    ensures PageArgs(page, initial).Err? ==> r == Err(PageArgs(page, initial).error)
    ensures PageArgs(page, initial).Ok? && r.Err? ==> r.error == TypeError
  {
    var args :- PageArgs(page, initial);
    Models.NewGameInfo(KnownFields(args))
  }

  /** A record is built exactly when `path` and `console` are given, by `initial` or by the entries. */
  lemma GameInfoOfOk(page: Node, initial: seq<(string, Models.Value)>)
    requires PageArgs(page, initial).Ok?
    ensures var keys := Dicts.KeysOf(initial) + Dicts.KeysOf(InfoOf(page).value);
      GameInfoOf(page, initial).Ok? <==> "path" in keys && "console" in keys
  {
    var info := InfoOf(page).value;
    InfoHasName(page);
    var args := PageArgs(page, initial).value;
    KeptRequired(args);
    RequiredAmong(args.items.Keys, Dicts.KeysOf(initial), Dicts.KeysOf(info));
  }

  /** Dropping the unknown keys keeps every required one. */
  lemma KeptRequired(args: Dicts.Dict<string, Models.Value>)
    requires Dicts.Valid(args) && Models.WellTyped(args)
    ensures Models.NewGameInfo(KnownFields(args)).Ok? <==> Models.RequiredFields <= args.items.Keys
  {
    var kept := KnownFields(args);
    assert kept.items.Keys <= Models.GameInfoFields;
    assert Models.RequiredFields <= Models.GameInfoFields;
  }

  lemma RequiredAmong(keys: set<string>, a: set<string>, b: set<string>)
    requires keys == a + {"cover"} + b + {"archives", "tracks"} && "name" in b
    ensures Models.RequiredFields <= keys <==> "path" in a + b && "console" in a + b
  {
  }

  /** The record's archives and tracks are those the page's blocks yield. */
  lemma GameInfoBlocks(page: Node, initial: seq<(string, Models.Value)>)
    requires GameInfoOf(page, initial).Ok?
    ensures PageBlocks(page).Ok?
    ensures GameInfoOf(page, initial).value.archives == PageBlocks(page).value.archives
    ensures GameInfoOf(page, initial).value.tracks == PageBlocks(page).value.tracks
  {
    var b := PageBlocks(page).value;
    var args := Gathered(initial, b.cover, b.info, b.archives, b.tracks);
    assert PageArgs(page, initial) == Ok(args);
    var kept := KnownFields(args);
    assert kept.items["archives"] == Models.Archives(b.archives);
    assert kept.items["tracks"] == Models.Tracks(b.tracks);
  }

  /** The entries always include the title, under "name". */
  lemma InfoHasName(page: Node)
    requires InfoOf(page).Ok?
    ensures "name" in Dicts.KeysOf(InfoOf(page).value)
  {
    var block := Find(page, ById("music_info")).value;
    MusicInfoTitle(block);
    assert InfoOf(page).value[0].0 == "name";
  }

  /**
   * `parse_gamepage` as the package writes it: no argument is given up front, so the record
   * has a path only when the information block carries a "Path:" entry.
   */
  lemma PackagePageNeedsPathEntry(page: Node)
    requires PageArgs(page, []).Ok? && "path" !in Dicts.KeysOf(InfoOf(page).value)
    ensures GameInfoOf(page, []) == Err(TypeError)
  {
    GameInfoOfOk(page, []);
    assert Dicts.KeysOf<string, Models.Value>([]) == {};
  }

  /**
   * With the page's own path given up front, a page whose entries name the console and do
   * not themselves carry a path yields a record with that path.
   */
  lemma PathGivenUpFront(page: Node, path: string)
    requires PageArgs(page, [("path", Models.Str(path))]).Ok?
    requires "console" in Dicts.KeysOf(InfoOf(page).value) && "path" !in Dicts.KeysOf(InfoOf(page).value)
    ensures GameInfoOf(page, [("path", Models.Str(path))]).Ok?
    ensures GameInfoOf(page, [("path", Models.Str(path))]).value.path == Models.Str(path)
  {
    var initial := [("path", Models.Str(path))];
    Dicts.KeysOfSingle(("path", Models.Str(path)));
    GameInfoOfOk(page, initial);
    PathKept(page, path);
  }

  lemma PathKept(page: Node, path: string)
    requires PageArgs(page, [("path", Models.Str(path))]).Ok?
    requires "path" !in Dicts.KeysOf(InfoOf(page).value)
    ensures var args := PageArgs(page, [("path", Models.Str(path))]).value;
      "path" in args.items && args.items["path"] == Models.Str(path)
  {
    var b := PageBlocks(page).value;
    GatheredPath(path, b.cover, b.info, b.archives, b.tracks);
  }

  lemma GatheredPath(
    path: string, cover: Option<string>, info: seq<(string, Models.Value)>,
    archives: Dicts.Dict<string, string>, tracks: seq<Models.GameTrack>)
    requires "path" !in Dicts.KeysOf(info)
    ensures var args := Gathered([("path", Models.Str(path))], cover, info, archives, tracks);
      "path" in args.items && args.items["path"] == Models.Str(path)
  {
    var ps := [("path", Models.Str(path))] + [("cover", CoverValue(cover))] + info;
    forall j | 0 < j < |ps|
      ensures ps[j].0 != "path"
    {
      if j >= 2 {
        assert ps[j] == info[j - 2];
      }
    }
    Dicts.FromPairsLastWins(ps, 0);
  }

  /** The body of `parse_gamepage` once the page root is found. */
  method GameInfoFromPage(page: Node, initial: seq<(string, Models.Value)>) returns (r: Result<Models.GameInfo>)
    ensures r == GameInfoOf(page, initial)
  {
    var coverBlock :- GetTag(page, ById("music_cover"));
    var cover :- GetImgSrc(coverBlock);
    var infoBlock :- GetTag(page, ById("music_info"));
    var info :- MusicInfo(infoBlock);
    var downloads :- GetTag(page, ById("mass_download"));
    var archives :- ArchivesOf(downloads);
    var tracklist :- GetTag(page, ById("tracklist"));
    var tracks :- Tracklist(tracklist);
    assert PageBlocks(page) == Ok(Blocks(cover, info, archives, tracks));
    var args := Gathered(initial, cover, info, archives, tracks);
    var kept := DropUnknownFields(args);
    r := Models.NewGameInfo(kept);
  }

  /**
   * `parse_gamepage(html)` as written: a document without the `gamepage` root is a page for
   * another parser; otherwise the record is built with no argument given up front.
   */
  method ParseGamePage(doc: Node) returns (r: Result<Models.GameInfo>)
    ensures Find(doc, ById("gamepage")).None? ==> r == Err(ParseError(OtherPage))
    ensures Find(doc, ById("gamepage")).Some? ==> r == GameInfoOf(Find(doc, ById("gamepage")).value, [])
  {
    var page :- Helpers.GetTagFromHtml(doc, "gamepage");
    r := GameInfoFromPage(page, []);
  }

  /** `parse_gamepage` with the page's path given up front as the record's `path`. */
  method ParseGamePageAt(doc: Node, path: string) returns (r: Result<Models.GameInfo>)
    ensures Find(doc, ById("gamepage")).None? ==> r == Err(ParseError(OtherPage))
    ensures Find(doc, ById("gamepage")).Some? ==>
      r == GameInfoOf(Find(doc, ById("gamepage")).value, [("path", Models.Str(path))])
  {
    var page :- Helpers.GetTagFromHtml(doc, "gamepage");
    r := GameInfoFromPage(page, [("path", Models.Str(path))]);
  }
}
