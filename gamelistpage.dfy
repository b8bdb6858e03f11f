/** The game-list page parser (`parsers/gamelistpage.py`): one page of game rows and the page count. */
module GameListPage {
  import opened Errors
  import opened Dom
  import opened Locate
  import opened Text
  import Helpers
  import Models

  /** The number of leading decimal digits of `s`. */
  function DigitRun(s: string): (r: nat)
    ensures r <= |s|
    ensures AllDigits(s[..r])
    ensures r < |s| ==> !IsDigit(s[r])
  {
    if s == [] || !IsDigit(s[0]) then 0
    else
      var k := DigitRun(s[1..]);
      assert s[..k + 1] == [s[0]] + s[1..][..k];
      k + 1
  }

  /** Between one and three decimal digits: what `\d{1,3}` accepts. */
  predicate ShortNumber(d: string) {
    1 <= |d| <= 3 && AllDigits(d)
  }

  /** The counter text the pattern `Page \d{1,3} of (\d{1,3})$` describes. */
  function CounterText(d1: string, d2: string): string {
    "Page " + (d1 + (" of " + d2))
  }

  /**
   * The value the counter pattern captures, or none when the text does not match.
   * A digit run is never followed by another digit, so the first number is exactly the
   * leading digit run after "Page ".
   */
  function CounterValue(s: string): (r: Option<nat>)
    ensures r.Some? ==> r.value <= 999
  {
    if !StartsWith(s, "Page ") then None
    else
      var rest := s[5..];
      var k := DigitRun(rest);
      if !(1 <= k <= 3) then None
      else
        var tail := rest[k..];
        if !StartsWith(tail, " of ") then None
        else
          var d2 := tail[4..];
          if ShortNumber(d2) then
            DigitsValueBound(d2);
            Some(DigitsValue(d2))
          else None
  }

  /** Every text of the counter's shape yields its second number. */
  lemma CounterValueOfText(d1: string, d2: string)
    requires ShortNumber(d1) && ShortNumber(d2)
    ensures CounterValue(CounterText(d1, d2)) == Some(DigitsValue(d2))
  {
    var tail := " of " + d2;
    var rest := d1 + tail;
    assert CounterText(d1, d2) == "Page " + rest;
    Split3("Page ", rest);
    DigitRunOf(d1, tail);
    Split3(d1, tail);
    Split3(" of ", d2);
  }

  lemma Split3(p: string, t: string)
    ensures StartsWith(p + t, p) && (p + t)[|p|..] == t
  {
    assert (p + t)[..|p|] == p;
  }

  lemma {:induction false} DigitRunOf(d: string, t: string)
    requires AllDigits(d) && (t != [] ==> !IsDigit(t[0]))
    ensures DigitRun(d + t) == |d|
    decreases |d|
  {
    if d != [] {
      var s := d + t;
      assert s[0] == d[0] && IsDigit(s[0]);
      assert s[1..] == d[1..] + t;
      DigitRunOf(d[1..], t);
      assert DigitRun(s) == DigitRun(s[1..]) + 1;
    } else {
      assert d + t == t;
    }
  }

  /** Only texts of the counter's shape yield a value. */
  lemma CounterValueHasShape(s: string)
    requires CounterValue(s).Some?
    ensures exists d1, d2 ::
      && ShortNumber(d1) && ShortNumber(d2) && s == CounterText(d1, d2)
      && CounterValue(s) == Some(DigitsValue(d2))
  {
    var rest := s[5..];
    var k := DigitRun(rest);
    var d1 := rest[..k];
    var d2 := rest[k..][4..];
    assert rest == d1 + rest[k..];
    assert rest[k..] == " of " + d2;
    assert s == s[..5] + rest;
    assert s == "Page " + (d1 + (" of " + d2));
    assert s == CounterText(d1, d2);
  }

  /** "Page 2 of 7" gives seven pages. */
  lemma CounterSevenPages()
    ensures CounterValue("Page 2 of 7") == Some(7)
  {
    assert CounterText("2", "7") == "Page 2 of 7";
    assert DigitsValue("7") == 7 by { assert "7"[..0] == []; }
    CounterValueOfText("2", "7");
  }

  /** The pattern lets a counter announce zero pages. */
  lemma CounterZeroPages()
    ensures CounterValue("Page 1 of 0") == Some(0)
  {
    assert CounterText("1", "0") == "Page 1 of 0";
    assert DigitsValue("0") == 0 by { assert "0"[..0] == []; }
    CounterValueOfText("1", "0");
  }

  /** Text that is not made of digits does not match. */
  lemma CounterNotNumbers()
    ensures CounterValue("Page x of y") == None
  {
    var s := "Page x of y";
    assert s[..5] == "Page ";
    assert s[5..][0] == 'x';
  }

  /**
   * `_parse_npages`: one page when there is no counter; the counter's second number when
   * it matches; a ParseError when a counter is present but does not match.
   */
  function ParseNPages(page: Node): (r: Result<nat>)
    ensures Find(page, ByClass("counter")).None? ==> r == Ok(1)
    ensures Find(page, ByClass("counter")).Some? ==>
      var text := GetString(Find(page, ByClass("counter")).value);
      && (r.Ok? <==> CounterValue(text).Some?)
      && (r.Ok? ==> r.value == CounterValue(text).value)
    ensures r.Ok? ==> r.value <= 999
    ensures r.Err? ==> r.error == ParseError(CounterMismatch)
  {
    match GetStringOf(page, ByClass("counter"))
    case Err(_) => Ok(1)
    case Ok(counter) =>
      match CounterValue(counter)
      case Some(m) => Ok(m)
      case None => Err(ParseError(CounterMismatch))
  }

  /** The game rows of a list page: `tr` elements with a class starting `regularrow`. */
  function Rows(page: Node): seq<Node> {
    FindAll(page, ByTagAndClassPrefix("tr", "regularrow"))
  }

  /** The first cell of `row` with class `c`, as `get_tag(raw, class_=c)` finds it. */
  function Cell(row: Node, c: string): Option<Node> {
    Find(row, ByClass(c))
  }

  /**
   * One row as a game entry: the `name` cell is mandatory and must be a link with text;
   * the cover comes from the `image` cell, release year and developer from optional links.
   * All four cells must be present.
   */
  function ParseRow(row: Node): (r: Result<Models.GameEntry>)
    ensures Cell(row, "name").None? ==> r == Err(ParseError(TagNotFound))
    ensures Cell(row, "name").Some? && GetString(Cell(row, "name").value) == [] ==> r == Err(ParseError(NoName))
    ensures r.Ok? ==> r.value.name != [] && Trimmed(r.value.name)
    ensures r.Err? ==> r.error in {ParseError(TagNotFound), ParseError(NoName), KeyError}
    ensures Cell(row, "name").Some? && Helpers.ParseLink(Cell(row, "name").value).Err? ==>
      r == Err(Helpers.ParseLink(Cell(row, "name").value).error)
  {
    match Cell(row, "name")
    case None => Err(ParseError(TagNotFound))
    case Some(name) =>
      match Helpers.ParseLink(name)
      case Err(e) => Err(e)
      case Ok(link) => RowAfterName(row, link)
  }

  /** The `image` cell is present and its cover reads without error. */
  predicate CoverRead(row: Node) {
    Cell(row, "image").Some? && GetImgSrc(Cell(row, "image").value).Ok?
  }

  /** The `year` cell is present and converts without error. */
  predicate YearRead(row: Node) {
    Cell(row, "year").Some? && Helpers.BrowsableFromLink(Cell(row, "year").value).Ok?
  }

  /** The rest of a row once its name link has been read. */
  function RowAfterName(row: Node, link: Models.Browsable): (r: Result<Models.GameEntry>)
    ensures r.Ok? ==> r.value.path == link.path && r.value.name == link.name
    ensures r.Ok? ==>
      && Cell(row, "image").Some? && Cell(row, "year").Some? && Cell(row, "developer").Some?
      && GetImgSrc(Cell(row, "image").value) == Ok(r.value.cover)
      && Helpers.BrowsableFromLink(Cell(row, "year").value) == Ok(r.value.releaseDate)
      && Helpers.BrowsableFromLink(Cell(row, "developer").value) == Ok(r.value.developer)
    ensures r.Err? ==> r.error in {ParseError(TagNotFound), KeyError}
    ensures Cell(row, "image").None? ==> r == Err(ParseError(TagNotFound))
    ensures CoverRead(row) && Cell(row, "year").None? ==> r == Err(ParseError(TagNotFound))
    ensures CoverRead(row) && YearRead(row) && Cell(row, "developer").None? ==> r == Err(ParseError(TagNotFound))
    ensures Cell(row, "image").Some? && GetImgSrc(Cell(row, "image").value).Err? ==> r == Err(KeyError)
  {
    match Cell(row, "image")
    case None => Err(ParseError(TagNotFound))
    case Some(image) =>
      match GetImgSrc(image)
      case Err(e) => Err(e)
      case Ok(cover) =>
        match Cell(row, "year")
        case None => Err(ParseError(TagNotFound))
        case Some(year) =>
          match Helpers.BrowsableFromLink(year)
          case Err(e) => Err(e)
          case Ok(releaseDate) =>
            match Cell(row, "developer")
            case None => Err(ParseError(TagNotFound))
            case Some(developer) =>
              match Helpers.BrowsableFromLink(developer)
              case Err(e) => Err(e)
              case Ok(dev) => Ok(Models.GameEntry(link.path, link.name, cover, releaseDate, dev))
  }

  /** A parsed row takes each field from its own cell, and all four cells are present. */
  lemma ParseRowFields(row: Node)
    requires ParseRow(row).Ok?
    ensures var e := ParseRow(row).value;
      && Cell(row, "name").Some? && Cell(row, "image").Some?
      && Cell(row, "year").Some? && Cell(row, "developer").Some?
      && Helpers.ParseLink(Cell(row, "name").value) == Ok(Models.Browsable(e.path, e.name))
      && GetImgSrc(Cell(row, "image").value) == Ok(e.cover)
      && Helpers.BrowsableFromLink(Cell(row, "year").value) == Ok(e.releaseDate)
      && Helpers.BrowsableFromLink(Cell(row, "developer").value) == Ok(e.developer)
  {
    var link := Helpers.ParseLink(Cell(row, "name").value).value;
    assert ParseRow(row) == RowAfterName(row, link);
  }

  /** What each row yields, in document order. */
  function RowResults(rows: seq<Node>): (r: seq<Result<Models.GameEntry>>)
    ensures |r| == |rows| && forall i :: 0 <= i < |rows| ==> r[i] == ParseRow(rows[i])
  {
    seq(|rows|, i requires 0 <= i < |rows| => ParseRow(rows[i]))
  }

  /**
   * `_parse_page` collected into a list: every row as an entry, in order; the first row
   * that raises ends the list with its error (`list()` propagates the generator's exception).
   */
  method ParsePage(page: Node) returns (r: Result<seq<Models.GameEntry>>)
    ensures r == Collect(RowResults(Rows(page)))
  {
    var rows := Rows(page);
    ghost var results := RowResults(rows);
    var entries: seq<Models.GameEntry> := [];
    var i := 0;
    while i < |rows|
      invariant 0 <= i <= |rows|
      invariant Collect(results[..i]) == Ok(entries)
    {
      CollectSnoc(results, i);
      var row := ParseRow(rows[i]);
      if row.Err? {
        r := Err(row.error);
        CollectStopsAtError(results, i + 1);
        return;
      }
      entries := entries + [row.value];
      i := i + 1;
    }
    assert results[..i] == results;
    r := Ok(entries);
  }

  /**
   * `parse_gamelistpage`: the entries of every row and the page count. A page without the
   * `gamelistpage` root raises first; a failing row raises before the counter is read.
   */
  method ParseGameListPage(doc: Node) returns (r: Result<(seq<Models.GameEntry>, nat)>)
    ensures Find(doc, ById("gamelistpage")).None? ==> r == Err(ParseError(OtherPage))
    ensures r.Ok? ==> Find(doc, ById("gamelistpage")).Some?
    ensures Find(doc, ById("gamelistpage")).Some? ==>
      var page := Find(doc, ById("gamelistpage")).value;
      && (r.Ok? <==> Collect(RowResults(Rows(page))).Ok? && ParseNPages(page).Ok?)
      && (r.Ok? ==> r.value == (Collect(RowResults(Rows(page))).value, ParseNPages(page).value))
      && (Collect(RowResults(Rows(page))).Err? ==> r == Err(Collect(RowResults(Rows(page))).error))
      && (Collect(RowResults(Rows(page))).Ok? && ParseNPages(page).Err? ==> r == Err(ParseError(CounterMismatch)))
  {
    var page :- Helpers.GetTagFromHtml(doc, "gamelistpage");
    var entries :- ParsePage(page);
    var npages :- ParseNPages(page);
    r := Ok((entries, npages));
  }
}
