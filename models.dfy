/** The records the scraper produces, and the menu tree it builds. */
module Models {
  import opened Errors
  import Text
  import Dicts

  /** An entity addressed by a path relative to the site's `/music/` namespace. */
  datatype Browsable = Browsable(path: string, name: string) {

    /** `parts`: the path split at its last `/` into parent and identifier. */
    function Parts(): (r: (string, string))
      ensures '/' !in r.1
      ensures '/' !in path ==> r == ([], path)
      ensures '/' in path ==> r.0 + "/" + r.1 == path
    {
      Text.RPartition(path, '/')
    }
  }

  /** A menu entry of the sidebar: its path, its text and the category it is listed under. */
  datatype MenuItem = MenuItem(path: string, name: string, menu: string)

  /** One soundtrack piece: its title, its length in seconds and its file URL per extension. */
  datatype GameTrack = GameTrack(title: string, length: int, url: Dicts.Dict<string, string>)

  /** A row of a game list. */
  datatype GameEntry = GameEntry(
    path: string,
    name: string,
    cover: Option<string>,
    releaseDate: Option<Browsable>,
    developer: Option<Browsable>)

  /**
   * A value the game page puts under a field name. The source keeps these in an untyped
   * dictionary: a field gets text, a link, a URL, nothing, the archive map or the track list.
   */
  datatype Value =
    | NoValue
    | Str(text: string)
    | Link(link: Browsable)
    | Url(url: string)
    | Archives(archives: Dicts.Dict<string, string>)
    | Tracks(tracks: seq<GameTrack>)

  /** The full record of one game, as built from its detail page. */
  datatype GameInfo = GameInfo(
    path: Value,
    name: Value,
    cover: Value,
    releaseDate: Value,
    developer: Value,
    console: Value,
    publisher: Value,
    archives: Dicts.Dict<string, string>,
    tracks: seq<GameTrack>)
  {
    /** The URL map of the first track, or an empty map when there are no tracks. */
    function FirstTrack(): Dicts.Dict<string, string> {
      if tracks == [] then Dicts.Empty() else tracks[0].url
    }

    /** `has_format`: whether the first track comes in format `fmt`. */
    function HasFormat(fmt: string): bool {
      fmt in FirstTrack().items
    }

    /** `formats`: the extensions of the first track, in the order they were found. */
    function Formats(): seq<string> {
      FirstTrack().keys
    }
  }

  /** `has_format` and `formats` consult only the first track, and agree with each other. */
  lemma FormatsOfFirstTrack(g: GameInfo, fmt: string)
    requires g.tracks != [] ==> Dicts.Valid(g.tracks[0].url)
    ensures g.tracks == [] ==> g.Formats() == [] && !g.HasFormat(fmt)
    ensures g.tracks != [] ==> g.Formats() == g.tracks[0].url.keys
    ensures g.HasFormat(fmt) <==> fmt in g.Formats()
  {
  }

  /** The names of the fields of a game record (`GAMEINFO_FIELDS`). */
  const GameInfoFields: set<string> :=
    {"path", "name", "cover", "release_date", "developer", "console", "publisher", "archives", "tracks"}

  /** The fields without a default value, which must be given. */
  const RequiredFields: set<string> := {"path", "name", "console", "archives", "tracks"}

  /** The declared types of the archive map and the track list. */
  predicate WellTyped(args: Dicts.Dict<string, Value>) {
    && ("archives" in args.items ==> args.items["archives"].Archives?)
    && ("tracks" in args.items ==> args.items["tracks"].Tracks?)
  }

  function Lookup(args: Dicts.Dict<string, Value>, field: string): Value {
    if field in args.items then args.items[field] else NoValue
  }

  /**
   * `GameInfo(**args)`: a record from keyword arguments. An unknown name, or a missing
   * required field, is a TypeError; an omitted optional field is None.
   */
  function NewGameInfo(args: Dicts.Dict<string, Value>): (r: Result<GameInfo>)
    requires WellTyped(args)
    ensures r.Ok? <==> args.items.Keys <= GameInfoFields && RequiredFields <= args.items.Keys
    ensures r.Err? ==> r.error == TypeError
    ensures r.Ok? ==> r.value.path == args.items["path"] && r.value.name == args.items["name"]
    ensures r.Ok? ==> r.value.console == args.items["console"]
    ensures r.Ok? ==> Archives(r.value.archives) == args.items["archives"]
    ensures r.Ok? ==> Tracks(r.value.tracks) == args.items["tracks"]
    ensures r.Ok? && "cover" !in args.items ==> r.value.cover == NoValue
    ensures r.Ok? && "release_date" !in args.items ==> r.value.releaseDate == NoValue
    ensures r.Ok? && "developer" !in args.items ==> r.value.developer == NoValue
    ensures r.Ok? && "publisher" !in args.items ==> r.value.publisher == NoValue
    ensures r.Ok? && "cover" in args.items ==> r.value.cover == args.items["cover"]
    ensures r.Ok? && "release_date" in args.items ==> r.value.releaseDate == args.items["release_date"]
    ensures r.Ok? && "developer" in args.items ==> r.value.developer == args.items["developer"]
    ensures r.Ok? && "publisher" in args.items ==> r.value.publisher == args.items["publisher"]
  {
    if !(args.items.Keys <= GameInfoFields && RequiredFields <= args.items.Keys) then Err(TypeError)
    else
      Ok(GameInfo(
        args.items["path"], args.items["name"], Lookup(args, "cover"), Lookup(args, "release_date"),
        Lookup(args, "developer"), args.items["console"], Lookup(args, "publisher"),
        args.items["archives"].archives, args.items["tracks"].tracks))
  }

  /** The key a child is stored under when its identifier is empty, from its name. */
  type Slugify = string -> string

  /** A node of the browsing tree; `children` is updated in place by `Add`. */
  class Folder {
    const path: string
    const name: string
    var children: map<string, Folder>

    constructor (path: string, name: string)
      ensures this.path == path && this.name == name && children == map[]
    {
      this.path := path;
      this.name := name;
      children := map[];
    }

    /** `id`: the path after its last `/` (`rsplit("/", 1)[-1]`); agrees with `Browsable.parts`. */
    function Id(): (r: string)
      ensures r == Browsable(path, name).Parts().1
      ensures '/' !in r
    {
      match Text.LastIndexOf(path, '/')
      case None => path
      case Some(i) => path[i + 1..]
    }

    /** `get`: walks the children one `/`-separated segment at a time. */
    method Get(p: string) returns (r: Result<Folder>)
      ensures r == Resolve(this, p)
      decreases |p|
    {
      if p == [] {
        return Ok(this);
      }
      if Text.StartsWith(p, "/") {
        return Err(KeyError);
      }
      var (id, rest) := Text.Partition(p, '/');
      if id in children {
        r := children[id].Get(rest);
      } else {
        r := Err(KeyError);
      }
    }

    /** `add`: stores each item under its key, in order, so a later item with the same key wins. */
    method Add(items: seq<Folder>, slugify: Slugify)
      modifies this
      ensures children == AddAll(old(children), items, slugify)
    {
      var i := 0;
      while i < |items|
        invariant 0 <= i <= |items|
        invariant children == AddAll(old(children), items[..i], slugify)
      {
        var x := items[i];
        var id := x.Id();
        if id == [] {
          id := slugify(x.name);
        }
        AddAllSnoc(old(children), items, slugify, i);
        children := children[id := x];
        i := i + 1;
      }
      assert items[..|items|] == items;
    }
  }

  /** What `Folder.get(p)` returns or raises, in the current state of the tree. */
  ghost function Resolve(f: Folder, p: string): Result<Folder>
    reads *
    decreases |p|
  {
    if p == [] then Ok(f)
    else if Text.StartsWith(p, "/") then Err(KeyError)
    else
      var (id, rest) := Text.Partition(p, '/');
      if id in f.children then Resolve(f.children[id], rest) else Err(KeyError)
  }

  /** The key `Folder.add` stores an item under. */
  function Key(x: Folder, slugify: Slugify): string {
    if x.Id() != [] then x.Id() else slugify(x.name)
  }

  /** The children after adding `items` one after another to `m`. */
  function AddAll(m: map<string, Folder>, items: seq<Folder>, slugify: Slugify): map<string, Folder>
  {
    if items == [] then m
    else
      var last := items[|items| - 1];
      AddAll(m, items[..|items| - 1], slugify)[Key(last, slugify) := last]
  }

  /** Adding one more item stores it under its key. */
  lemma AddAllSnoc(m: map<string, Folder>, items: seq<Folder>, slugify: Slugify, i: nat)
    requires i < |items|
    ensures AddAll(m, items[..i + 1], slugify) == AddAll(m, items[..i], slugify)[Key(items[i], slugify) := items[i]]
  {
    assert items[..i + 1][..i] == items[..i];
  }

  /** The child reached by following `segments` one by one from `f`. */
  ghost function Walk(f: Folder, segments: seq<string>): Result<Folder>
    reads *
    decreases |segments|
  {
    if segments == [] then Ok(f)
    else if segments[0] in f.children then Walk(f.children[segments[0]], segments[1..])
    else Err(KeyError)
  }

  /** A non-empty path without empty segments resolves by following its segments in order. */
  lemma {:induction false} ResolveFollowsSegments(f: Folder, p: string)
    requires p != []
    requires forall i :: 0 <= i < |Text.Split(p, '/')| ==> Text.Split(p, '/')[i] != []
    ensures Resolve(f, p) == Walk(f, Text.Split(p, '/'))
    decreases |p|
  {
    var (id, rest) := Text.Partition(p, '/');
    var segs := Text.Split(p, '/');
    if '/' in p {
      assert segs == [id] + Text.Split(rest, '/');
      assert segs[0] == id;
      assert Text.Split(rest, '/') == segs[1..];
      assert Text.Split([], '/') == [[]];
      assert segs[1] != [];
      if id in f.children {
        ResolveFollowsSegments(f.children[id], rest);
      }
    } else {
      assert segs == [p];
    }
  }

  /** A path starting with `/`, or one with an empty segment before its last, is not found. */
  lemma {:induction false} ResolveRejectsEmptySegment(f: Folder, a: string, b: string)
    requires '/' !in a
    ensures Resolve(f, "/" + b) == Err(KeyError)
    ensures Resolve(f, a + "//" + b) == Err(KeyError)
  {
    var p := a + "//" + b;
    assert Text.StartsWith("/" + b, "/");
    if a == [] {
      assert Text.StartsWith(p, "/");
    } else {
      assert p == a + "/" + ("/" + b);
      Text.PartitionAt(a, "/" + b, '/');
    }
  }

  /** One trailing `/` is ignored: `get("a/b/")` is `get("a/b")`. */
  lemma {:induction false} ResolveIgnoresTrailingSlash(f: Folder, p: string)
    requires p != [] && !Text.StartsWith(p, "/") && !Text.EndsWith(p, "/")
    ensures Resolve(f, p + "/") == Resolve(f, p)
    decreases |p|
  {
    var (id, rest) := Text.Partition(p, '/');
    assert !Text.StartsWith(p + "/", "/");
    if '/' in p {
      assert p == id + "/" + rest;
      assert rest != [];
      assert p + "/" == id + "/" + (rest + "/");
      Text.PartitionAt(id, rest + "/", '/');
      if id in f.children {
        if Text.StartsWith(rest, "/") {
          assert Text.StartsWith(rest + "/", "/");
        } else {
          assert p[|p| - |rest|..] == rest;
          ResolveIgnoresTrailingSlash(f.children[id], rest);
        }
      }
    } else {
      assert p + "/" == p + "/" + [];
      Text.PartitionAt(p, [], '/');
    }
  }

  /** An item whose key no later item shares is stored under that key by `AddAll`. */
  lemma {:induction false} AddAllLastWins(m: map<string, Folder>, items: seq<Folder>, slugify: Slugify, i: nat)
    requires i < |items|
    requires forall j :: i < j < |items| ==> Key(items[j], slugify) != Key(items[i], slugify)
    ensures Key(items[i], slugify) in AddAll(m, items, slugify)
    ensures AddAll(m, items, slugify)[Key(items[i], slugify)] == items[i]
  {
    if i < |items| - 1 {
      AddAllLastWins(m, items[..|items| - 1], slugify, i);
    }
  }

  /** A key that no item has keeps its entry, or its absence, through `AddAll`. */
  lemma {:induction false} AddAllKeepsOthers(m: map<string, Folder>, items: seq<Folder>, slugify: Slugify, k: string)
    requires forall j :: 0 <= j < |items| ==> Key(items[j], slugify) != k
    ensures k in AddAll(m, items, slugify) <==> k in m
    ensures k in m ==> AddAll(m, items, slugify)[k] == m[k]
  {
    if items != [] {
      AddAllKeepsOthers(m, items[..|items| - 1], slugify, k);
    }
  }

  /** After `add(x)` for an item with a non-empty identifier, `get(x.id)` returns `x`. */
  lemma GetAfterAdd(f: Folder, before: map<string, Folder>, x: Folder, slugify: Slugify)
    requires x.Id() != []
    requires f.children == AddAll(before, [x], slugify)
    ensures Resolve(f, x.Id()) == Ok(x)
  {
    assert [x][..0] == [];
    var id := x.Id();
    assert Key(x, slugify) == id;
    assert f.children == before[id := x];
    assert !Text.StartsWith(id, "/") by {
      assert id[0] in id;
    }
    assert Text.Partition(id, '/') == (id, []);
    assert Resolve(f.children[id], []) == Ok(x);
  }
}
