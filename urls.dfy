/**
 * The few parts of a URL the scraper reads (yarl's `raw_path`, `name` and `suffix`),
 * computed on the href text as written.
 */
module Urls {
  import opened Errors
  import Text

  /** `raw_path`: the href up to its query (`?`) or fragment (`#`). */
  function RawPath(href: string): (r: string)
    ensures Text.StartsWith(href, r)
    ensures '?' !in r && '#' !in r
    ensures '?' !in href && '#' !in href ==> r == href
    ensures |r| < |href| ==> href[|r|] == '?' || href[|r|] == '#'
  {
    if href == [] || href[0] == '?' || href[0] == '#' then []
    else [href[0]] + RawPath(href[1..])
  }

  /** `name`: the last segment of the path. */
  function Name(href: string): (r: string)
    ensures '/' !in r
  {
    Text.RPartition(RawPath(href), '/').1
  }

  /**
   * `suffix`: the name from its last `.` on, or empty when the name has no `.`, starts with
   * its only `.`, or ends with it.
   */
  function Suffix(name: string): (r: string)
    ensures r != [] ==> r[0] == '.' && |r| >= 2 && Text.EndsWith(name, r) && '.' !in r[1..]
    ensures r != [] ==> |r| < |name|
    ensures '.' !in name ==> r == []
  {
    match Text.LastIndexOf(name, '.')
    case None => []
    case Some(i) => if 0 < i < |name| - 1 then name[i..] else []
  }

  /** `url.suffix[1:].lower()`: the file extension, lower-cased, without its dot. */
  function Extension(href: string): (r: string)
    ensures '.' !in r && '/' !in r
  {
    var name := Name(href);
    var s := Suffix(name);
    if s == [] then []
    else
      SuffixChars(name, s);
      LowerKeeps(s[1..], '.');
      LowerKeeps(s[1..], '/');
      Text.Lower(s[1..])
  }

  /**
   * The extension of a file URL is its text after the last dot, lower-cased: for a stem
   * that does not end its path and an extension without a dot or a slash.
   */
  lemma ExtensionOfFile(stem: string, ext: string)
    requires stem != [] && stem[|stem| - 1] != '/'
    requires ext != [] && '.' !in ext && '/' !in ext
    requires '?' !in stem + ext && '#' !in stem + ext
    ensures Extension(stem + "." + ext) == Text.Lower(ext)
  {
    var t := FileName(stem, ext);
    SuffixOfFile(t, ext);
    assert ("." + ext)[1..] == ext;
  }

  /** A name made of a non-empty stem, a dot and a dot-free extension has that suffix. */
  lemma SuffixOfFile(t: string, ext: string)
    requires t != [] && ext != [] && '.' !in ext
    ensures Suffix(t + "." + ext) == "." + ext
  {
    var name := t + ['.'] + ext;
    assert t + "." + ext == name;
    Text.LastIndexOfAt(t, ext, '.');
    assert 0 < |t| < |name| - 1;
    assert name[|t|..] == "." + ext;
  }

  /** The name of such a file URL is the stem's last segment, a dot and the extension. */
  lemma FileName(stem: string, ext: string) returns (t: string)
    requires stem != [] && stem[|stem| - 1] != '/'
    requires ext != [] && '.' !in ext && '/' !in ext
    requires '?' !in stem + ext && '#' !in stem + ext
    ensures t != [] && Name(stem + "." + ext) == t + "." + ext
  {
    var href := stem + "." + ext;
    assert '?' !in stem && '?' !in ext && '#' !in stem && '#' !in ext by {
      assert forall c :: c in stem ==> c in stem + ext;
      assert forall c :: c in ext ==> c in stem + ext;
    }
    CharNotInFile(stem, ext, '?');
    CharNotInFile(stem, ext, '#');
    assert RawPath(href) == href;
    if '/' in stem {
      var (d, u) := Text.RPartition(stem, '/');
      t := u;
      LastSegment(stem, d, u, ext);
    } else {
      t := stem;
      CharNotInFile(stem, ext, '/');
    }
  }

  /** The last segment of a stem that does not end in `/` is non-empty and ends the name. */
  lemma LastSegment(stem: string, d: string, u: string, ext: string)
    requires stem != [] && stem[|stem| - 1] != '/' && '/' !in ext
    requires '/' in stem && (d, u) == Text.RPartition(stem, '/')
    ensures u != [] && Text.RPartition(stem + "." + ext, '/') == (d, u + "." + ext)
  {
    assert d + ['/'] + u == stem;
    assert stem[|stem| - 1] == (d + ['/'] + u)[|stem| - 1];
    CharNotInFile(u, ext, '/');
    assert stem + "." + ext == d + ['/'] + (u + "." + ext);
    Text.RPartitionAt(d, u + "." + ext, '/');
  }

  /** A character other than the dot that neither part holds is not in the file name. */
  lemma CharNotInFile(stem: string, ext: string, c: char)
    requires c !in stem && c !in ext && c != '.'
    ensures c !in stem + "." + ext
  {
    var s := stem + "." + ext;
    forall i | 0 <= i < |s|
      ensures s[i] != c
    {
      if i < |stem| { assert s[i] == stem[i]; }
      else if i > |stem| { assert s[i] == ext[i - |stem| - 1]; }
    }
  }

  /** The characters of a suffix are characters of the name it ends. */
  lemma SuffixChars(name: string, s: string)
    requires Text.EndsWith(name, s)
    ensures forall c :: c in s ==> c in name
  {
    var k := |name| - |s|;
    forall i | 0 <= i < |s|
      ensures s[i] in name
    {
      assert s[i] == name[k..][i] == name[k + i];
    }
  }

  /** Lower-casing introduces no character other than a lower-case letter. */
  lemma LowerKeeps(s: string, c: char)
    requires c !in s && !('a' <= c <= 'z')
    ensures c !in Text.Lower(s)
  {
  }
}
