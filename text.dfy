/** Python string operations the scraper relies on, on `string` = `seq<char>`. */
module Text {
  import opened Errors

  /** `str.isspace()` for one character (the characters Python's `str.strip()` removes). */
  predicate IsSpace(c: char) {
    var n := c as int;
    (9 <= n <= 13) || (28 <= n <= 32) || n == 0x85 || n == 0xA0 || n == 0x1680
    || (0x2000 <= n <= 0x200A) || n == 0x2028 || n == 0x2029 || n == 0x202F || n == 0x205F
    || n == 0x3000
  }

  predicate AllSpace(s: string) {
    forall i :: 0 <= i < |s| ==> IsSpace(s[i])
  }

  /** `str.strip()`: the text without its leading and trailing whitespace. */
  function Strip(s: string): (r: string)
    ensures r != [] ==> !IsSpace(r[0]) && !IsSpace(r[|r| - 1])
    decreases |s|
  {
    if s != [] && IsSpace(s[0]) then Strip(s[1..])
    else if s != [] && IsSpace(s[|s| - 1]) then Strip(s[..|s| - 1])
    else s
  }

  /** Stripping leaves nothing exactly when the text is all whitespace. */
  lemma {:induction false} StripEmpty(s: string)
    ensures Strip(s) == [] <==> AllSpace(s)
    decreases |s|
  {
    if s != [] && IsSpace(s[0]) {
      StripEmpty(s[1..]);
      assert forall i :: 1 <= i < |s| ==> s[i] == s[1..][i - 1];
    } else if s != [] && IsSpace(s[|s| - 1]) {
      StripEmpty(s[..|s| - 1]);
      assert forall i :: 0 <= i < |s| - 1 ==> s[i] == s[..|s| - 1][i];
    }
  }

  /** Neither starting nor ending with whitespace. */
  predicate Trimmed(s: string) {
    s != [] ==> !IsSpace(s[0]) && !IsSpace(s[|s| - 1])
  }

  /** `" ".join(parts)`. */
  function Join(parts: seq<string>): (r: string)
    ensures (forall i :: 0 <= i < |parts| ==> parts[i] != []) ==> (r == [] <==> parts == [])
    ensures (forall i :: 0 <= i < |parts| ==> parts[i] != [] && Trimmed(parts[i])) ==> Trimmed(r)
  {
    if parts == [] then []
    else if |parts| == 1 then parts[0]
    else
      var rest := Join(parts[1..]);
      assert forall i :: 1 <= i < |parts| ==> parts[i] == parts[1..][i - 1];
      parts[0] + " " + rest
  }

  predicate StartsWith(s: string, prefix: string) {
    |prefix| <= |s| && s[..|prefix|] == prefix
  }

  predicate EndsWith(s: string, suffix: string) {
    |suffix| <= |s| && s[|s| - |suffix|..] == suffix
  }

  /** `str.removeprefix(prefix)`: one leading copy of `prefix` removed, if there is one. */
  function RemovePrefix(s: string, prefix: string): (r: string)
    ensures StartsWith(s, prefix) ==> prefix + r == s
    ensures !StartsWith(s, prefix) ==> r == s
  {
    if StartsWith(s, prefix) then s[|prefix|..] else s
  }

  /** `str.removesuffix(suffix)`: one trailing copy of `suffix` removed, if there is one. */
  function RemoveSuffix(s: string, suffix: string): (r: string)
    ensures EndsWith(s, suffix) ==> r + suffix == s
    ensures !EndsWith(s, suffix) ==> r == s
  {
    if EndsWith(s, suffix) then s[..|s| - |suffix|] else s
  }

  function LowerChar(c: char): char {
    if 'A' <= c <= 'Z' then (c as int - 'A' as int + 'a' as int) as char else c
  }

  /** `str.lower()` on the ASCII letters. */
  function Lower(s: string): (r: string)
    ensures |r| == |s|
    ensures forall i :: 0 <= i < |s| ==> r[i] == LowerChar(s[i])
  {
    if s == [] then [] else [LowerChar(s[0])] + Lower(s[1..])
  }

  /** `str.replace(a, b)` for single characters `a` and `b`. */
  function ReplaceChar(s: string, a: char, b: char): (r: string)
    ensures |r| == |s|
    ensures forall i :: 0 <= i < |s| ==> r[i] == (if s[i] == a then b else s[i])
  {
    if s == [] then [] else [if s[0] == a then b else s[0]] + ReplaceChar(s[1..], a, b)
  }

  /** Index of the first `c` in `s`. */
  function IndexOf(s: string, c: char): (r: Option<nat>)
    ensures r.Some? ==> r.value < |s| && s[r.value] == c && c !in s[..r.value]
    ensures r.None? ==> c !in s
  {
    if s == [] then None
    else if s[0] == c then Some(0)
    else match IndexOf(s[1..], c)
      case None => None
      case Some(i) => Some(i + 1)
  }

  /** Index of the last `c` in `s`. */
  function LastIndexOf(s: string, c: char): (r: Option<nat>)
    ensures r.Some? ==> r.value < |s| && s[r.value] == c && c !in s[r.value + 1..]
    ensures r.None? ==> c !in s
  {
    if s == [] then None
    else if s[|s| - 1] == c then Some(|s| - 1)
    else LastIndexOf(s[..|s| - 1], c)
  }

  /** `s.partition(c)` without the separator: the text before the first `c` and after it. */
  function Partition(s: string, c: char): (r: (string, string))
    ensures c !in r.0
    ensures c in s ==> r.0 + [c] + r.1 == s
    ensures c !in s ==> r == (s, [])
  {
    match IndexOf(s, c)
    case None => (s, [])
    case Some(i) =>
      assert s == s[..i] + [c] + s[i + 1..];
      (s[..i], s[i + 1..])
  }

  /** `s.rpartition(c)` without the separator: the text before the last `c` and after it. */
  function RPartition(s: string, c: char): (r: (string, string))
    ensures c !in r.1
    ensures c in s ==> r.0 + [c] + r.1 == s
    ensures c !in s ==> r == ([], s)
  {
    match LastIndexOf(s, c)
    case None => ([], s)
    case Some(i) =>
      assert s == s[..i] + [c] + s[i + 1..];
      (s[..i], s[i + 1..])
  }

  /** The first `c` splits `a + [c] + b` into `a` and `b` when `a` holds no `c`. */
  lemma PartitionAt(a: string, b: string, c: char)
    requires c !in a
    ensures Partition(a + [c] + b, c) == (a, b)
  {
    var s := a + [c] + b;
    var i := IndexOf(s, c).value;
    assert forall j :: 0 <= j < |a| ==> s[j] == a[j];
    assert s[|a|] == c;
    assert s[..i] == a && s[i + 1..] == b;
  }

  /** The last `c` of `a + [c] + b` is the one after `a` when `b` holds no `c`. */
  lemma LastIndexOfAt(a: string, b: string, c: char)
    requires c !in b
    ensures LastIndexOf(a + [c] + b, c) == Some(|a|)
  {
    var s := a + [c] + b;
    assert s[|a|] == c && s[|a| + 1..] == b;
  }

  /** The last `c` splits `a + [c] + b` into `a` and `b` when `b` holds no `c`. */
  lemma RPartitionAt(a: string, b: string, c: char)
    requires c !in b
    ensures RPartition(a + [c] + b, c) == (a, b)
  {
    var s := a + [c] + b;
    LastIndexOfAt(a, b, c);
    assert s[..|a|] == a && s[|a| + 1..] == b;
  }

  /** `s.split(c)`: the pieces between the occurrences of `c`; `""` gives `[""]`. */
  function Split(s: string, c: char): (r: seq<string>)
    ensures |r| >= 1
    ensures forall i :: 0 <= i < |r| ==> c !in r[i]
    decreases |s|
  {
    if c in s then
      var (a, b) := Partition(s, c);
      [a] + Split(b, c)
    else [s]
  }

  predicate IsDigit(c: char) {
    '0' <= c <= '9'
  }

  predicate AllDigits(s: string) {
    forall i :: 0 <= i < |s| ==> IsDigit(s[i])
  }

  function Pow10(n: nat): (r: nat)
    ensures r >= 1
  {
    if n == 0 then 1 else 10 * Pow10(n - 1)
  }

  /** The value of a string of decimal digits. */
  function DigitsValue(s: string): nat
    requires AllDigits(s)
  {
    if s == [] then 0 else 10 * DigitsValue(s[..|s| - 1]) + (s[|s| - 1] as int - '0' as int)
  }

  /** `n` decimal digits never exceed 10^n - 1. */
  lemma {:induction false} DigitsValueBound(s: string)
    requires AllDigits(s)
    ensures DigitsValue(s) < Pow10(|s|)
  {
    if s != [] {
      DigitsValueBound(s[..|s| - 1]);
    }
  }

  /**
   * Digits with single underscores between them, as `int()` accepts them: a digit, then
   * either nothing, or more groups, optionally after one `_`.
   */
  predicate DigitGroups(s: string) {
    s != [] && IsDigit(s[0]) &&
    (|s| == 1 || (if s[1] == '_' then DigitGroups(s[2..]) else DigitGroups(s[1..])))
  }

  function DropUnderscores(s: string): string {
    if s == [] then [] else (if s[0] == '_' then [] else [s[0]]) + DropUnderscores(s[1..])
  }

  /** Without their underscores, digit groups are plain digits. */
  lemma {:induction false} DropUnderscoresOfGroups(s: string)
    requires DigitGroups(s)
    ensures AllDigits(DropUnderscores(s)) && DropUnderscores(s) != []
  {
    if |s| > 1 {
      if s[1] == '_' {
        DropUnderscoresOfGroups(s[2..]);
        assert DropUnderscores(s[1..]) == DropUnderscores(s[2..]);
      } else {
        DropUnderscoresOfGroups(s[1..]);
      }
    }
  }

  /** A run of digits is a single digit group. */
  lemma {:induction false} DigitsAreGroups(s: string)
    requires AllDigits(s) && s != []
    ensures DigitGroups(s)
  {
    if |s| > 1 {
      DigitsAreGroups(s[1..]);
    }
  }

  /** `int(s)` for a string: surrounding whitespace, an optional sign, then decimal digits. */
  function ParseInt(s: string): Option<int> {
    SignedValue(Strip(s))
  }

  /** A plain run of decimal digits is read as its value. */
  lemma ParseIntOfDigits(s: string)
    requires AllDigits(s) && s != []
    ensures ParseInt(s) == Some(DigitsValue(s))
  {
    DigitsAreNotSpace(s);
    SignedValueOfDigits(s);
  }

  /** The value of an optional sign followed by digit groups; none for anything else. */
  function SignedValue(t: string): Option<int> {
    if t != [] && t[0] == '-' then
      match GroupsValue(t[1..])
      case None => None
      case Some(n) => Some(-n)
    else if t != [] && t[0] == '+' then GroupsValue(t[1..])
    else GroupsValue(t)
  }

  /** The value of digit groups; none for anything else. */
  function GroupsValue(body: string): Option<int> {
    if DigitGroups(body) then
      DropUnderscoresOfGroups(body);
      Some(DigitsValue(DropUnderscores(body)))
    else None
  }

  lemma SignedValueOfDigits(t: string)
    requires AllDigits(t) && t != []
    ensures SignedValue(t) == Some(DigitsValue(t))
  {
    DigitsAreGroups(t);
    DropUnderscoresOfDigits(t);
  }

  lemma DigitsAreNotSpace(s: string)
    requires AllDigits(s)
    ensures Strip(s) == s
  {
    if s != [] {
      assert !IsSpace(s[0]) && !IsSpace(s[|s| - 1]);
    }
  }

  lemma {:induction false} DropUnderscoresOfDigits(s: string)
    requires AllDigits(s)
    ensures DropUnderscores(s) == s
  {
    if s != [] {
      DropUnderscoresOfDigits(s[1..]);
    }
  }
}
