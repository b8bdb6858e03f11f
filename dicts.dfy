/**
 * Python's `dict`: a finite map that also remembers the order in which its keys were first
 * inserted. Assigning to an existing key keeps that key's place; `pop` removes it.
 */
module Dicts {

  datatype Dict<K, V> = Dict(keys: seq<K>, items: map<K, V>)

  /** The key order lists every key exactly once. */
  ghost predicate Valid<K(!new), V>(d: Dict<K, V>) {
    && (forall i, j :: 0 <= i < j < |d.keys| ==> d.keys[i] != d.keys[j])
    && (forall k :: k in d.items <==> k in d.keys)
  }

  function Empty<K(!new), V>(): (r: Dict<K, V>)
    ensures Valid(r) && r.keys == [] && r.items == map[]
  {
    Dict([], map[])
  }

  /** `d[k] = v`. */
  function Set<K(!new), V>(d: Dict<K, V>, k: K, v: V): (r: Dict<K, V>)
    requires Valid(d)
    ensures Valid(r)
    ensures k in r.items && r.items[k] == v
    ensures forall k' :: k' != k ==> (k' in r.items <==> k' in d.items)
    ensures forall k' :: k' != k && k' in d.items ==> r.items[k'] == d.items[k']
    ensures k in d.items ==> r.keys == d.keys
    ensures k !in d.items ==> r.keys == d.keys + [k]
  {
    if k in d.items then Dict(d.keys, d.items[k := v]) else Dict(d.keys + [k], d.items[k := v])
  }

  function RemoveFromSeq<K(==,!new)>(s: seq<K>, k: K): (r: seq<K>)
    ensures forall x :: x in r <==> x in s && x != k
    ensures (forall i, j :: 0 <= i < j < |s| ==> s[i] != s[j]) ==>
              (forall i, j :: 0 <= i < j < |r| ==> r[i] != r[j])
  {
    if s == [] then []
    else if s[0] == k then RemoveFromSeq(s[1..], k)
    else
      var rest := RemoveFromSeq(s[1..], k);
      assert forall x :: x in s[1..] ==> x in s;
      assert (forall i, j :: 0 <= i < j < |s| ==> s[i] != s[j]) ==> s[0] !in rest by {
        if forall i, j :: 0 <= i < j < |s| ==> s[i] != s[j] {
          assert forall j :: 0 <= j < |s[1..]| ==> s[1..][j] == s[j + 1];
        }
      }
      [s[0]] + rest
  }

  /** `d.pop(k)` for a key that is present, with the value discarded. */
  function Remove<K(==,!new), V>(d: Dict<K, V>, k: K): (r: Dict<K, V>)
    requires Valid(d)
    ensures Valid(r)
    ensures r.items == d.items - {k}
    ensures r.keys == RemoveFromSeq(d.keys, k)
  {
    Dict(RemoveFromSeq(d.keys, k), d.items - {k})
  }

  /** `dict(pairs)`, or `d[k] = v` for each pair in turn, starting from an empty dict. */
  function FromPairs<K(!new), V>(ps: seq<(K, V)>): (r: Dict<K, V>)
    ensures Valid(r)
  {
    if ps == [] then Empty()
    else Set(FromPairs(ps[..|ps| - 1]), ps[|ps| - 1].0, ps[|ps| - 1].1)
  }

  /** Setting a key adds it to the key set. */
  lemma SetKeys<K(!new), V>(d: Dict<K, V>, k: K, v: V)
    requires Valid(d)
    ensures Set(d, k, v).items.Keys == d.items.Keys + {k}
  {
  }

  /** Appending a pair sets its key. */
  lemma FromPairsSnoc<K(!new), V>(ps: seq<(K, V)>, p: (K, V))
    ensures FromPairs(ps + [p]) == Set(FromPairs(ps), p.0, p.1)
  {
    assert (ps + [p])[..|ps|] == ps;
  }

  /** A pair whose key no later pair repeats gives that key its value. */
  lemma {:induction false} FromPairsLastWins<K(!new), V>(ps: seq<(K, V)>, i: nat)
    requires i < |ps|
    requires forall j :: i < j < |ps| ==> ps[j].0 != ps[i].0
    ensures ps[i].0 in FromPairs(ps).items && FromPairs(ps).items[ps[i].0] == ps[i].1
  {
    if i < |ps| - 1 {
      FromPairsLastWins(ps[..|ps| - 1], i);
    }
  }

  /** Appending a pair to the second part of the pairs sets its key. */
  lemma FromPairsSnocAfter<K(!new), V>(ps: seq<(K, V)>, es: seq<(K, V)>, p: (K, V))
    ensures FromPairs(ps + (es + [p])) == Set(FromPairs(ps + es), p.0, p.1)
  {
    assert ps + (es + [p]) == (ps + es) + [p];
    FromPairsSnoc(ps + es, p);
  }

  /** Two pairs set their keys in turn on the empty dictionary. */
  lemma FromPairsTwo<K(!new), V>(a: (K, V), b: (K, V))
    ensures FromPairs([a, b]) == Set(Set(Empty(), a.0, a.1), b.0, b.1)
  {
    assert [a, b] == [a] + [b];
    FromPairsSnoc([a], b);
    assert [] + [a] == [a];
    FromPairsSnoc([], a);
  }

  /** Appending three pairs sets their keys in turn. */
  lemma FromPairsSnoc3<K(!new), V>(ps: seq<(K, V)>, a: (K, V), b: (K, V), c: (K, V))
    ensures FromPairs(ps + [a, b, c]) == Set(Set(Set(FromPairs(ps), a.0, a.1), b.0, b.1), c.0, c.1)
  {
    assert ps + [a, b, c] == (ps + [a, b]) + [c];
    FromPairsSnoc(ps + [a, b], c);
    assert ps + [a, b] == (ps + [a]) + [b];
    FromPairsSnoc(ps + [a], b);
    FromPairsSnoc(ps, a);
  }

  /** Every value present is the value of some pair with that key. */
  lemma {:induction false} FromPairsValueFrom<K(!new), V>(ps: seq<(K, V)>, k: K)
    requires k in FromPairs(ps).items
    ensures exists i :: 0 <= i < |ps| && ps[i].0 == k && ps[i].1 == FromPairs(ps).items[k]
  {
    var n := |ps| - 1;
    if ps[n].0 != k {
      FromPairsValueFrom(ps[..n], k);
      var i :| 0 <= i < n && ps[..n][i].0 == k && ps[..n][i].1 == FromPairs(ps[..n]).items[k];
      assert ps[i] == ps[..n][i];
    }
  }

  /** Only keys of some pair are present. */
  lemma {:induction false} FromPairsOnlyGivenKeys<K(!new), V>(ps: seq<(K, V)>, k: K)
    requires forall j :: 0 <= j < |ps| ==> ps[j].0 != k
    ensures k !in FromPairs(ps).items
  {
    if ps != [] {
      FromPairsOnlyGivenKeys(ps[..|ps| - 1], k);
    }
  }

  /** Keys come out in the order of their first occurrence. */
  lemma FromPairsKeyOrder<K(!new), V>(ps: seq<(K, V)>, i: nat, j: nat)
    requires i < j < |ps|
    requires forall l :: 0 <= l < j ==> ps[l].0 != ps[j].0
    ensures exists a, b ::
              && 0 <= a < b < |FromPairs(ps).keys|
              && FromPairs(ps).keys[a] == ps[i].0
              && FromPairs(ps).keys[b] == ps[j].0
  {
    var init := ps[..j];
    FromPairsNewKey(ps, j);
    assert init[i] == ps[i];
    FromPairsHasKey(init, i);
    var a :| 0 <= a < |FromPairs(init).keys| && FromPairs(init).keys[a] == ps[i].0;
    var b := |FromPairs(init).keys|;
    FromPairsPrefixKeys(ps, j + 1);
    assert FromPairs(ps).keys[a] == FromPairs(ps[..j + 1]).keys[a];
    assert FromPairs(ps).keys[b] == FromPairs(ps[..j + 1]).keys[b];
  }

  /** A key not seen before is appended to the key order. */
  lemma FromPairsNewKey<K(!new), V>(ps: seq<(K, V)>, j: nat)
    requires j < |ps|
    requires forall l :: 0 <= l < j ==> ps[l].0 != ps[j].0
    ensures FromPairs(ps[..j + 1]).keys == FromPairs(ps[..j]).keys + [ps[j].0]
  {
    assert ps[..j + 1][..j] == ps[..j];
    FromPairsOnlyGivenKeys(ps[..j], ps[j].0);
  }

  /** The key order of a prefix is a prefix of the key order. */
  lemma {:induction false} FromPairsPrefixKeys<K(!new), V>(ps: seq<(K, V)>, n: nat)
    requires n <= |ps|
    ensures FromPairs(ps[..n]).keys <= FromPairs(ps).keys
    decreases |ps|
  {
    if n < |ps| {
      assert ps[..|ps| - 1][..n] == ps[..n];
      FromPairsPrefixKeys(ps[..|ps| - 1], n);
    } else {
      assert ps[..n] == ps;
    }
  }

  /** There are never more keys than pairs. */
  lemma {:induction false} FromPairsSize<K(!new), V>(ps: seq<(K, V)>)
    ensures |FromPairs(ps).keys| <= |ps|
  {
    if ps != [] {
      FromPairsSize(ps[..|ps| - 1]);
    }
  }

  /** Every key of some pair is present. */
  lemma {:induction false} FromPairsHasKey<K(!new), V>(ps: seq<(K, V)>, i: nat)
    requires i < |ps|
    ensures ps[i].0 in FromPairs(ps).items
  {
    if i < |ps| - 1 {
      FromPairsHasKey(ps[..|ps| - 1], i);
    }
  }

  /** `a + [k] + b` without `k`, when `k` occurs in neither `a` nor `b`. */
  lemma {:induction false} RemoveFromSeqAt<K(!new)>(a: seq<K>, k: K, b: seq<K>)
    requires k !in a && k !in b
    ensures RemoveFromSeq(a + [k] + b, k) == a + b
  {
    if a == [] {
      assert a + [k] + b == [k] + b;
      assert ([k] + b)[1..] == b;
      RemoveFromSeqAbsent(b, k);
    } else {
      var s := a + [k] + b;
      assert s[0] == a[0] != k;
      assert s[1..] == a[1..] + [k] + b;
      assert RemoveFromSeq(s, k) == [a[0]] + RemoveFromSeq(s[1..], k);
      RemoveFromSeqAt(a[1..], k, b);
      assert [a[0]] + (a[1..] + b) == a + b;
    }
  }

  lemma {:induction false} RemoveFromSeqAbsent<K(!new)>(s: seq<K>, k: K)
    requires k !in s
    ensures RemoveFromSeq(s, k) == s
  {
    if s != [] {
      RemoveFromSeqAbsent(s[1..], k);
      assert [s[0]] + s[1..] == s;
    }
  }

  /** The keys of a sequence of pairs. */
  function KeysOf<K(!new), V>(ps: seq<(K, V)>): (r: set<K>)
    ensures forall i :: 0 <= i < |ps| ==> ps[i].0 in r
    ensures forall k :: k in r ==> exists i :: 0 <= i < |ps| && ps[i].0 == k
  {
    set i | 0 <= i < |ps| :: ps[i].0
  }

  /** `dict(pairs)` has exactly the keys of its pairs. */
  lemma FromPairsKeySet<K(!new), V>(ps: seq<(K, V)>)
    ensures FromPairs(ps).items.Keys == KeysOf(ps)
  {
    forall k | k in KeysOf(ps)
      ensures k in FromPairs(ps).items
    {
      var i :| 0 <= i < |ps| && ps[i].0 == k;
      FromPairsHasKey(ps, i);
    }
    forall k | k !in KeysOf(ps)
      ensures k !in FromPairs(ps).items
    {
      FromPairsOnlyGivenKeys(ps, k);
    }
  }

  /** The keys of concatenated pairs are the keys of each part. */
  lemma KeysOfAppend<K(!new), V>(a: seq<(K, V)>, b: seq<(K, V)>)
    ensures KeysOf(a + b) == KeysOf(a) + KeysOf(b)
  {
    var ab := a + b;
    forall k | k in KeysOf(ab)
      ensures k in KeysOf(a) + KeysOf(b)
    {
      var i :| 0 <= i < |ab| && ab[i].0 == k;
      if i < |a| {
        assert ab[i] == a[i];
      } else {
        assert ab[i] == b[i - |a|];
      }
    }
    forall k | k in KeysOf(a) + KeysOf(b)
      ensures k in KeysOf(ab)
    {
      if k in KeysOf(a) {
        var i :| 0 <= i < |a| && a[i].0 == k;
        assert ab[i] == a[i];
      } else {
        var i :| 0 <= i < |b| && b[i].0 == k;
        assert ab[|a| + i] == b[i];
      }
    }
  }

  lemma KeysOfSingle<K(!new), V>(p: (K, V))
    ensures KeysOf([p]) == {p.0}
  {
    assert [p][0] == p;
  }

  lemma KeysOfTwo<K(!new), V>(p: (K, V), q: (K, V))
    ensures KeysOf([p, q]) == {p.0, q.0}
  {
    assert [p, q] == [p] + [q];
    KeysOfAppend([p], [q]);
    KeysOfSingle(p);
    KeysOfSingle(q);
  }

  lemma KeysOfThree<K(!new), V>(p: (K, V), q: (K, V), s: (K, V))
    ensures KeysOf([p, q, s]) == {p.0, q.0, s.0}
  {
    assert [p, q, s] == [p, q] + [s];
    KeysOfAppend([p, q], [s]);
    KeysOfTwo(p, q);
    KeysOfSingle(s);
  }
}
