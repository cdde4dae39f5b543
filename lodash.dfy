/** The lodash collection helpers the launcher relies on, specified by their documented results. */
module Lodash {

  predicate NoDuplicates<T(==)>(s: seq<T>) {
    forall i, j :: 0 <= i < j < |s| ==> s[i] != s[j]
  }

  /** The position of the first occurrence of `x` in `s`. */
  function FirstIndex<T(==)>(s: seq<T>, x: T): (k: nat)
    requires x in s
    ensures k < |s| && s[k] == x && x !in s[..k]
  {
    if s[0] == x then 0
    else
      var k' := FirstIndex(s[1..], x);
      assert s[..k' + 1] == [s[0]] + s[1..][..k'];
      k' + 1
  }

  /** Any position holding `x` with no earlier `x` is the first index. */
  lemma FirstIndexUnique<T>(s: seq<T>, x: T, k: nat)
    requires k < |s| && s[k] == x && x !in s[..k]
    ensures FirstIndex(s, x) == k
  {
  }

  /** `_.uniq` (and `_.union` of the concatenated arrays): the distinct elements of `s`,
      each kept where it first occurs. */
  function Uniq<T(==)>(s: seq<T>): (r: seq<T>)
    ensures NoDuplicates(r)
    ensures forall i :: 0 <= i < |r| ==> r[i] in s
    ensures forall i :: 0 <= i < |s| ==> s[i] in r
    ensures |s| > 0 ==> |r| > 0 && r[0] == s[0]
  {
    if s == [] then []
    else
      var rest := Uniq(s[..|s| - 1]);
      var x := s[|s| - 1];
      assert s == s[..|s| - 1] + [x];
      if x in rest then rest else rest + [x]
  }

  /** `Uniq` keeps first occurrences in their original order. */
  lemma {:induction false} UniqKeepsFirstOccurrenceOrder<T>(s: seq<T>)
    ensures forall i, j :: 0 <= i < j < |Uniq(s)| ==> FirstIndex(s, Uniq(s)[i]) < FirstIndex(s, Uniq(s)[j])
  {
    if s != [] {
      var p := s[..|s| - 1];
      var x := s[|s| - 1];
      var rest := Uniq(p);
      UniqKeepsFirstOccurrenceOrder(p);
      forall y | y in p
        ensures FirstIndex(s, y) == FirstIndex(p, y) < |p|
      {
        var k := FirstIndex(p, y);
        assert s[..k] == p[..k];
        FirstIndexUnique(s, y, k);
      }
      if x !in rest {
        assert s[..|s| - 1] == p;
        FirstIndexUnique(s, x, |s| - 1);
        assert Uniq(s) == rest + [x];
      }
    }
  }

  /** A sequence without repetitions is its own `Uniq`. */
  lemma {:induction false} UniqOfDistinct<T>(s: seq<T>)
    requires NoDuplicates(s)
    ensures Uniq(s) == s
  {
    if s != [] {
      var p := s[..|s| - 1];
      UniqOfDistinct(p);
      assert s[|s| - 1] !in p;
      assert s == p + [s[|s| - 1]];
    }
  }

  /** `_.omit(m, keys)`: every entry of `m` whose key is not in `keys`. */
  function Omit<K, V>(m: map<K, V>, keys: set<K>): (r: map<K, V>)
    ensures r.Keys == m.Keys - keys
    ensures forall k :: k in r ==> r[k] == m[k]
  {
    m - keys
  }

  /** `_.extend(target, source)`: the entries of `target`, overwritten and added to by those of `source`. */
  function Extend<K, V>(target: map<K, V>, source: map<K, V>): (r: map<K, V>)
    ensures r.Keys == target.Keys + source.Keys
    ensures forall k :: k in source ==> r[k] == source[k]
    ensures forall k :: k in target && k !in source ==> r[k] == target[k]
  {
    target + source
  }
}
