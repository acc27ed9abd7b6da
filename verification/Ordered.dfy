/**
 The iteration order of `BTreeMap`: values in increasing key order.
 Keys are enumerated by a strictly increasing sequence, which is unique for a given key set.
 */
module Ordered {

  ghost predicate StrictTotal<K(!new)>(less: (K, K) -> bool) {
    && (forall a :: !less(a, a))
    && (forall a, b, c :: less(a, b) && less(b, c) ==> less(a, c))
    && (forall a, b :: a == b || less(a, b) || less(b, a))
  }

  ghost predicate Increasing<K>(less: (K, K) -> bool, q: seq<K>) {
    forall i, j :: 0 <= i < j < |q| ==> less(q[i], q[j])
  }

  predicate IsLeast<K(==)>(less: (K, K) -> bool, k: K, s: set<K>) {
    k in s && forall j :: j in s && j != k ==> less(k, j)
  }

  lemma {:induction false} LeastExists<K(!new)>(less: (K, K) -> bool, s: set<K>) returns (k: K)
    requires StrictTotal(less) && s != {}
    ensures IsLeast(less, k, s)
  {
    var x :| x in s;
    if s == {x} {
      k := x;
    } else {
      var rest := s - {x};
      var r := LeastExists(less, rest);
      k := if less(x, r) then x else r;
      forall j | j in s && j != k ensures less(k, j) {
        assert j == x || j in rest;
      }
    }
  }

  /** The elements of `s`, smallest first. */
  function SortedKeys<K(!new, ==)>(less: (K, K) -> bool, s: set<K>): (q: seq<K>)
    requires StrictTotal(less)
    ensures Increasing(less, q)
    ensures forall k :: k in q <==> k in s
  {
    if s == {} then []
    else
      assert exists k :: IsLeast(less, k, s) by { var k := LeastExists(less, s); }
      var k :| IsLeast(less, k, s);
      var rest := SortedKeys(less, s - {k});
      assert forall j :: j in rest ==> less(k, j);
      [k] + rest
  }

  lemma LeastUnique<K(!new)>(less: (K, K) -> bool, s: set<K>, a: K, b: K)
    requires StrictTotal(less) && a in s && b in s
    requires IsLeast(less, a, s) && IsLeast(less, b, s)
    ensures a == b
  {
  }

  lemma HeadIsLeast<K(!new)>(less: (K, K) -> bool, s: set<K>, q: seq<K>)
    requires Increasing(less, q) && q != []
    requires forall k :: k in q <==> k in s
    ensures IsLeast(less, q[0], s)
  {
    forall j | j in s && j != q[0] ensures less(q[0], j) {
      var i :| 0 <= i < |q| && q[i] == j;
    }
  }

  lemma TailEnumerates<K(!new)>(less: (K, K) -> bool, s: set<K>, q: seq<K>)
    requires StrictTotal(less) && Increasing(less, q) && q != []
    requires forall k :: k in q <==> k in s
    ensures Increasing(less, q[1..])
    ensures forall k :: k in q[1..] <==> k in s - {q[0]}
  {
    assert q == [q[0]] + q[1..];
    forall k | k in q[1..] ensures less(q[0], k) {
      var i :| 0 <= i < |q[1..]| && q[1..][i] == k;
      assert q[i + 1] == k;
    }
    forall i, j | 0 <= i < j < |q[1..]| ensures less(q[1..][i], q[1..][j]) {
      assert less(q[i + 1], q[j + 1]);
    }
  }

  /** A strictly increasing enumeration of a set is the sorted one. */
  lemma {:induction false} SortedKeysUnique<K(!new)>(less: (K, K) -> bool, s: set<K>, q: seq<K>)
    requires StrictTotal(less) && Increasing(less, q)
    requires forall k :: k in q <==> k in s
    ensures q == SortedKeys(less, s)
  {
    assert s == set k | k in q;
    if q != [] {
      HeadIsLeast(less, s, q);
      TailEnumerates(less, s, q);
      var sorted := SortedKeys(less, s);
      assert sorted != [] by { var k :| k in s; assert k in sorted; }
      var least := sorted[0];
      HeadIsLeast(less, s, sorted);
      LeastUnique(less, s, q[0], least);
      SortedKeysUnique(less, s - {least}, q[1..]);
    }
  }

  /** `BTreeMap::values`. */
  function Values<K(!new, ==), V>(less: (K, K) -> bool, m: map<K, V>): (vs: seq<V>)
    requires StrictTotal(less)
    ensures |vs| == |SortedKeys(less, m.Keys)|
    ensures forall i :: 0 <= i < |vs| ==> SortedKeys(less, m.Keys)[i] in m && vs[i] == m[SortedKeys(less, m.Keys)[i]]
  {
    var keys := SortedKeys(less, m.Keys);
    seq(|keys|, i requires 0 <= i < |keys| => assert keys[i] in keys; m[keys[i]])
  }

  /** The order of Rust strings: code point by code point, a proper prefix first. */
  predicate StringLess(a: string, b: string) {
    if b == [] then false
    else if a == [] then true
    else if a[0] == b[0] then StringLess(a[1..], b[1..])
    else a[0] < b[0]
  }

  lemma {:induction false} StringLessTransitive(a: string, b: string, c: string)
    requires StringLess(a, b) && StringLess(b, c)
    ensures StringLess(a, c)
  {
    if a != [] && a[0] == b[0] == c[0] {
      StringLessTransitive(a[1..], b[1..], c[1..]);
    }
  }

  lemma {:induction false} StringLessConnected(a: string, b: string)
    ensures a == b || StringLess(a, b) || StringLess(b, a)
    ensures !StringLess(a, a)
  {
    if a != [] {
      StringLessConnected(a[1..], a[1..]);
      if b != [] && a[0] == b[0] {
        StringLessConnected(a[1..], b[1..]);
        assert a == [a[0]] + a[1..] && b == [b[0]] + b[1..];
      }
    }
  }

  lemma StringLessTotal()
    ensures StrictTotal(StringLess)
  {
    forall a, b ensures (a == b || StringLess(a, b) || StringLess(b, a)) && !StringLess(a, a) {
      StringLessConnected(a, b);
    }
    forall a, b, c | StringLess(a, b) && StringLess(b, c) ensures StringLess(a, c) {
      StringLessTransitive(a, b, c);
    }
  }

  /** At the first place where two strings differ the lower code point comes first; a proper prefix comes before. */
  lemma {:induction false} StringLessIff(a: string, b: string, k: nat)
    requires k <= |a| && k <= |b| && a[..k] == b[..k] && (k < |a| && k < |b| ==> a[k] != b[k])
    ensures StringLess(a, b) <==> k < |b| && (k == |a| || (a[k] as int) < (b[k] as int))
    decreases k
  {
    if k > 0 {
      assert a[0] == a[..k][0] == b[..k][0] == b[0];
      assert a[1..][..k - 1] == a[..k][1..] && b[1..][..k - 1] == b[..k][1..];
      StringLessIff(a[1..], b[1..], k - 1);
    } else {
      assert a[..0] == [];
    }
  }

  predicate IndexLess(a: nat, b: nat) { a < b }

  /** Values of a string-keyed tree map. */
  function ByName<V>(m: map<string, V>): (vs: seq<V>) {
    StringLessTotal();
    Values(StringLess, m)
  }

  /** Values of an index-keyed tree map. */
  function ByIndex<V>(m: map<nat, V>): (vs: seq<V>) {
    Values(IndexLess, m)
  }

  /** Any strictly increasing enumeration of the keys gives the values of the tree map. */
  lemma ByNameIs<V>(m: map<string, V>, keys: seq<string>)
    requires Increasing(StringLess, keys) && forall k :: k in keys <==> k in m.Keys
    ensures |ByName(m)| == |keys| && forall i :: 0 <= i < |keys| ==> keys[i] in m && ByName(m)[i] == m[keys[i]]
  {
    hide StrictTotal, StringLess, Increasing, SortedKeys;
    StringLessTotal();
    SortedKeysUnique(StringLess, m.Keys, keys);
  }

  /** Any enumeration of the indices from small to large gives the values of the index-keyed tree map. */
  lemma ByIndexIs<V>(m: map<nat, V>, keys: seq<nat>)
    requires (forall i, j :: 0 <= i < j < |keys| ==> keys[i] < keys[j]) && forall k: nat :: k in keys <==> k in m.Keys
    ensures |ByIndex(m)| == |keys| && forall i :: 0 <= i < |keys| ==> keys[i] in m && ByIndex(m)[i] == m[keys[i]]
  {
    hide SortedKeys;
    SortedKeysUnique(IndexLess, m.Keys, keys);
  }
}
