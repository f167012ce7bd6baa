/** A stable sort by a numeric key: what `[...list].sort((a, b) => key(a) - key(b))`
    computes, since `Array.prototype.sort` is stable. Modelled as insertion sort that
    inserts each head element in front of the sorted rest, before its equal-key peers. */
module Sorting {
  import opened Seqs

  ghost predicate SortedBy<T>(s: seq<T>, key: T -> real) {
    forall i, j :: 0 <= i < j < |s| ==> key(s[i]) <= key(s[j])
  }

  /** Puts `x` before the first element whose key is not smaller than its own. */
  function Insert<T>(x: T, l: seq<T>, key: T -> real): (r: seq<T>)
    ensures multiset(r) == multiset(l) + multiset{x}
  {
    if l == [] then [x]
    else if key(x) <= key(l[0]) then [x] + l
    else
      assert l == [l[0]] + l[1..];
      [l[0]] + Insert(x, l[1..], key)
  }

  /** Every element of the result is `x` or an element of `l`. */
  lemma InsertMembers<T>(x: T, l: seq<T>, key: T -> real, i: nat)
    requires i < |Insert(x, l, key)|
    ensures Insert(x, l, key)[i] == x || Insert(x, l, key)[i] in multiset(l)
  {
    var r := Insert(x, l, key);
    assert r[i] in multiset(r);
  }

  lemma {:induction false} InsertSorted<T>(x: T, l: seq<T>, key: T -> real)
    requires SortedBy(l, key)
    ensures SortedBy(Insert(x, l, key), key)
  {
    if l != [] && key(x) > key(l[0]) {
      var rest := Insert(x, l[1..], key);
      InsertSorted(x, l[1..], key);
      assert forall i :: 0 <= i < |rest| ==> key(l[0]) <= key(rest[i]) by {
        forall i | 0 <= i < |rest| ensures key(l[0]) <= key(rest[i]) {
          InsertMembers(x, l[1..], key, i);
          if rest[i] != x {
            var k :| 0 <= k < |l[1..]| && l[1..][k] == rest[i];
            assert l[k + 1] == rest[i];
          }
        }
      }
      assert Insert(x, l, key) == [l[0]] + rest;
    }
  }

  /** The stable sort of `s` by `key`: a permutation of `s`, in the order
      `SortByKeySorted` and `SortIsStable` describe. */
  function SortByKey<T>(s: seq<T>, key: T -> real): (r: seq<T>)
    ensures multiset(r) == multiset(s)
  {
    if s == [] then []
    else
      assert s == [s[0]] + s[1..];
      Insert(s[0], SortByKey(s[1..], key), key)
  }

  /** The sorted list is in non-decreasing key order. */
  lemma {:induction false} SortByKeySorted<T>(s: seq<T>, key: T -> real)
    ensures SortedBy(SortByKey(s, key), key)
  {
    if s != [] {
      SortByKeySorted(s[1..], key);
      InsertSorted(s[0], SortByKey(s[1..], key), key);
    }
  }

  /** The elements whose key is `c`. */
  function KeyIs<T>(key: T -> real, c: real): T -> bool {
    e => key(e) == c
  }

  /** Inserting into a sorted list puts `x` before every element of its own key class. */
  lemma {:induction false} InsertKeepsClassOrder<T>(x: T, l: seq<T>, key: T -> real, c: real)
    requires SortedBy(l, key)
    ensures Filter(Insert(x, l, key), KeyIs(key, c)) == (if key(x) == c then [x] else []) + Filter(l, KeyIs(key, c))
  {
    var p := KeyIs(key, c);
    if l == [] {
      assert Insert(x, l, key) == [x] + [];
    } else if key(x) <= key(l[0]) {
      assert Insert(x, l, key) == [x] + l;
      assert ([x] + l)[1..] == l;
    } else {
      var rest := Insert(x, l[1..], key);
      assert SortedBy(l[1..], key);
      InsertKeepsClassOrder(x, l[1..], key, c);
      assert Insert(x, l, key) == [l[0]] + rest;
      assert ([l[0]] + rest)[1..] == rest;
      assert Filter(l, p) == (if p(l[0]) then [l[0]] else []) + Filter(l[1..], p);
      if key(x) == c {
        assert !p(l[0]);
      }
    }
  }

  /** Stability: the elements of any one key class keep their original order. */
  lemma {:induction false} SortIsStable<T>(s: seq<T>, key: T -> real, c: real)
    ensures Filter(SortByKey(s, key), KeyIs(key, c)) == Filter(s, KeyIs(key, c))
  {
    if s != [] {
      var sorted := SortByKey(s[1..], key);
      SortIsStable(s[1..], key, c);
      SortByKeySorted(s[1..], key);
      InsertKeepsClassOrder(s[0], sorted, key, c);
    }
  }

  /** A key that is the same for every element leaves the order unchanged. */
  lemma ConstantKeyKeepsOrder<T>(s: seq<T>, key: T -> real, c: real)
    requires forall e :: key(e) == c
    ensures SortByKey(s, key) == s
  {
    var r, p := SortByKey(s, key), KeyIs(key, c);
    SortIsStable(s, key, c);
    forall i | 0 <= i < |s| ensures p(s[i]) {
      assert key(s[i]) == c;
    }
    forall i | 0 <= i < |r| ensures p(r[i]) {
      assert r[i] in multiset(s);
      var j :| 0 <= j < |s| && s[j] == r[i];
      assert key(s[j]) == c;
    }
    FilterAll(s, p);
    FilterAll(r, p);
  }
}
