/**
 * `xs.sort((a, b) => key(b) - key(a))`: JavaScript's `Array.prototype.sort` is
 * stable, so this orders by non-increasing key and keeps elements with equal keys
 * in their original order. The model is a stable insertion sort; the lemmas say
 * it is sorted, a permutation, and stable.
 */
module Sorting {

  predicate SortedDesc<T>(xs: seq<T>, key: T -> real) {
    forall i, j :: 0 <= i < j < |xs| ==> key(xs[i]) >= key(xs[j])
  }

  /** In a sequence sorted from the highest key, an element with a larger key comes earlier. */
  lemma SortedDescBefore<T>(xs: seq<T>, key: T -> real, i: nat, j: nat)
    requires SortedDesc(xs, key) && i < |xs| && j < |xs| && key(xs[i]) > key(xs[j])
    ensures i < j
  {
  }

  /** Puts `x` in front of the first element whose key is not larger than its own. */
  function Insert<T>(x: T, xs: seq<T>, key: T -> real): (r: seq<T>)
    ensures |r| == |xs| + 1
    ensures multiset(r) == multiset(xs) + multiset{x}
    ensures forall y :: y in r ==> y == x || y in xs
  {
    if xs == [] || key(xs[0]) <= key(x) then [x] + xs
    else
      assert xs == [xs[0]] + xs[1..];
      [xs[0]] + Insert(x, xs[1..], key)
  }

  lemma {:induction false} InsertSorted<T>(x: T, xs: seq<T>, key: T -> real)
    requires SortedDesc(xs, key)
    ensures SortedDesc(Insert(x, xs, key), key)
  {
    var r := Insert(x, xs, key);
    if xs == [] || key(xs[0]) <= key(x) {
      assert r == [x] + xs;
      forall i, j | 0 <= i < j < |r| ensures key(r[i]) >= key(r[j]) {
        if i == 0 {
          assert r[j] == xs[j - 1];
          assert key(xs[0]) >= key(xs[j - 1]);
        } else {
          assert r[i] == xs[i - 1] && r[j] == xs[j - 1];
        }
      }
    } else {
      var tail := Insert(x, xs[1..], key);
      assert r == [xs[0]] + tail;
      InsertSorted(x, xs[1..], key);
      forall i, j | 0 <= i < j < |r| ensures key(r[i]) >= key(r[j]) {
        if i == 0 {
          assert r[j] == tail[j - 1];
          assert r[j] in tail;
          if r[j] != x {
            var m :| 0 <= m < |xs[1..]| && xs[1..][m] == r[j];
            assert xs[m + 1] == r[j];
          }
        } else {
          assert r[i] == tail[i - 1] && r[j] == tail[j - 1];
        }
      }
    }
  }

  /** The stable sort by non-increasing key. */
  function SortDesc<T>(xs: seq<T>, key: T -> real): (r: seq<T>)
    ensures |r| == |xs|
    ensures multiset(r) == multiset(xs)
    ensures SortedDesc(r, key)
  {
    if xs == [] then []
    else
      assert xs == [xs[0]] + xs[1..];
      InsertSorted(xs[0], SortDesc(xs[1..], key), key);
      Insert(xs[0], SortDesc(xs[1..], key), key)
  }

  /** Every element of the sorted sequence comes from `xs`. */
  lemma SortDescFrom<T>(xs: seq<T>, key: T -> real, i: nat) returns (j: nat)
    requires i < |xs|
    ensures j < |xs| && SortDesc(xs, key)[i] == xs[j]
  {
    assert SortDesc(xs, key)[i] in multiset(xs);
    j :| 0 <= j < |xs| && xs[j] == SortDesc(xs, key)[i];
  }

  /** Every element of `xs` has a place in the sorted sequence. */
  lemma SortDescTo<T>(xs: seq<T>, key: T -> real, j: nat) returns (i: nat)
    requires j < |xs|
    ensures i < |xs| && SortDesc(xs, key)[i] == xs[j]
  {
    assert xs[j] in multiset(SortDesc(xs, key));
    i :| 0 <= i < |xs| && SortDesc(xs, key)[i] == xs[j];
  }

  /** The elements of `xs` whose key is `k`, in their order in `xs`. */
  function KeyClass<T>(xs: seq<T>, key: T -> real, k: real): seq<T> {
    if xs == [] then []
    else (if key(xs[0]) == k then [xs[0]] else []) + KeyClass(xs[1..], key, k)
  }

  /** The key class of a list with one element in front. */
  lemma KeyClassCons<T>(y: T, ys: seq<T>, key: T -> real, k: real)
    ensures KeyClass([y] + ys, key, k) == (if key(y) == k then [y] else []) + KeyClass(ys, key, k)
  {
    assert ([y] + ys)[1..] == ys;
  }

  lemma {:induction false} InsertKeyClass<T>(x: T, xs: seq<T>, key: T -> real, k: real)
    ensures KeyClass(Insert(x, xs, key), key, k)
         == (if key(x) == k then [x] else []) + KeyClass(xs, key, k)
  {
    if xs == [] || key(xs[0]) <= key(x) {
      KeyClassCons(x, xs, key, k);
    } else {
      var rest := Insert(x, xs[1..], key);
      assert Insert(x, xs, key) == [xs[0]] + rest;
      KeyClassCons(xs[0], rest, key, k);
      InsertKeyClass(x, xs[1..], key, k);
      assert xs == [xs[0]] + xs[1..];
      KeyClassCons(xs[0], xs[1..], key, k);
      // x and xs[0] have different keys, so at most one of them is in the class
      SwapEmpty(if key(xs[0]) == k then [xs[0]] else [], if key(x) == k then [x] else [], KeyClass(xs[1..], key, k));
    }
  }

  /** Two prefixes of which one is empty can be applied in either order. */
  lemma SwapEmpty<T>(a: seq<T>, b: seq<T>, t: seq<T>)
    requires a == [] || b == []
    ensures a + (b + t) == b + (a + t)
  {
    if a == [] {
      assert a + (b + t) == b + t && a + t == t;
    } else {
      assert b + t == t && b + (a + t) == a + t;
    }
  }

  /** Stability: for every key value, the elements with that key keep their relative order. */
  lemma {:induction false} SortDescStable<T>(xs: seq<T>, key: T -> real, k: real)
    ensures KeyClass(SortDesc(xs, key), key, k) == KeyClass(xs, key, k)
  {
    if xs != [] {
      SortDescStable(xs[1..], key, k);
      InsertKeyClass(xs[0], SortDesc(xs[1..], key), key, k);
    }
  }

  /** No element has a larger key than the first element of the sorted sequence. */
  lemma SortDescHeadIsMax<T>(xs: seq<T>, key: T -> real)
    requires |xs| > 0
    ensures forall j :: 0 <= j < |xs| ==> key(xs[j]) <= key(SortDesc(xs, key)[0])
  {
    var r := SortDesc(xs, key);
    forall j | 0 <= j < |xs| ensures key(xs[j]) <= key(r[0]) {
      assert xs[j] in multiset(r);
      var m :| 0 <= m < |r| && r[m] == xs[j];
      assert m == 0 || key(r[0]) >= key(r[m]);
    }
  }

  /** The head of the sort: the first element, unless the sorted rest starts with a larger key. */
  lemma SortDescHead<T>(xs: seq<T>, key: T -> real)
    requires |xs| > 0
    ensures var t := SortDesc(xs[1..], key);
      SortDesc(xs, key)[0] == if t == [] || key(t[0]) <= key(xs[0]) then xs[0] else t[0]
  {
    assert SortDesc(xs, key) == Insert(xs[0], SortDesc(xs[1..], key), key);
  }

  /**
   * The first element of the sorted sequence is the first element of `xs` whose
   * key is maximal: no element has a larger key, and every earlier one a smaller key.
   */
  lemma {:induction false} SortDescHeadIsFirstMax<T>(xs: seq<T>, key: T -> real) returns (i: nat)
    requires |xs| > 0
    ensures i < |xs| && SortDesc(xs, key)[0] == xs[i]
    ensures forall j :: 0 <= j < |xs| ==> key(xs[j]) <= key(xs[i])
    ensures forall j :: 0 <= j < i ==> key(xs[j]) < key(xs[i])
  {
    SortDescHeadIsMax(xs, key);
    var t := SortDesc(xs[1..], key);
    SortDescHead(xs, key);
    if t == [] || key(t[0]) <= key(xs[0]) {
      i := 0;
    } else {
      var i' := SortDescHeadIsFirstMax(xs[1..], key);
      i := i' + 1;
      assert xs[1..][i'] == xs[i];
      forall j | 0 < j < i ensures key(xs[j]) < key(xs[i]) {
        assert xs[j] == xs[1..][j - 1];
      }
    }
  }
}
