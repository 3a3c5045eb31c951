/**
 * Sequence helpers with the meaning of the JavaScript array methods the program
 * uses: `map`, `slice(0, n)`, `[...new Set(xs)]`, and counting occurrences.
 */
module Collections {

  /** `xs.map(f)`. */
  function Map<A, B>(f: A -> B, xs: seq<A>): (r: seq<B>)
    ensures |r| == |xs|
    ensures forall i :: 0 <= i < |xs| ==> r[i] == f(xs[i])
  {
    seq(|xs|, i requires 0 <= i < |xs| => f(xs[i]))
  }

  lemma MapAppend<A, B>(f: A -> B, a: seq<A>, b: seq<A>)
    ensures Map(f, a + b) == Map(f, a) + Map(f, b)
  {
  }

  /** Mapping two rearrangements of the same elements gives rearrangements of the same images. */
  lemma {:induction false} MapPermutation<A, B>(f: A -> B, a: seq<A>, b: seq<A>)
    requires multiset(a) == multiset(b)
    ensures multiset(Map(f, a)) == multiset(Map(f, b))
    decreases |a|
  {
    if a != [] {
      assert a[0] in multiset(b);
      var i :| 0 <= i < |b| && b[i] == a[0];
      var rest := b[..i] + b[i + 1..];
      assert b == b[..i] + [b[i]] + b[i + 1..];
      assert a == [a[0]] + a[1..];
      calc {
        multiset(a[1..]) + multiset{a[0]};
        multiset(a);
        multiset(b);
        multiset(b[..i]) + multiset{b[i]} + multiset(b[i + 1..]);
        { assert multiset(rest) == multiset(b[..i]) + multiset(b[i + 1..]); }
        multiset(rest) + multiset{a[0]};
      }
      assert multiset(a[1..]) == multiset(a) - multiset{a[0]};
      assert multiset(rest) == multiset(b) - multiset{b[i]};
      MapPermutation(f, a[1..], rest);
      MapAppend(f, [a[0]], a[1..]);
      MapAppend(f, b[..i], [b[i]]);
      MapAppend(f, b[..i] + [b[i]], b[i + 1..]);
      MapAppend(f, b[..i], b[i + 1..]);
    }
  }

  /** `xs.filter(p)`. */
  function Filter<T>(p: T -> bool, xs: seq<T>): (r: seq<T>)
    ensures |r| <= |xs|
    ensures forall i :: 0 <= i < |r| ==> p(r[i]) && r[i] in xs
    ensures forall i :: 0 <= i < |xs| && p(xs[i]) ==> xs[i] in r
  {
    if xs == [] then []
    else (if p(xs[0]) then [xs[0]] else []) + Filter(p, xs[1..])
  }

  lemma {:induction false} FilterSnoc<T>(p: T -> bool, xs: seq<T>, x: T)
    ensures Filter(p, xs + [x]) == Filter(p, xs) + (if p(x) then [x] else [])
  {
    if xs != [] {
      assert (xs + [x])[1..] == xs[1..] + [x];
      FilterSnoc(p, xs[1..], x);
    }
  }

  lemma {:induction false} FilterAppend<T>(p: T -> bool, a: seq<T>, b: seq<T>)
    ensures Filter(p, a + b) == Filter(p, a) + Filter(p, b)
  {
    if a != [] {
      assert (a + b)[0] == a[0];
      assert (a + b)[1..] == a[1..] + b;
      FilterAppend(p, a[1..], b);
    } else {
      assert a + b == b;
    }
  }

  /** Filtering keeps a sequence whose elements all pass, and empties one whose elements all fail. */
  lemma {:induction false} FilterAllOrNone<T>(p: T -> bool, xs: seq<T>)
    ensures (forall i :: 0 <= i < |xs| ==> p(xs[i])) ==> Filter(p, xs) == xs
    ensures (forall i :: 0 <= i < |xs| ==> !p(xs[i])) ==> Filter(p, xs) == []
  {
    if xs != [] {
      FilterAllOrNone(p, xs[1..]);
      assert forall i :: 1 <= i < |xs| ==> xs[1..][i - 1] == xs[i];
    }
  }

  /** Filtering a sequence without duplicates leaves none. */
  lemma {:induction false} FilterNoDuplicates<T>(p: T -> bool, xs: seq<T>)
    requires NoDuplicates(xs)
    ensures NoDuplicates(Filter(p, xs))
  {
    if xs != [] {
      FilterNoDuplicates(p, xs[1..]);
      var rest := Filter(p, xs[1..]);
      if p(xs[0]) {
        assert xs[0] !in xs[1..];
        assert xs[0] !in rest;
        assert Filter(p, xs) == [xs[0]] + rest;
      }
    }
  }

  /** Filtering keeps order: two kept elements appear in the result in their order in `xs`. */
  lemma FilterOrder<T>(p: T -> bool, xs: seq<T>, a: nat, b: nat) returns (i: nat, j: nat)
    requires a < b < |xs| && p(xs[a]) && p(xs[b])
    ensures i < j < |Filter(p, xs)|
    ensures Filter(p, xs)[i] == xs[a] && Filter(p, xs)[j] == xs[b]
  {
    var front := Filter(p, xs[..b]);
    FilterAppend(p, xs[..b], xs[b..]);
    assert xs[..b] + xs[b..] == xs;
    assert xs[b..] == [xs[b]] + xs[b + 1..];
    assert xs[..b][a] == xs[a];
    i :| 0 <= i < |front| && front[i] == xs[a];
    j := |front|;
    assert Filter(p, xs) == front + ([xs[b]] + Filter(p, xs[b + 1..]));
  }

  /** A kept element sits in the result at the number of kept elements before it. */
  lemma FilterPosition<T>(p: T -> bool, xs: seq<T>, j: nat)
    requires j < |xs| && p(xs[j])
    ensures |Filter(p, xs[..j])| < |Filter(p, xs)|
    ensures Filter(p, xs)[|Filter(p, xs[..j])|] == xs[j]
  {
    assert xs == xs[..j] + xs[j..];
    assert xs[j..] == [xs[j]] + xs[j + 1..];
    FilterAppend(p, xs[..j], xs[j..]);
  }

  /** More kept elements precede a later position. */
  lemma FilterPrefixGrows<T>(p: T -> bool, xs: seq<T>, j: nat, i: nat)
    requires j < i <= |xs| && p(xs[j])
    ensures |Filter(p, xs[..j])| < |Filter(p, xs[..i])|
  {
    assert xs[..i] == xs[..j] + xs[j..i];
    FilterAppend(p, xs[..j], xs[j..i]);
    assert xs[j..i] == [xs[j]] + xs[j + 1..i];
  }

  /** Every element of the result is a kept element of `xs`, preceded by exactly the kept elements before it. */
  lemma {:induction false} FilterIndex<T>(p: T -> bool, xs: seq<T>, k: nat) returns (i: nat)
    requires k < |Filter(p, xs)|
    ensures i < |xs| && p(xs[i]) && Filter(p, xs)[k] == xs[i]
    ensures |Filter(p, xs[..i])| == k
  {
    if p(xs[0]) && k == 0 {
      i := 0;
      assert xs[..0] == [];
    } else {
      var k' := if p(xs[0]) then k - 1 else k;
      var i' := FilterIndex(p, xs[1..], k');
      i := i' + 1;
      assert xs[..i][1..] == xs[1..][..i'];
      assert xs[..i][0] == xs[0];
    }
  }

  /** Splitting by a predicate and its negation keeps every element exactly once. */
  lemma {:induction false} FilterSplit<T>(p: T -> bool, q: T -> bool, xs: seq<T>)
    requires forall x :: q(x) == !p(x)
    ensures multiset(Filter(p, xs)) + multiset(Filter(q, xs)) == multiset(xs)
  {
    if xs != [] {
      FilterSplit(p, q, xs[1..]);
      var x := xs[0];
      assert multiset(xs) == multiset{x} + multiset(xs[1..]) by {
        assert xs == [x] + xs[1..];
      }
      if p(x) {
        assert Filter(p, xs) == [x] + Filter(p, xs[1..]);
        assert multiset(Filter(p, xs)) == multiset{x} + multiset(Filter(p, xs[1..]));
        assert Filter(q, xs) == Filter(q, xs[1..]);
      } else {
        assert Filter(p, xs) == Filter(p, xs[1..]);
        assert Filter(q, xs) == [x] + Filter(q, xs[1..]);
        assert multiset(Filter(q, xs)) == multiset{x} + multiset(Filter(q, xs[1..]));
      }
    }
  }

  /** `xs.slice(0, n)`: the first min(n, |xs|) elements. */
  function Take<T>(xs: seq<T>, n: nat): (r: seq<T>)
    ensures |r| == if n < |xs| then n else |xs|
    ensures r == xs[..|r|]
  {
    if n < |xs| then xs[..n] else xs
  }

  predicate NoDuplicates<T(==)>(xs: seq<T>) {
    forall i, j :: 0 <= i < j < |xs| ==> xs[i] != xs[j]
  }

  /** An element at two positions occurs at least twice. */
  lemma DuplicateCount<T>(xs: seq<T>, i: nat, j: nat)
    requires i < j < |xs| && xs[i] == xs[j]
    ensures multiset(xs)[xs[i]] >= 2
  {
    assert xs == xs[..j] + [xs[j]] + xs[j + 1..];
    assert xs[..j][i] == xs[i];
  }

  lemma {:induction false} NoDuplicatesCount<T>(xs: seq<T>)
    requires NoDuplicates(xs)
    ensures forall x :: multiset(xs)[x] <= 1
  {
    if xs != [] {
      var init := xs[..|xs| - 1];
      assert xs == init + [xs[|xs| - 1]];
      NoDuplicatesCount(init);
      assert xs[|xs| - 1] !in init;
    }
  }

  /** A rearrangement of a sequence without duplicates has none either. */
  lemma NoDuplicatesPermutation<T>(a: seq<T>, b: seq<T>)
    requires multiset(a) == multiset(b) && NoDuplicates(a)
    ensures NoDuplicates(b)
  {
    NoDuplicatesCount(a);
    forall i, j | 0 <= i < j < |b| ensures b[i] != b[j] {
      if b[i] == b[j] {
        DuplicateCount(b, i, j);
        assert false;
      }
    }
  }

  /** `[...new Set(xs)]`: each element once, in order of first occurrence. */
  function Distinct<T(==)>(xs: seq<T>): (r: seq<T>)
    ensures NoDuplicates(r)
    ensures forall i :: 0 <= i < |r| ==> r[i] in xs
    ensures forall i :: 0 <= i < |xs| ==> xs[i] in r
    decreases |xs|
  {
    if xs == [] then []
    else
      var d := Distinct(xs[..|xs| - 1]);
      var last := xs[|xs| - 1];
      assert xs == xs[..|xs| - 1] + [last];
      if last in d then d else d + [last]
  }

  /**
   * `[...new Set(xs)]` lists the elements in order of first occurrence: an
   * element listed before another occurs in `xs` before any occurrence of that other.
   */
  lemma {:induction false} DistinctOrder<T>(xs: seq<T>, i: nat, j: nat, k: nat)
    requires i < j < |Distinct(xs)| && k < |xs| && xs[k] == Distinct(xs)[j]
    ensures Distinct(xs)[i] in xs[..k]
    decreases |xs|
  {
    var init := xs[..|xs| - 1];
    var d := Distinct(init);
    var last := xs[|xs| - 1];
    assert xs == init + [last];
    assert Distinct(xs) == if last in d then d else d + [last];
    if k == |xs| - 1 {
      assert xs[..k] == init;
      assert i < |d| && Distinct(xs)[i] == d[i];
    } else {
      assert xs[k] == init[k] && init[k] in d;
      assert j < |d|;
      assert Distinct(xs)[i] == d[i] && Distinct(xs)[j] == d[j];
      DistinctOrder(init, i, j, k);
      assert xs[..k] == init[..k];
    }
  }

  /** The sum, over `keys`, of the number of occurrences of each key in `xs`. */
  function SumOfCounts<T(==)>(keys: seq<T>, xs: seq<T>): nat {
    if keys == [] then 0 else SumOfCounts(keys[..|keys| - 1], xs) + multiset(xs)[keys[|keys| - 1]]
  }

  lemma {:induction false} SumOfCountsSnoc<T>(keys: seq<T>, xs: seq<T>, x: T)
    requires NoDuplicates(keys)
    ensures SumOfCounts(keys, xs + [x]) == SumOfCounts(keys, xs) + (if x in keys then 1 else 0)
    decreases |keys|
  {
    if keys != [] {
      var init := keys[..|keys| - 1];
      assert keys == init + [keys[|keys| - 1]];
      SumOfCountsSnoc(init, xs, x);
      assert multiset(xs + [x]) == multiset(xs) + multiset{x};
    }
  }

  /** Counting every distinct element of `xs` accounts for each element exactly once. */
  lemma {:induction false} SumOfCountsDistinct<T>(xs: seq<T>)
    ensures SumOfCounts(Distinct(xs), xs) == |xs|
    decreases |xs|
  {
    if xs != [] {
      var init := xs[..|xs| - 1];
      var x := xs[|xs| - 1];
      assert xs == init + [x];
      var d := Distinct(init);
      SumOfCountsDistinct(init);
      SumOfCountsSnoc(d, init, x);
      if x !in d {
        assert x !in init;
        assert multiset(init)[x] == 0;
        assert Distinct(xs) == d + [x];
        assert (d + [x])[..|d|] == d;
        assert multiset(xs) == multiset(init) + multiset{x};
      }
    }
  }

  /**
   * The counting object after `counts[x] = (counts[x] || 0) + 1` for every
   * element of `xs` in turn.
   */
  function Counts<T(==)>(xs: seq<T>): map<T, nat> {
    if xs == [] then map[]
    else
      var c := Counts(xs[..|xs| - 1]);
      var x := xs[|xs| - 1];
      c[x := (if x in c then c[x] else 0) + 1]
  }

  /** The counting object holds exactly the elements of `xs`, each with its number of occurrences. */
  lemma {:induction false} CountsSpec<T>(xs: seq<T>)
    ensures forall x :: x in Counts(xs) <==> x in multiset(xs)
    ensures forall x :: x in Counts(xs) ==> Counts(xs)[x] == multiset(xs)[x]
  {
    if xs != [] {
      var init := xs[..|xs| - 1];
      assert xs == init + [xs[|xs| - 1]];
      CountsSpec(init);
    }
  }

  /**
   * One counting step: the count of `x` goes up by one, and `x` joins the keys,
   * in order of first occurrence, when it was not counted yet.
   */
  lemma TallyStep<T>(xs: seq<T>, x: T)
    ensures Counts(xs + [x]) == Counts(xs)[x := (if x in Counts(xs) then Counts(xs)[x] else 0) + 1]
    ensures Distinct(xs + [x]) == if x in Counts(xs) then Distinct(xs) else Distinct(xs) + [x]
  {
    assert (xs + [x])[..|xs|] == xs;
    CountsSpec(xs);
    assert x in Counts(xs) <==> x in xs;
  }

  /**
   * `counts[x] = (counts[x] || 0) + 1` on a counting object whose keys, in
   * insertion order, are `keys`: the object then counts `xs + [x]`.
   */
  method Tally<T>(ghost xs: seq<T>, keys: seq<T>, counts: map<T, nat>, x: T) returns (keys': seq<T>, counts': map<T, nat>)
    requires keys == Distinct(xs) && counts == Counts(xs)
    ensures keys' == Distinct(xs + [x]) && counts' == Counts(xs + [x])
  {
    TallyStep(xs, x);
    keys' := if x in counts then keys else keys + [x];
    counts' := counts[x := (if x in counts then counts[x] else 0) + 1];
  }

  /** The prefix one longer is the prefix followed by the next element. */
  lemma PrefixSnoc<T>(xs: seq<T>, k: nat)
    requires k < |xs|
    ensures xs[..k + 1] == xs[..k] + [xs[k]]
  {
  }

  /** The sum of the values of `m` at `keys`. */
  function SumAt<T>(keys: seq<T>, m: map<T, nat>): nat
    requires forall k :: k in keys ==> k in m
  {
    if keys == [] then 0 else SumAt(keys[..|keys| - 1], m) + m[keys[|keys| - 1]]
  }

  lemma {:induction false} SumAtCounts<T>(keys: seq<T>, xs: seq<T>)
    requires forall k :: k in keys ==> k in Counts(xs)
    ensures SumAt(keys, Counts(xs)) == SumOfCounts(keys, xs)
  {
    if keys != [] {
      CountsSpec(xs);
      SumAtCounts(keys[..|keys| - 1], xs);
    }
  }

  /** The counts, over the counted elements, add up to the length of `xs`. */
  lemma CountsSum<T>(xs: seq<T>)
    ensures forall k :: k in Distinct(xs) ==> k in Counts(xs)
    ensures SumAt(Distinct(xs), Counts(xs)) == |xs|
  {
    CountsSpec(xs);
    SumAtCounts(Distinct(xs), xs);
    SumOfCountsDistinct(xs);
  }
}
