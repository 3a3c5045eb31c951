/**
 * The order in which `Object.keys` and `Object.entries` list the keys of a plain
 * object (the OrdinaryOwnPropertyKeys operation, section 10.1.11.1 of ECMA-262):
 * the array-index keys first, in ascending numeric order, then the other string
 * keys in the order they were added.
 */
module ObjectKeys {
  import opened Text
  import opened Collections
  import opened Sorting

  /** An index key of an object: the numeral of an integer below 2^32 - 1, with no leading zero. */
  predicate IsIndexKey(k: string) {
    |k| > 0 && AllDigits(k) && (|k| == 1 || k[0] != '0') && DigitsValue(k) < 4294967295
  }

  predicate IsNamedKey(k: string) {
    !IsIndexKey(k)
  }

  /** Sorting by this key (descending) puts index keys in ascending numeric order. */
  function IndexOrderKey(k: string): real {
    if IsIndexKey(k) then -(DigitsValue(k) as real) else 0.0
  }

  /**
   * `Object.keys` order: index keys first, in ascending numeric order,
   * then every other key in insertion order.
   */
  function PropertyOrder(keys: seq<string>): (r: seq<string>)
    ensures multiset(r) == multiset(keys)
  {
    FilterSplit(IsIndexKey, IsNamedKey, keys);
    SortDesc(Filter(IsIndexKey, keys), IndexOrderKey) + Filter(IsNamedKey, keys)
  }

  /** Index keys come first, in ascending numeric order. */
  lemma IndexKeysFirstAscending(keys: seq<string>)
    ensures var r := PropertyOrder(keys);
      forall i, j :: 0 <= i < j < |r| && IsIndexKey(r[j]) ==>
        IsIndexKey(r[i]) && DigitsValue(r[i]) <= DigitsValue(r[j])
  {
    var index := SortDesc(Filter(IsIndexKey, keys), IndexOrderKey);
    var named := Filter(IsNamedKey, keys);
    var r := PropertyOrder(keys);
    forall i | 0 <= i < |index| ensures IsIndexKey(index[i]) {
      assert index[i] in multiset(Filter(IsIndexKey, keys));
    }
    forall i, j | 0 <= i < j < |r| && IsIndexKey(r[j])
      ensures IsIndexKey(r[i]) && DigitsValue(r[i]) <= DigitsValue(r[j])
    {
      if j >= |index| {
        assert false;
      }
      assert r[i] == index[i] && r[j] == index[j];
      assert IndexOrderKey(index[i]) >= IndexOrderKey(index[j]);
    }
  }

  /** `Object.keys` lists every key of the table once. */
  lemma PropertyOrderMembers(keys: seq<string>)
    ensures |PropertyOrder(keys)| == |keys|
    ensures forall k :: k in PropertyOrder(keys) <==> k in keys
  {
    var order := PropertyOrder(keys);
    assert |order| == |multiset(order)| == |multiset(keys)| == |keys|;
    forall k ensures k in order <==> k in keys {
      assert k in order <==> k in multiset(order);
      assert k in keys <==> k in multiset(keys);
    }
  }

  /** The keys that are not index keys keep the order in which they were added. */
  lemma NamedKeysKeepOrder(keys: seq<string>)
    ensures Filter(IsNamedKey, PropertyOrder(keys)) == Filter(IsNamedKey, keys)
  {
    var index := SortDesc(Filter(IsIndexKey, keys), IndexOrderKey);
    var named := Filter(IsNamedKey, keys);
    FilterAppend(IsNamedKey, index, named);
    forall i | 0 <= i < |index| ensures !IsNamedKey(index[i]) {
      assert index[i] in multiset(Filter(IsIndexKey, keys));
    }
    FilterAllOrNone(IsNamedKey, index);
    FilterAllOrNone(IsNamedKey, named);
  }
}
