/**
 * The persistent unordered map that backs `luggageRecords`
 * (a `PersistentUnorderedMap<string, LuggageItem>` in the contract).
 * Persistence is abstracted away: the map is a value-semantics table from
 * key to serialised value, plus the vector of keys it enumerates `values()`
 * from. Every stored value is a copy, so mutating an object after `set` or
 * after `get` never changes what is stored.
 */
module Store {
  import opened Wrappers

  /** No key occurs twice in `s`. */
  predicate Distinct<K(==)>(s: seq<K>) {
    forall i, j :: 0 <= i < j < |s| ==> s[i] != s[j]
  }

  /** `s` with every occurrence of `x` taken out, keeping the order of the rest. */
  function Without<K(==,!new)>(s: seq<K>, x: K): (r: seq<K>)
    ensures forall y :: y in r <==> y in s && y != x
    ensures x !in s ==> r == s
    ensures Distinct(s) ==> Distinct(r)
    ensures Distinct(s) && x in s ==> |r| == |s| - 1
  {
    if s == [] then []
    else if s[0] == x then Without(s[1..], x)
    else
      var rest := Without(s[1..], x);
      assert Distinct(s) ==> Distinct(s[1..]) && s[0] !in rest;
      [s[0]] + rest
  }

  /** A sequence without repetitions has as many elements as the set of its elements. */
  lemma {:induction false} DistinctCardinality<K>(s: seq<K>)
    requires Distinct(s)
    ensures |set k | k in s| == |s|
  {
    if s != [] {
      DistinctCardinality(s[1..]);
      assert (set k | k in s) == {s[0]} + (set k | k in s[1..]);
      assert s[0] !in (set k | k in s[1..]);
    }
  }

  class UnorderedMap<K(==,!new), V(==)> {
    /** What is stored: one value per key. */
    var records: map<K, V>
    /** The keys in the order `values()` enumerates them. */
    var keys: seq<K>

    /** The key vector lists every stored key exactly once. */
    ghost predicate Valid()
      reads this
    {
      Distinct(keys) && forall k :: k in records <==> k in keys
    }

    constructor ()
      ensures Valid()
      ensures records == map[] && keys == []
    {
      records := map[];
      keys := [];
    }

    /** `contains(key)`. */
    method Contains(key: K) returns (found: bool)
      ensures found <==> key in records
    {
      found := key in records;
    }

    /** `get(key)`: absence is a distinguishable result, never a default value. */
    method Get(key: K) returns (result: Option<V>)
      ensures result.None? <==> key !in records
      ensures result.Some? ==> key in records && result.value == records[key]
    {
      if key in records {
        result := Some(records[key]);
      } else {
        result := None;
      }
    }

    /** `set(key, value)`: insert or overwrite; a new key goes to the end of the key vector. */
    method Set(key: K, value: V)
      requires Valid()
      modifies this
      ensures Valid()
      ensures records == old(records)[key := value]
      ensures keys == if key in old(records) then old(keys) else old(keys) + [key]
    {
      if key !in records {
        keys := keys + [key];
      }
      records := records[key := value];
    }

    /** `delete(key)`: removes the entry; a missing key is not an error. */
    method Delete(key: K)
      requires Valid()
      modifies this
      ensures Valid()
      ensures records == old(records) - {key}
      ensures keys == Without(old(keys), key)
    {
      records := records - {key};
      keys := Without(keys, key);
    }

    /** `length`: the number of stored entries, read off the key vector. */
    method Length() returns (n: nat)
      requires Valid()
      ensures n == |records|
    {
      n := |keys|;
      KeysCount();
    }

    /** `values()`: one stored value per key, in key-vector order. */
    method Values() returns (items: seq<V>)
      requires Valid()
      ensures |items| == |keys| == |records|
      ensures forall i :: 0 <= i < |items| ==> keys[i] in records && items[i] == records[keys[i]]
      ensures forall k :: k in records ==> records[k] in items
    {
      items := [];
      var i := 0;
      while i < |keys|
        invariant 0 <= i <= |keys|
        invariant |items| == i
        invariant forall j :: 0 <= j < i ==> items[j] == records[keys[j]]
      {
        items := items + [records[keys[i]]];
        i := i + 1;
      }
      KeysCount();
      forall k | k in records
        ensures records[k] in items
      {
        var j :| 0 <= j < |keys| && keys[j] == k;
        assert items[j] == records[k];
      }
    }

    /** `clear()`: removes every entry. */
    method Clear()
      modifies this
      ensures Valid()
      ensures records == map[] && keys == []
    {
      records := map[];
      keys := [];
    }

    /** The key vector is exactly as long as the map has entries. */
    lemma KeysCount()
      requires Valid()
      ensures |keys| == |records|
    {
      assert records.Keys == set k | k in keys;
      DistinctCardinality(keys);
    }
  }
}
