/**
  The hash table as one thread uses it: an array of bucket lists changed in place. The contract of every
  call speaks of stacks of values per key, for any hash function and any capacity.
 */
module HashTable {
  import opened Prelude
  import opened TableSpec

  class Table<K(!new), V> {
    const config: Config<K>
    const buckets: array<seq<Pair<K, V>>>
    var size: int

    ghost predicate Valid()
      reads this, buckets
    {
      && config.Valid()
      && buckets.Length == config.capacity
      && size == Sum(buckets[..], Length)
      && forall b, j :: 0 <= b < buckets.Length && 0 <= j < |buckets[b]| ==> config.IndexOf(buckets[b][j].key) == b
    }

    /** The values stored under a key, newest first. */
    ghost function Stack(key: K): seq<Ptr<V>>
      reads this, buckets
      requires Valid()
    {
      StackOf(config, buckets[config.IndexOf(key)], key)
    }

    constructor (config: Config<K>)
      requires config.Valid()
      ensures Valid() && fresh(buckets) && this.config == config && size == 0
      ensures forall key :: Stack(key) == []
    {
      this.config := config;
      buckets := new seq<Pair<K, V>>[config.capacity](_ => []);
      size := 0;
      new;
      SumToZero(buckets[..], Length, buckets.Length);
    }

    method Insert(key: K, value: Ptr<V>) returns (code: int)
      requires Valid()
      modifies this`size, buckets
      ensures Valid() && code == 0 && size == old(size) + 1
      ensures forall k :: Stack(k) == if config.same(k, key) then [value] + old(Stack(k)) else old(Stack(k))
    {
      var b := config.IndexOf(key);
      ghost var was, wasAll := buckets[b], buckets[..];
      buckets[b] := [Pair(key, value)] + buckets[b];
      size := size + 1;
      assert buckets[..] == wasAll[b := buckets[b]];
      SumUpdate(wasAll, b, buckets[b], Length);
      assert buckets[b][1..] == was;
      code := 0;
    }

    method IsEmpty() returns (code: int)
      requires Valid()
      ensures code == 1 <==> forall key :: Stack(key) == []
      ensures code == 0 || code == 1
    {
      SumToBounds(buckets[..], Length, buckets.Length);
      if size == 0 {
        forall key ensures Stack(key) == [] {
          assert Length(buckets[..][config.IndexOf(key)]) == 0;
        }
        return 1;
      }
      ghost var b := SumToWitness(buckets[..], Length, buckets.Length);
      assert Stack(buckets[b][0].key) != [];
      return 0;
    }

    /** The search loop of `get`, `delete` and `contains`: the first pair of the key's bucket that matches. */
    method Find(key: K) returns (i: nat)
      requires Valid()
      ensures i <= |buckets[config.IndexOf(key)]|
      ensures forall j :: 0 <= j < i ==> !config.same(key, buckets[config.IndexOf(key)][j].key)
      ensures i < |buckets[config.IndexOf(key)]| ==> config.same(key, buckets[config.IndexOf(key)][i].key)
    {
      var b := config.IndexOf(key);
      i := 0;
      while i < |buckets[b]| && !config.same(key, buckets[b][i].key)
        invariant i <= |buckets[b]|
        invariant forall j :: 0 <= j < i ==> !config.same(key, buckets[b][j].key)
      {
        i := i + 1;
      }
    }

    method Get(key: K) returns (code: int, out: Ptr<V>)
      requires Valid()
      ensures Stack(key) != [] ==> code == 0 && out == Stack(key)[0]
      ensures Stack(key) == [] ==> code == 1 && out == Null
    {
      var i := Find(key);
      var b := config.IndexOf(key);
      if i < |buckets[b]| {
        FirstMatch(config, buckets[b], key, i, key);
        return 0, buckets[b][i].value;
      }
      NoMatch(config, buckets[b], key, key);
      return 1, Null;
    }

    method Delete(key: K) returns (code: int)
      requires Valid()
      modifies this`size, buckets
      ensures Valid()
      ensures if old(Stack(key)) != [] then code == 0 && size == old(size) - 1 else code == 1 && size == old(size)
      ensures forall k :: Stack(k) == if config.same(k, key) then Pop(old(Stack(k))) else old(Stack(k))
    {
      var i := Find(key);
      var b := config.IndexOf(key);
      if i == |buckets[b]| {
        forall k | config.same(k, key) {
          NoMatch(config, buckets[b], key, k);
        }
        return 1;
      }
      ghost var wasAll := buckets[..];
      forall k {
        FirstMatch(config, buckets[b], key, i, k);
      }
      buckets[b] := Without(buckets[b], i);
      size := size - 1;
      assert buckets[..] == wasAll[b := buckets[b]];
      SumUpdate(wasAll, b, buckets[b], Length);
      code := 0;
    }

    method Contains(key: K) returns (code: int)
      requires Valid()
      ensures code == if Stack(key) != [] then 0 else 1
    {
      var i := Find(key);
      var b := config.IndexOf(key);
      if i < |buckets[b]| {
        FirstMatch(config, buckets[b], key, i, key);
        return 0;
      }
      NoMatch(config, buckets[b], key, key);
      return 1;
    }
  }
}
