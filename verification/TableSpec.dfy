/**
  What the hash table means: for every key a stack of values, newest first. The table never replaces
  a key; a bucket keeps the pairs of all its keys in one list, newest first, and the stack of a key is
  what the search loops of `get`, `delete` and `contains` find in that list.
 */
module TableSpec {
  import opened Prelude

  datatype Pair<+K, +V> = Pair(key: K, value: Ptr<V>)

  /** The user-supplied hash and key comparison (`true` where the C function answers 0), and the number of buckets. */
  datatype Config<!K(!new)> = Config(hash: K -> nat, same: (K, K) -> bool, capacity: nat) {
    /** Comparison is an equivalence that the hash respects. */
    ghost predicate Valid() {
      && capacity > 0
      && (forall k :: same(k, k))
      && (forall k, m :: same(k, m) ==> same(m, k) && hash(k) == hash(m))
      && (forall k, m, n :: same(k, m) && same(m, n) ==> same(k, n))
    }

    function IndexOf(key: K): (i: nat)
      requires capacity > 0
      ensures i < capacity
    {
      hash(key) % capacity
    }
  }

  datatype Op<+K, +V> = Insert(key: K, value: Ptr<V>) | Get(key: K) | Delete(key: K) | Contains(key: K)

  /** A call's return code and, for `get`, what it stores through `out_value`. */
  datatype Outcome<+V> = Outcome(code: int, out: Ptr<V>)

  /** What a call on a key answers when the key has this stack. */
  function Answer<K, V>(op: Op<K, V>, stack: seq<Ptr<V>>): Outcome<V> {
    match op
    case Insert(_, _) => Outcome(0, Null)
    case Get(_) => if stack == [] then Outcome(1, Null) else Outcome(0, stack[0])
    case Delete(_) => Outcome(if stack == [] then 1 else 0, Null)
    case Contains(_) => Outcome(if stack == [] then 1 else 0, Null)
  }

  function Pop<V>(stack: seq<V>): seq<V> {
    if stack == [] then [] else stack[1..]
  }

  /** The stack of a key after a call on that key. */
  function After<K, V>(op: Op<K, V>, stack: seq<Ptr<V>>): seq<Ptr<V>> {
    match op
    case Insert(_, value) => [value] + stack
    case Delete(_) => Pop(stack)
    case _ => stack
  }

  function Length<K, V>(bucket: seq<Pair<K, V>>): int {
    |bucket|
  }

  /** The values a bucket holds for a key, newest first. */
  ghost function StackOf<K(!new), V>(c: Config<K>, bucket: seq<Pair<K, V>>, key: K): seq<Ptr<V>> {
    if bucket == [] then []
    else (if c.same(key, bucket[0].key) then [bucket[0].value] else []) + StackOf(c, bucket[1..], key)
  }

  lemma {:induction false} StackOfConcat<K(!new), V>(c: Config<K>, a: seq<Pair<K, V>>, b: seq<Pair<K, V>>, key: K)
    ensures StackOf(c, a + b, key) == StackOf(c, a, key) + StackOf(c, b, key)
  {
    if a == [] {
      assert a + b == b;
    } else {
      assert (a + b)[1..] == a[1..] + b;
      StackOfConcat(c, a[1..], b, key);
    }
  }

  /** A search that met no match in a bucket met an empty stack, for the key and for every equal key. */
  lemma {:induction false} NoMatch<K(!new), V>(c: Config<K>, bucket: seq<Pair<K, V>>, key: K, other: K)
    requires c.Valid() && c.same(other, key)
    requires forall j :: 0 <= j < |bucket| ==> !c.same(key, bucket[j].key)
    ensures StackOf(c, bucket, other) == []
  {
    if bucket != [] {
      assert c.same(key, other);
      assert !c.same(other, bucket[0].key);
      forall j | 0 <= j < |bucket[1..]| ensures !c.same(key, bucket[1..][j].key) {
        assert bucket[1..][j] == bucket[j + 1];
      }
      NoMatch(c, bucket[1..], key, other);
    }
  }

  /** The first match is the top of the stack; taking it out pops the key and no other key. */
  lemma FirstMatch<K(!new), V>(c: Config<K>, bucket: seq<Pair<K, V>>, key: K, i: nat, other: K)
    requires c.Valid() && i < |bucket| && c.same(key, bucket[i].key)
    requires forall j :: 0 <= j < i ==> !c.same(key, bucket[j].key)
    ensures StackOf(c, bucket, key) != [] && StackOf(c, bucket, key)[0] == bucket[i].value
    ensures c.same(other, key) ==>
      && StackOf(c, bucket, other) != []
      && StackOf(c, Without(bucket, i), other) == StackOf(c, bucket, other)[1..]
    ensures !c.same(other, key) ==>
      StackOf(c, Without(bucket, i), other) == StackOf(c, bucket, other)
  {
    Split(c, bucket, key, i);
    Split(c, bucket, other, i);
    NoMatch(c, bucket[..i], key, key);
    StackOfConcat(c, bucket[..i], bucket[i + 1..], other);
    if c.same(other, key) {
      assert c.same(key, other);
      NoMatch(c, bucket[..i], key, other);
    }
  }

  lemma Split<K(!new), V>(c: Config<K>, bucket: seq<Pair<K, V>>, key: K, i: nat)
    requires i < |bucket|
    ensures StackOf(c, bucket, key) ==
      StackOf(c, bucket[..i], key) + (if c.same(key, bucket[i].key) then [bucket[i].value] else [])
      + StackOf(c, bucket[i + 1..], key)
  {
    assert bucket == bucket[..i] + bucket[i..];
    assert bucket[i..][0] == bucket[i] && bucket[i..][1..] == bucket[i + 1..];
    StackOfConcat(c, bucket[..i], bucket[i..], key);
  }
}
