/** Vocabulary shared by every component: optional values, C pointers, mutexes and finite sums. */
module Prelude {

  datatype Option<+T> = None | Some(value: T)

  /** A `void*`: the containers store pointers and give NULL a meaning of its own. */
  datatype Ptr<+T> = Null | To(value: T)

  /** A mutex, with the number of the thread that holds it. */
  datatype Mutex = Unlocked | HeldBy(thread: nat)

  type Byte = b: int | 0 <= b < 256

  /** The number of values of a 64-bit `size_t` or `uint64_t`. */
  const WIDTH: nat := 0x1_0000_0000_0000_0000

  /** A sequence without its `i`-th element. */
  function Without<T>(s: seq<T>, i: nat): seq<T>
    requires i < |s|
  {
    s[..i] + s[i + 1..]
  }

  /** The sum of `f` over the first `n` elements. */
  ghost function SumTo<T>(s: seq<T>, f: T -> int, n: nat): int
    requires n <= |s|
  {
    if n == 0 then 0 else SumTo(s, f, n - 1) + f(s[n - 1])
  }

  /** The sum of `f` over a sequence. */
  ghost function Sum<T>(s: seq<T>, f: T -> int): int {
    SumTo(s, f, |s|)
  }

  lemma {:induction false} SumToSame<T>(s: seq<T>, r: seq<T>, f: T -> int, n: nat)
    requires n <= |s| && n <= |r|
    requires forall i :: 0 <= i < n ==> f(s[i]) == f(r[i])
    ensures SumTo(s, f, n) == SumTo(r, f, n)
  {
    if n > 0 {
      SumToSame(s, r, f, n - 1);
    }
  }

  lemma SumSame<T>(s: seq<T>, r: seq<T>, f: T -> int)
    requires |s| == |r|
    requires forall i :: 0 <= i < |s| ==> f(s[i]) == f(r[i])
    ensures Sum(s, f) == Sum(r, f)
  {
    SumToSame(s, r, f, |s|);
  }

  lemma {:induction false} SumToUpdate<T>(s: seq<T>, i: nat, x: T, f: T -> int, n: nat)
    requires i < n <= |s|
    ensures SumTo(s[i := x], f, n) == SumTo(s, f, n) - f(s[i]) + f(x)
  {
    if i == n - 1 {
      SumToSame(s, s[i := x], f, n - 1);
    } else {
      SumToUpdate(s, i, x, f, n - 1);
    }
  }

  lemma SumUpdate<T>(s: seq<T>, i: nat, x: T, f: T -> int)
    requires i < |s|
    ensures Sum(s[i := x], f) == Sum(s, f) - f(s[i]) + f(x)
  {
    SumToUpdate(s, i, x, f, |s|);
  }

  lemma {:induction false} SumToZero<T>(s: seq<T>, f: T -> int, n: nat)
    requires n <= |s|
    requires forall i :: 0 <= i < n ==> f(s[i]) == 0
    ensures SumTo(s, f, n) == 0
  {
    if n > 0 {
      SumToZero(s, f, n - 1);
    }
  }

  /** A sum of non-negative terms is non-negative and at least each of them. */
  lemma {:induction false} SumToBounds<T>(s: seq<T>, f: T -> int, n: nat)
    requires n <= |s|
    requires forall k :: 0 <= k < n ==> f(s[k]) >= 0
    ensures SumTo(s, f, n) >= 0
    ensures forall i :: 0 <= i < n ==> SumTo(s, f, n) >= f(s[i])
  {
    if n > 0 {
      SumToBounds(s, f, n - 1);
    }
  }

  /** A positive sum of non-negative terms has a positive term. */
  lemma {:induction false} SumToWitness<T>(s: seq<T>, f: T -> int, n: nat) returns (i: nat)
    requires n <= |s|
    requires SumTo(s, f, n) > 0
    ensures i < n && f(s[i]) > 0
  {
    if f(s[n - 1]) > 0 {
      i := n - 1;
    } else {
      i := SumToWitness(s, f, n - 1);
    }
  }

  lemma {:induction false} SumToBounded<T>(s: seq<T>, f: T -> int, bound: nat, n: nat)
    requires n <= |s|
    requires forall k :: 0 <= k < n ==> f(s[k]) <= bound
    ensures SumTo(s, f, n) <= bound * n
  {
    if n > 0 {
      SumToBounded(s, f, bound, n - 1);
    }
  }
}
