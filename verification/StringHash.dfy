/** `_string_hash` of src/message_broker.c: the loop computes a polynomial in 33, modulo the width of `size_t`. */
module StringHash {
  import opened Prelude

  const SEED: nat := 5381

  function Pow33(n: nat): nat {
    if n == 0 then 1 else 33 * Pow33(n - 1)
  }

  /** The sum of `s[i] * 33^(|s| - 1 - i)`, over the integers. */
  function Digits(s: seq<Byte>): nat {
    if s == [] then 0 else s[0] * Pow33(|s| - 1) + Digits(s[1..])
  }

  /** What the hash means: no wrap-around until the end. */
  function Hash(s: seq<Byte>): nat {
    (SEED * Pow33(|s|) + Digits(s)) % WIDTH
  }

  /** A left shift by `k` of a `size_t`: the bits shifted out are lost. */
  function ShiftLeft5(x: nat): nat {
    (x * 32) % WIDTH
  }

  lemma {:induction false} DigitsAppend(s: seq<Byte>, b: Byte)
    ensures Digits(s + [b]) == 33 * Digits(s) + b
  {
    if s == [] {
      assert ([b])[1..] == [];
    } else {
      assert (s + [b])[1..] == s[1..] + [b];
      DigitsAppend(s[1..], b);
      Regroup(s[0], Pow33(|s| - 1), Digits(s[1..]), b);
    }
  }

  lemma Regroup(d: nat, p: nat, rest: nat, b: nat)
    ensures d * (33 * p) + (33 * rest + b) == 33 * (d * p + rest) + b
  {
  }

  /** Reducing early and at every step gives the same remainder. */
  lemma StepModulo(x: nat, b: nat)
    ensures ((ShiftLeft5(x % WIDTH) + x % WIDTH) % WIDTH + b) % WIDTH == (33 * x + b) % WIDTH
  {
    var r, q := x % WIDTH, x / WIDTH;
    assert x == WIDTH * q + r;
    var q1 := r * 32 / WIDTH;
    assert ShiftLeft5(r) == r * 32 - WIDTH * q1;
    var y := ShiftLeft5(r) + r;
    var q2 := y / WIDTH;
    assert y % WIDTH == y - WIDTH * q2;
    Multiple(33 * x + b, 33 * q + q1 + q2, y % WIDTH + b);
  }

  lemma Multiple(x: nat, k: nat, y: nat)
    requires x == y + WIDTH * k
    ensures x % WIDTH == y % WIDTH
  {
    var q, r := y / WIDTH, y % WIDTH;
    assert x == WIDTH * (q + k) + r;
  }

  /** The hash of one more byte, from the hash so far. */
  lemma HashAppend(s: seq<Byte>, b: Byte)
    ensures Hash(s + [b]) == ((ShiftLeft5(Hash(s)) + Hash(s)) % WIDTH + b) % WIDTH
  {
    DigitsAppend(s, b);
    var x := SEED * Pow33(|s|) + Digits(s);
    assert Pow33(|s| + 1) == 33 * Pow33(|s|);
    assert SEED * Pow33(|s| + 1) + Digits(s + [b]) == 33 * x + b;
    StepModulo(x, b);
  }

  /** The C string `key` is terminated by its first zero byte. */
  method StringHash(key: array<Byte>) returns (hash: nat)
    requires exists n :: 0 <= n < key.Length && key[n] == 0
    ensures exists n :: 0 <= n < key.Length && key[n] == 0 && 0 !in key[..n] && hash == Hash(key[..n])
  {
    hash := SEED;
    var p := 0;
    assert key[..0] == [];
    while key[p] != 0
      invariant 0 <= p < key.Length && 0 !in key[..p]
      invariant exists n :: p <= n < key.Length && key[n] == 0
      invariant hash == Hash(key[..p])
      decreases key.Length - p
    {
      HashAppend(key[..p], key[p]);
      assert key[..p + 1] == key[..p] + [key[p]];
      hash := ((ShiftLeft5(hash) + hash) % WIDTH + key[p]) % WIDTH;
      p := p + 1;
    }
  }
}
