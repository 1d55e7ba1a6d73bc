/** Which byte strings `bytes.decode()` accepts: the well-formed sequences of section 4 of RFC 3629. */
module Utf8 {
  import opened Prelude

  /** A byte that continues a character and never begins one. */
  predicate Continues(b: Byte) {
    0x80 <= b < 0xC0
  }

  /** The length of the character at the front of a string, or 0 when there is none. */
  function CharLength(s: seq<Byte>): (n: nat)
    ensures n <= 4 && n <= |s|
    ensures forall i :: 1 <= i < n ==> Continues(s[i])
    ensures n > 0 ==> !Continues(s[0])
    ensures s != [] && s[0] < 0x80 ==> n == 1
  {
    if s == [] then 0
    else if s[0] < 0x80 then 1
    else if 0xC2 <= s[0] <= 0xDF then if |s| >= 2 && Continues(s[1]) then 2 else 0
    else if 0xE0 <= s[0] <= 0xEF then if |s| >= 3 && Second(s[0], s[1]) && Continues(s[2]) then 3 else 0
    else if 0xF0 <= s[0] <= 0xF4 then
      if |s| >= 4 && Second(s[0], s[1]) && Continues(s[2]) && Continues(s[3]) then 4 else 0
    else 0
  }

  /** The second byte of a long character: no overlong form, no surrogate, nothing beyond U+10FFFF. */
  predicate Second(lead: Byte, b: Byte) {
    && Continues(b)
    && (lead == 0xE0 ==> b >= 0xA0)
    && (lead == 0xED ==> b <= 0x9F)
    && (lead == 0xF0 ==> b >= 0x90)
    && (lead == 0xF4 ==> b <= 0x8F)
  }

  predicate Valid(s: seq<Byte>)
    decreases |s|
  {
    s == [] || (CharLength(s) > 0 && Valid(s[CharLength(s)..]))
  }

  predicate Ascii(s: seq<Byte>) {
    forall i :: 0 <= i < |s| ==> s[i] < 0x80
  }

  /** What follows a character has no say in it. */
  lemma CharLengthPrefix(a: seq<Byte>, b: seq<Byte>)
    requires CharLength(a) > 0
    ensures CharLength(a + b) == CharLength(a)
  {
    assert forall i :: 0 <= i < |a| ==> (a + b)[i] == a[i];
  }

  /** A character does not reach over a byte that begins another one. */
  lemma CharLengthStops(a: seq<Byte>, b: seq<Byte>)
    requires a != [] && (b == [] || !Continues(b[0])) && CharLength(a + b) > 0
    ensures CharLength(a) == CharLength(a + b)
  {
    var n := CharLength(a + b);
    assert forall i :: 0 <= i < |a| ==> (a + b)[i] == a[i];
    assert b != [] ==> (a + b)[|a|] == b[0];
  }

  lemma {:induction false} ValidConcat(a: seq<Byte>, b: seq<Byte>)
    requires Valid(a) && Valid(b)
    ensures Valid(a + b)
    decreases |a|
  {
    if a == [] {
      assert a + b == b;
    } else {
      var n := CharLength(a);
      CharLengthPrefix(a, b);
      assert (a + b)[n..] == a[n..] + b;
      ValidConcat(a[n..], b);
    }
  }

  /** A valid string may be cut before any byte that begins a character. */
  lemma {:induction false} ValidSplit(a: seq<Byte>, b: seq<Byte>)
    requires Valid(a + b) && (b == [] || !Continues(b[0]))
    ensures Valid(a) && Valid(b)
    decreases |a|
  {
    if a == [] {
      assert a + b == b;
    } else {
      CharLengthStops(a, b);
      var n := CharLength(a);
      assert (a + b)[n..] == a[n..] + b;
      ValidSplit(a[n..], b);
    }
  }

  lemma {:induction false} AsciiValid(s: seq<Byte>)
    requires Ascii(s)
    ensures Valid(s)
  {
    if s != [] {
      AsciiValid(s[1..]);
    }
  }

  // ---- White space -------------------------------------------------------------------------------

  /** One character of white space, as `strip()` knows it. */
  predicate IsWhite(c: seq<Byte>) {
    || (|c| == 1 && (c[0] == 32 || 9 <= c[0] <= 13 || 28 <= c[0] <= 31))
    || (|c| == 2 && c[0] == 0xC2 && (c[1] == 0x85 || c[1] == 0xA0))
    || (|c| == 3 && c[0] == 0xE1 && c[1] == 0x9A && c[2] == 0x80)
    || (|c| == 3 && c[0] == 0xE2 && c[1] == 0x80 && (0x80 <= c[2] <= 0x8A || c[2] == 0xA8 || c[2] == 0xA9 || c[2] == 0xAF))
    || (|c| == 3 && c[0] == 0xE2 && c[1] == 0x81 && c[2] == 0x9F)
    || (|c| == 3 && c[0] == 0xE3 && c[1] == 0x80 && c[2] == 0x80)
  }

  /** How many bytes of white space a string begins with, one character of it. */
  function WhiteFront(s: seq<Byte>): (n: nat)
    ensures n <= |s| && n <= 3 && (n > 0 ==> IsWhite(s[..n]))
  {
    if |s| >= 1 && IsWhite(s[..1]) then 1
    else if |s| >= 2 && IsWhite(s[..2]) then 2
    else if |s| >= 3 && IsWhite(s[..3]) then 3
    else 0
  }

  function WhiteBack(s: seq<Byte>): (n: nat)
    ensures n <= |s| && n <= 3 && (n > 0 ==> IsWhite(s[|s| - n..]))
  {
    if |s| >= 1 && IsWhite(s[|s| - 1..]) then 1
    else if |s| >= 2 && IsWhite(s[|s| - 2..]) then 2
    else if |s| >= 3 && IsWhite(s[|s| - 3..]) then 3
    else 0
  }

  /** `strip()`. */
  function Strip(s: seq<Byte>): seq<Byte>
    decreases |s|
  {
    if WhiteFront(s) > 0 then Strip(s[WhiteFront(s)..])
    else if WhiteBack(s) > 0 then Strip(s[..|s| - WhiteBack(s)])
    else s
  }

  lemma BlackFront(s: seq<Byte>)
    requires s != [] && 33 <= s[0] < 0x80
    ensures WhiteFront(s) == 0
  {
  }

  lemma BlackBack(s: seq<Byte>)
    requires s != [] && 33 <= s[|s| - 1] < 0x80
    ensures WhiteBack(s) == 0
  {
  }

  /** A string that neither begins nor ends with white space stays as it is. */
  lemma StripNothing(s: seq<Byte>)
    requires s != [] && 33 <= s[0] < 0x80 && 33 <= s[|s| - 1] < 0x80
    ensures Strip(s) == s
  {
    BlackFront(s);
    BlackBack(s);
  }

  /** What is left is a part of the string, and as valid as the whole. */
  lemma {:induction false} StripPart(s: seq<Byte>)
    ensures forall b :: b in Strip(s) ==> b in s
    ensures Valid(s) ==> Valid(Strip(s))
    decreases |s|
  {
    var n, m := WhiteFront(s), WhiteBack(s);
    if n > 0 {
      StripPart(s[n..]);
      WhiteIsValid(s[..n]);
      if Valid(s) {
        assert s == s[..n] + s[n..];
        CharLengthPrefix(s[..n], s[n..]);
      }
    } else if m > 0 {
      StripPart(s[..|s| - m]);
      if Valid(s) {
        assert s == s[..|s| - m] + s[|s| - m..];
        ValidSplit(s[..|s| - m], s[|s| - m..]);
      }
    }
  }

  lemma WhiteIsValid(c: seq<Byte>)
    requires IsWhite(c)
    ensures CharLength(c) == |c|
  {
  }
}
