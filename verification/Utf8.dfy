/**
 The part of UTF-8 decoding and of Unicode simple case folding that the credential sanitizer relies on:
 decoding the last rune of a byte string (RFC 3629, sections 3 and 4) and the folding orbits of the
 ASCII characters (section 3.13 of the Unicode Standard).
 */
module Utf8 {
  type Byte = b: int | 0 <= b < 256
  type Str = seq<Byte>
  type Rune = int

  /** The bytes of an ASCII text. */
  function Ascii(text: string): (s: Str)
    requires forall i | 0 <= i < |text| :: text[i] < 128 as char
    ensures |s| == |text| && forall i | 0 <= i < |text| :: s[i] == text[i] as int
  {
    seq(|text|, i requires 0 <= i < |text| => text[i] as int)
  }

  /** What the decoder answers for bytes that are not a valid encoding. */
  const RUNE_ERROR: Rune := 0xFFFD

  predicate IsTail(b: Byte) {
    0x80 <= b <= 0xBF
  }

  /** The valid encodings of 2, 3 and 4 bytes: the table of section 4 of RFC 3629. */
  predicate ValidTwo(b0: Byte, b1: Byte) {
    0xC2 <= b0 <= 0xDF && IsTail(b1)
  }

  predicate ValidThree(b0: Byte, b1: Byte, b2: Byte) {
    && IsTail(b1) && IsTail(b2)
    && (|| (b0 == 0xE0 && 0xA0 <= b1)
        || 0xE1 <= b0 <= 0xEC
        || (b0 == 0xED && b1 <= 0x9F)
        || 0xEE <= b0 <= 0xEF)
  }

  predicate ValidFour(b0: Byte, b1: Byte, b2: Byte, b3: Byte) {
    && IsTail(b1) && IsTail(b2) && IsTail(b3)
    && (|| (b0 == 0xF0 && 0x90 <= b1)
        || 0xF1 <= b0 <= 0xF3
        || (b0 == 0xF4 && b1 <= 0x8F))
  }

  function DecodeTwo(b0: int, b1: int): Rune {
    (b0 - 0xC0) * 0x40 + (b1 - 0x80)
  }

  function DecodeThree(b0: int, b1: int, b2: int): Rune {
    (b0 - 0xE0) * 0x1000 + (b1 - 0x80) * 0x40 + (b2 - 0x80)
  }

  function DecodeFour(b0: int, b1: int, b2: int, b3: int): Rune {
    (b0 - 0xF0) * 0x40000 + (b1 - 0x80) * 0x1000 + (b2 - 0x80) * 0x40 + (b3 - 0x80)
  }

  /** The last rune of s and the number of bytes it takes: size 0 for the empty string, 1 for an invalid ending. */
  function LastRune(s: Str): (r: (Rune, nat))
    ensures r.1 <= |s|
    ensures r.1 == 0 <==> s == []
    ensures r.1 == 1 ==> r.0 < 0x80 || r.0 == RUNE_ERROR
    ensures r.1 == 2 ==> 0x80 <= r.0 < 0x800
    ensures r.1 == 3 ==> 0x800 <= r.0 < 0x10000
    ensures r.1 > 3 ==> 0x10000 <= r.0
  {
    var n := |s|;
    if n == 0 then (RUNE_ERROR, 0)
    else if s[n - 1] < 0x80 then (s[n - 1], 1)
    else if n >= 2 && ValidTwo(s[n - 2], s[n - 1]) then (DecodeTwo(s[n - 2], s[n - 1]), 2)
    else if n >= 3 && ValidThree(s[n - 3], s[n - 2], s[n - 1]) then (DecodeThree(s[n - 3], s[n - 2], s[n - 1]), 3)
    else if n >= 4 && ValidFour(s[n - 4], s[n - 3], s[n - 2], s[n - 1])
      then (DecodeFour(s[n - 4], s[n - 3], s[n - 2], s[n - 1]), 4)
    else (RUNE_ERROR, 1)
  }

  /** A byte below 0x80 never belongs to a longer encoding: what precedes it does not change the runes after it. */
  lemma LastRuneAfterAscii(a: Str, x: Byte, b: Str)
    requires x < 0x80 && b != []
    ensures LastRune(a + [x] + b) == LastRune(b)
  {
  }

  /** Simple case folding on the orbits of the ASCII characters: those of k and s have a third member. */
  function SimpleFold(r: Rune): Rune {
    if r == 'k' as int then 0x212A            // KELVIN SIGN
    else if r == 0x212A then 'K' as int
    else if r == 's' as int then 0x17F        // LATIN SMALL LETTER LONG S
    else if r == 0x17F then 'S' as int
    else if 'A' as int <= r <= 'Z' as int then r + 32
    else if 'a' as int <= r <= 'z' as int then r - 32
    else r
  }

  /** An ASCII character that is not an upper-case letter. */
  predicate LowerAscii(c: Rune) {
    0 <= c < 0x80 && !('A' as int <= c <= 'Z' as int)
  }

  /** r is in the folding orbit of c; no orbit of an ASCII character has more than three members. */
  predicate SameFold(r: Rune, c: Rune) {
    r == c || r == SimpleFold(c) || r == SimpleFold(SimpleFold(c))
  }

  /** The runes in the folding orbits of the ASCII characters. */
  predicate Foldable(r: Rune) {
    0 <= r < 0x80 || r == 0x17F || r == 0x212A
  }

  lemma SameFoldIsFoldable(r: Rune, c: Rune)
    requires LowerAscii(c) && SameFold(r, c)
    ensures Foldable(r)
  {
  }

  /** The runes that have an encoding. */
  predicate Encodable(r: Rune) {
    0 <= r < 0xD800 || 0xE000 <= r < 0x110000
  }

  /** Section 3 of RFC 3629. */
  function Encode(r: Rune): (e: Str)
    requires Encodable(r)
    ensures 1 <= |e| <= 4
  {
    if r < 0x80 then [r]
    else if r < 0x800 then [0xC0 + r / 64, 0x80 + r % 64]
    else if r < 0x10000 then [0xE0 + r / 4096, 0x80 + r / 64 % 64, 0x80 + r % 64]
    else [0xF0 + r / 262144, 0x80 + r / 4096 % 64, 0x80 + r / 64 % 64, 0x80 + r % 64]
  }

  lemma OneByte(s: Str, r: Rune)
    requires 0 <= r < 0x80
    ensures Encode(r) == [r]
    ensures s != [] && s[|s| - 1] == r ==> LastRune(s) == (r, 1)
  {
  }

  lemma TwoBytes(s: Str, r: Rune)
    requires 0x80 <= r < 0x800
    ensures var b0, b1 := 0xC0 + r / 64, 0x80 + r % 64;
            && Encode(r) == [b0, b1]
            && (|s| >= 2 && s[|s| - 2] == b0 && s[|s| - 1] == b1 ==> LastRune(s) == (r, 2))
  {
    hide ValidThree, ValidFour, DecodeThree, DecodeFour;
  }

  lemma ThreeParts(r: Rune)
    requires 0x800 <= r < 0x10000 && Encodable(r)
    ensures var b0, b1, b2 := 0xE0 + r / 4096, 0x80 + r / 64 % 64, 0x80 + r % 64;
            b0 < 0xF0 && ValidThree(b0, b1, b2) && DecodeThree(b0, b1, b2) == r && !ValidTwo(b1, b2)
  {
    var a := r / 64;
    assert r / 4096 == a / 64;
  }

  lemma ThreeBytes(s: Str, r: Rune)
    requires 0x800 <= r < 0x10000 && Encodable(r)
    ensures var b0, b1, b2 := 0xE0 + r / 4096, 0x80 + r / 64 % 64, 0x80 + r % 64;
            && Encode(r) == [b0, b1, b2]
            && (|s| >= 3 && s[|s| - 3] == b0 && s[|s| - 2] == b1 && s[|s| - 1] == b2 ==> LastRune(s) == (r, 3))
  {
    hide ValidTwo, ValidThree, ValidFour, DecodeTwo, DecodeThree, DecodeFour;
    ThreeParts(r);
  }

  lemma FourParts(r: Rune)
    requires 0x10000 <= r < 0x110000
    ensures var b0, b1, b2, b3 := 0xF0 + r / 262144, 0x80 + r / 4096 % 64, 0x80 + r / 64 % 64, 0x80 + r % 64;
            && b0 < 0xF5 && ValidFour(b0, b1, b2, b3) && DecodeFour(b0, b1, b2, b3) == r
            && !ValidTwo(b2, b3) && !ValidThree(b1, b2, b3)
  {
    var a := r / 64;
    var b := a / 64;
    assert r / 4096 == b && r / 262144 == b / 64;
  }

  lemma FourBytes(s: Str, r: Rune)
    requires 0x10000 <= r < 0x110000
    ensures var b0, b1, b2, b3 := 0xF0 + r / 262144, 0x80 + r / 4096 % 64, 0x80 + r / 64 % 64, 0x80 + r % 64;
            && Encode(r) == [b0, b1, b2, b3]
            && (|s| >= 4 && s[|s| - 4] == b0 && s[|s| - 3] == b1 && s[|s| - 2] == b2 && s[|s| - 1] == b3 ==>
                  LastRune(s) == (r, 4))
  {
    hide ValidTwo, ValidThree, ValidFour, DecodeTwo, DecodeThree, DecodeFour;
    FourParts(r);
  }

  /** Round trip: the decoder answers the last rune encoded, and the length of its encoding, after any bytes. */
  lemma LastRuneOfEncoding(a: Str, r: Rune)
    requires Encodable(r)
    ensures LastRune(a + Encode(r)) == (r, |Encode(r)|)
  {
    hide Encode, LastRune;
    var e := Encode(r);
    var s := a + e;
    assert forall i | 0 <= i < |e| :: s[|a| + i] == e[i];
    if r < 0x80 {
      OneByte(s, r);
    } else if r < 0x800 {
      TwoBytes(s, r);
    } else if r < 0x10000 {
      ThreeBytes(s, r);
    } else {
      FourBytes(s, r);
    }
  }

  /** The closed form of the orbits: a letter and its capital, and the third member for k and s. */
  lemma SameFoldIs(r: Rune, c: Rune)
    requires LowerAscii(c)
    ensures SameFold(r, c) <==>
            || r == c
            || ('a' as int <= c <= 'z' as int && r == c - 32)
            || (c == 'k' as int && r == 0x212A)
            || (c == 's' as int && r == 0x17F)
  {
  }

  predicate EndsWith(s: Str, e: Str) {
    |e| <= |s| && s[|s| - |e|..] == e
  }

  lemma LastIsAscii(s: Str, r: Rune)
    requires 0 <= r < 0x80
    ensures LastRune(s).0 == r ==> LastRune(s).1 == 1 || s == []
    ensures LastRune(s) == (r, 1) <==> EndsWith(s, [r])
  {
    hide ValidTwo, ValidThree, ValidFour, DecodeTwo, DecodeThree, DecodeFour;
  }

  lemma TwoIsLongS(b0: Byte, b1: Byte)
    ensures ValidTwo(b0, b1) && DecodeTwo(b0, b1) == 0x17F <==> b0 == 0xC5 && b1 == 0xBF
  {
  }

  lemma ThreeIsKelvin(b0: Byte, b1: Byte, b2: Byte)
    ensures ValidThree(b0, b1, b2) && DecodeThree(b0, b1, b2) == 0x212A <==> b0 == 0xE2 && b1 == 0x84 && b2 == 0xAA
    ensures b1 == 0x84 && b2 == 0xAA ==> !ValidTwo(b1, b2)
  {
  }

  lemma LastIsLongS(s: Str)
    ensures LastRune(s).0 == 0x17F ==> LastRune(s).1 == 2 || s == []
    ensures LastRune(s) == (0x17F, 2) <==> EndsWith(s, [0xC5, 0xBF])
  {
    hide ValidTwo, ValidThree, ValidFour, DecodeTwo, DecodeThree, DecodeFour;
    if |s| >= 2 {
      TwoIsLongS(s[|s| - 2], s[|s| - 1]);
    }
  }

  lemma LastIsKelvin(s: Str)
    ensures LastRune(s).0 == 0x212A ==> LastRune(s).1 == 3 || s == []
    ensures LastRune(s) == (0x212A, 3) <==> EndsWith(s, [0xE2, 0x84, 0xAA])
  {
    hide ValidTwo, ValidThree, ValidFour, DecodeTwo, DecodeThree, DecodeFour;
    if |s| >= 3 {
      ThreeIsKelvin(s[|s| - 3], s[|s| - 2], s[|s| - 1]);
    }
  }

  /** The last rune of s is a given member of an ASCII orbit exactly when s ends with its encoding. */
  lemma LastRuneFolds(s: Str, r: Rune)
    requires Foldable(r)
    ensures LastRune(s).0 == r ==> LastRune(s).1 == |Encode(r)| || s == []
    ensures LastRune(s) == (r, |Encode(r)|) <==> EndsWith(s, Encode(r))
  {
    hide LastRune, EndsWith;
    if r == 0x17F {
      LastIsLongS(s);
    } else if r == 0x212A {
      LastIsKelvin(s);
    } else {
      LastIsAscii(s, r);
    }
  }

  /** foldEq: the ASCII shortcut and the walk round the orbit of c decide membership in it. */
  method FoldEq(r: Rune, c: Rune) returns (b: bool)
    requires LowerAscii(c)
    ensures b <==> SameFold(r, c)
    ensures b <==>
            || r == c
            || ('a' as int <= c <= 'z' as int && r == c - 32)
            || (c == 'k' as int && r == 0x212A)
            || (c == 's' as int && r == 0x17F)
  {
    if r == c {
      return true;
    }
    if r < 0x80 {
      return 'A' as int <= r <= 'Z' as int && r + 32 == c;
    }
    var f := SimpleFold(c);
    ghost var n := 1;
    while f != c
      invariant 1 <= n <= 3
      invariant n == 1 ==> f == SimpleFold(c)
      invariant n == 2 ==> f == SimpleFold(SimpleFold(c)) && r != SimpleFold(c)
      invariant n == 3 ==> f == c && r != SimpleFold(c) && r != SimpleFold(SimpleFold(c))
      decreases 3 - n
    {
      if f == r {
        return true;
      }
      f := SimpleFold(f);
      n := n + 1;
    }
    return false;
  }
}
