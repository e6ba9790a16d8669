/** UTF-8 as section 3 of RFC 3629 defines it, and the decoder that drops what it cannot read.

    The accumulator cuts encoded text at a byte budget and decodes the cut bytes with errors
    ignored. `DecodeCut` says what that leaves: the longest prefix of whole characters that fits. */
module Utf8 {

  type Byte = x: int | 0 <= x < 256

  /** The bytes of one Unicode scalar value. */
  function EncodeChar(c: char): (b: seq<Byte>)
    ensures 1 <= |b| <= 4
  {
    var n := c as int;
    if n < 0x80 then [n]
    else if n < 0x800 then [0xC0 + n / 64, 0x80 + n % 64]
    else if n < 0x10000 then [0xE0 + n / 4096, 0x80 + n / 64 % 64, 0x80 + n % 64]
    else [0xF0 + n / 262144, 0x80 + n / 4096 % 64, 0x80 + n / 64 % 64, 0x80 + n % 64]
  }

  function Encode(s: string): seq<Byte> {
    if s == "" then [] else EncodeChar(s[0]) + Encode(s[1..])
  }

  function ByteLen(s: string): nat {
    if s == "" then 0 else |EncodeChar(s[0])| + ByteLen(s[1..])
  }

  /** How many leading characters of `s` fit in `budget` bytes. */
  function Fit(s: string, budget: int): (n: nat)
    ensures n <= |s|
  {
    if s == "" || |EncodeChar(s[0])| > budget then 0
    else 1 + Fit(s[1..], budget - |EncodeChar(s[0])|)
  }

  // ---------- the lenient decoder ----------

  datatype Decoded = Decoded(used: nat, c: seq<char>)

  predicate IsTail(b: Byte) { 0x80 <= b < 0xC0 }

  /** Whether `b1` may follow the lead byte `b0` (no overlong form, no surrogate, no value above 0x10FFFF). */
  predicate IsSecond(b0: Byte, b1: Byte) {
    IsTail(b1)
    && (b0 == 0xE0 ==> 0xA0 <= b1)
    && (b0 == 0xED ==> b1 < 0xA0)
    && (b0 == 0xF0 ==> 0x90 <= b1)
    && (b0 == 0xF4 ==> b1 < 0x90)
  }

  /** The payload bits of a byte whose marker bits are `marker`. */
  function Bits(b: int, marker: int): int { b - marker }

  /** One step: a whole character, or an unreadable stretch of bytes that is skipped. */
  function DecodeOne(b: seq<Byte>): (d: Decoded)
    requires b != []
    ensures 1 <= d.used <= |b|
  {
    var b0 := b[0];
    if b0 < 0x80 then Decoded(1, [b0 as char])
    else if 0xC2 <= b0 < 0xE0 then
      if |b| < 2 || !IsTail(b[1]) then Decoded(1, [])
      else Decoded(2, [(Bits(b0, 0xC0) * 64 + Bits(b[1], 0x80)) as char])
    else if 0xE0 <= b0 < 0xF0 then
      if |b| < 2 || !IsSecond(b0, b[1]) then Decoded(1, [])
      else if |b| < 3 || !IsTail(b[2]) then Decoded(2, [])
      else Decoded(3, [(Bits(b0, 0xE0) * 4096 + Bits(b[1], 0x80) * 64 + Bits(b[2], 0x80)) as char])
    else if 0xF0 <= b0 < 0xF5 then
      if |b| < 2 || !IsSecond(b0, b[1]) then Decoded(1, [])
      else if |b| < 3 || !IsTail(b[2]) then Decoded(2, [])
      else if |b| < 4 || !IsTail(b[3]) then Decoded(3, [])
      else
        Decoded(4, [(Bits(b0, 0xF0) * 262144 + Bits(b[1], 0x80) * 4096 + Bits(b[2], 0x80) * 64 + Bits(b[3], 0x80)) as char])
    else Decoded(1, [])
  }

  /** Decode, dropping every byte that is not part of a character. */
  function DecodeIgnore(b: seq<Byte>): string
    decreases |b|
  {
    if b == [] then "" else
    var d := DecodeOne(b);
    d.c + DecodeIgnore(b[d.used..])
  }

  // ---------- facts ----------

  lemma {:induction false} ByteLenIsEncodedLength(s: string)
    ensures |Encode(s)| == ByteLen(s)
  {
    if s != "" {
      ByteLenIsEncodedLength(s[1..]);
    }
  }

  lemma {:induction false} ByteLenConcat(s: string, t: string)
    ensures ByteLen(s + t) == ByteLen(s) + ByteLen(t)
  {
    if s == "" {
      assert s + t == t;
    } else {
      assert (s + t)[1..] == s[1..] + t;
      ByteLenConcat(s[1..], t);
    }
  }

  lemma {:induction false} ByteLenPositive(s: string)
    ensures ByteLen(s) >= |s|
  {
    if s != "" {
      ByteLenPositive(s[1..]);
    }
  }

  /** `Fit` is the longest prefix within the budget: it fits, and no longer prefix does. */
  lemma {:induction false} FitIsLongest(s: string, budget: nat, n: nat)
    requires n <= |s|
    ensures ByteLen(s[..n]) <= budget <==> n <= Fit(s, budget)
  {
    if n == 0 {
      assert s[..n] == "";
    } else {
      var w := |EncodeChar(s[0])|;
      assert s[..n][1..] == s[1..][..n - 1];
      if w <= budget {
        FitIsLongest(s[1..], budget - w, n - 1);
      }
    }
  }

  lemma FitWhole(s: string, budget: nat)
    ensures ByteLen(s) <= budget <==> Fit(s, budget) == |s|
  {
    FitIsLongest(s, budget, |s|);
    assert s[..|s|] == s;
  }

  /** Text beyond a prefix that already overflows the budget does not matter; text after one that fits starts with what is left. */
  lemma {:induction false} FitConcat(s: string, t: string, budget: nat)
    ensures ByteLen(s) <= budget ==> Fit(s + t, budget) == |s| + Fit(t, budget - ByteLen(s))
    ensures ByteLen(s) > budget ==> Fit(s + t, budget) == Fit(s, budget)
  {
    if s == "" {
      assert s + t == t;
    } else {
      assert (s + t)[1..] == s[1..] + t;
      var w := |EncodeChar(s[0])|;
      if w <= budget {
        FitConcat(s[1..], t, budget - w);
      }
    }
  }

  lemma DecodeTwo(n: int, b: seq<Byte>)
    requires 0x80 <= n < 0x800 && |b| >= 2 && b[0] == 0xC0 + n / 64 && b[1] == 0x80 + n % 64
    ensures DecodeOne(b) == Decoded(2, [n as char])
  {
  }

  lemma DecodeThree(n: int, b: seq<Byte>)
    requires 0x800 <= n < 0xD800 || 0xE000 <= n < 0x10000
    requires |b| >= 3 && b[0] == 0xE0 + n / 4096 && b[1] == 0x80 + n / 64 % 64 && b[2] == 0x80 + n % 64
    ensures DecodeOne(b) == Decoded(3, [n as char])
  {
    assert n == n / 4096 * 4096 + n / 64 % 64 * 64 + n % 64;
  }

  lemma FourParts(n: int)
    requires 0x10000 <= n < 0x110000
    ensures n == n / 262144 * 262144 + n / 4096 % 64 * 4096 + n / 64 % 64 * 64 + n % 64
    ensures 0 <= n / 262144 <= 4 && (n / 262144 == 0 ==> n / 4096 % 64 >= 16) && (n / 262144 == 4 ==> n / 4096 % 64 < 16)
  {
  }

  lemma DecodeFour(n: int, b: seq<Byte>)
    requires 0x10000 <= n < 0x110000 && |b| >= 4
    requires b[0] == 0xF0 + n / 262144 && b[1] == 0x80 + n / 4096 % 64 && b[2] == 0x80 + n / 64 % 64 && b[3] == 0x80 + n % 64
    ensures DecodeOne(b) == Decoded(4, [n as char])
  {
    FourParts(n);
  }

  lemma DecodeWholeChar(c: char, rest: seq<Byte>)
    ensures DecodeOne(EncodeChar(c) + rest) == Decoded(|EncodeChar(c)|, [c])
  {
    var n := c as int;
    var b := EncodeChar(c) + rest;
    if n < 0x80 {
      assert b[0] == n;
    } else if n < 0x800 {
      DecodeTwo(n, b);
    } else if n < 0x10000 {
      DecodeThree(n, b);
    } else {
      DecodeFour(n, b);
    }
  }

  /** A character cut short leaves nothing behind. */
  lemma DecodeCutChar(c: char, k: nat)
    requires k < |EncodeChar(c)|
    ensures DecodeIgnore(EncodeChar(c)[..k]) == ""
  {
    var b := EncodeChar(c)[..k];
    if k > 0 {
      assert b[0] == EncodeChar(c)[0];
      assert DecodeOne(b) == Decoded(k, []);
      assert b[k..] == [];
    }
  }

  /** The cut falls behind the first character. */
  lemma CutBehindFirst(s: string, k: nat)
    requires s != "" && |EncodeChar(s[0])| <= k <= |Encode(s)|
    ensures k - |EncodeChar(s[0])| <= |Encode(s[1..])|
    ensures DecodeIgnore(Encode(s)[..k]) == [s[0]] + DecodeIgnore(Encode(s[1..])[..k - |EncodeChar(s[0])|])
  {
    var e := EncodeChar(s[0]);
    var rest := Encode(s[1..])[..k - |e|];
    assert Encode(s)[..k] == e + rest;
    DecodeWholeChar(s[0], rest);
    assert (e + rest)[|e|..] == rest;
  }

  lemma CutInFirst(s: string, k: nat)
    requires s != "" && k < |EncodeChar(s[0])| && k <= |Encode(s)|
    ensures DecodeIgnore(Encode(s)[..k]) == s[..Fit(s, k)]
  {
    assert Encode(s)[..k] == EncodeChar(s[0])[..k];
    DecodeCutChar(s[0], k);
  }

  lemma PrefixAfterFirst(s: string, k: nat)
    requires s != "" && |EncodeChar(s[0])| <= k
    ensures s[..Fit(s, k)] == [s[0]] + s[1..][..Fit(s[1..], k - |EncodeChar(s[0])|)]
  {
  }

  /** Cutting the encoding at any byte and decoding leniently keeps exactly the characters that fit whole. */
  lemma {:induction false} DecodeCut(s: string, k: nat)
    requires k <= ByteLen(s)
    ensures ByteLen(s) == |Encode(s)|
    ensures DecodeIgnore(Encode(s)[..k]) == s[..Fit(s, k)]
  {
    ByteLenIsEncodedLength(s);
    if s == "" {
    } else if |EncodeChar(s[0])| <= k {
      CutBehindFirst(s, k);
      DecodeCut(s[1..], k - |EncodeChar(s[0])|);
      PrefixAfterFirst(s, k);
    } else {
      CutInFirst(s, k);
    }
  }

  /** Encoding loses nothing. */
  lemma {:induction false} RoundTrip(s: string)
    ensures DecodeIgnore(Encode(s)) == s
  {
    DecodeCut(s, ByteLen(s));
    FitWhole(s, ByteLen(s));
    assert Encode(s)[..ByteLen(s)] == Encode(s);
    assert s[..|s|] == s;
  }
}
