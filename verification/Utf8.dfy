/** UTF-8 (section 3 of RFC 3629): encoding, and decoding that ignores what is incomplete. */
module Utf8 {

  type Byte = b: int | 0 <= b < 256

  function EncodeChar(c: char): (bytes: seq<Byte>)
    ensures 1 <= |bytes| <= 4
  {
    var n := c as int;
    if n < 0x80 then [n]
    else if n < 0x800 then [0xC0 + n / 64, 0x80 + n % 64]
    else if n < 0x10000 then [0xE0 + n / 4096, 0x80 + n / 64 % 64, 0x80 + n % 64]
    else [0xF0 + n / 262144, 0x80 + n / 4096 % 64, 0x80 + n / 64 % 64, 0x80 + n % 64]
  }

  function Encode(s: string): seq<Byte> {
    if s == "" then [] else EncodeChar(s[0]) + Encode(s[1..])
  }

  function ByteLength(s: string): nat {
    if s == "" then 0 else |EncodeChar(s[0])| + ByteLength(s[1..])
  }

  lemma {:induction false} EncodeHasByteLength(s: string)
    ensures |Encode(s)| == ByteLength(s)
  {
    if s != "" {
      EncodeHasByteLength(s[1..]);
    }
  }

  lemma {:induction false} ByteLengthOfConcat(s: string, t: string)
    ensures ByteLength(s + t) == ByteLength(s) + ByteLength(t)
  {
    if s == "" {
      assert s + t == t;
    } else {
      assert (s + t)[1..] == s[1..] + t;
      ByteLengthOfConcat(s[1..], t);
    }
  }

  lemma {:induction false} EncodeOfConcat(s: string, t: string)
    ensures Encode(s + t) == Encode(s) + Encode(t)
  {
    if s == "" {
      assert s + t == t;
    } else {
      assert (s + t)[1..] == s[1..] + t;
      EncodeOfConcat(s[1..], t);
    }
  }

  /** Every character has its shortest form. */
  lemma EncodingIsShortest(c: char)
    ensures var n := c as int;
      |EncodeChar(c)| == if n < 0x80 then 1 else if n < 0x800 then 2 else if n < 0x10000 then 3 else 4
  {
  }

  // --------------------------------------------------------------- decoding

  /** How many bytes the sequence starting with a byte has; 0 for a byte that starts none. */
  function SequenceLength(lead: Byte): nat {
    if lead < 0x80 then 1
    else if lead < 0xC0 then 0
    else if lead < 0xE0 then 2
    else if lead < 0xF0 then 3
    else if lead < 0xF8 then 4
    else 0
  }

  predicate Continues(bytes: seq<Byte>) {
    forall k :: 0 <= k < |bytes| ==> 0x80 <= bytes[k] < 0xC0
  }

  function CodePoint(bytes: seq<int>): int
    requires 1 <= |bytes| <= 4
  {
    if |bytes| == 1 then bytes[0]
    else if |bytes| == 2 then (bytes[0] - 0xC0) * 64 + (bytes[1] - 0x80)
    else if |bytes| == 3 then (bytes[0] - 0xE0) * 4096 + (bytes[1] - 0x80) * 64 + (bytes[2] - 0x80)
    else (bytes[0] - 0xF0) * 262144 + (bytes[1] - 0x80) * 4096 + (bytes[2] - 0x80) * 64 + (bytes[3] - 0x80)
  }

  predicate IsScalar(n: int) {
    0 <= n < 0xD800 || 0xE000 <= n < 0x110000
  }

  /** `decode("utf-8", errors="ignore")`: what is no whole sequence is passed over byte by byte. */
  function DecodeIgnoring(bytes: seq<Byte>): string
    decreases |bytes|
  {
    if bytes == [] then ""
    else
      var n := SequenceLength(bytes[0]);
      if n != 0 && n <= |bytes| && Continues(bytes[1..n]) && IsScalar(CodePoint(bytes[..n]))
      then [CodePoint(bytes[..n]) as char] + DecodeIgnoring(bytes[n..])
      else DecodeIgnoring(bytes[1..])
  }

  /** Splitting a number into its base-64 digits and back. */
  lemma Digits(n: nat)
    ensures n / 64 / 64 == n / 4096 && n / 4096 / 64 == n / 262144
    ensures n == n / 64 * 64 + n % 64
    ensures n / 64 == n / 4096 * 64 + n / 64 % 64
    ensures n / 4096 == n / 262144 * 64 + n / 4096 % 64
  {
  }

  lemma EncodedCharIsWhole(c: char)
    ensures var bytes := EncodeChar(c);
      SequenceLength(bytes[0]) == |bytes| && Continues(bytes[1..]) && CodePoint(bytes) == c as int
  {
    var n := c as int;
    Digits(n);
    if n < 0x80 {
    } else if n < 0x800 {
      assert n / 64 < 32;
    } else if n < 0x10000 {
      assert n / 4096 < 16;
    } else {
      assert n / 262144 < 8;
    }
  }

  lemma DecodeEncodedChar(c: char, rest: seq<Byte>)
    ensures DecodeIgnoring(EncodeChar(c) + rest) == [c] + DecodeIgnoring(rest)
  {
    var bytes := EncodeChar(c) + rest;
    EncodedCharIsWhole(c);
    assert bytes[..|EncodeChar(c)|] == EncodeChar(c);
    assert bytes[1..|EncodeChar(c)|] == EncodeChar(c)[1..];
    assert bytes[|EncodeChar(c)|..] == rest;
  }

  lemma {:induction false} ContinuationsDecodeToNothing(bytes: seq<Byte>)
    requires Continues(bytes)
    ensures DecodeIgnoring(bytes) == ""
    decreases |bytes|
  {
    if bytes != [] {
      ContinuationsDecodeToNothing(bytes[1..]);
    }
  }

  /** A character cut short is passed over. */
  lemma CutCharDecodesToNothing(c: char, k: nat)
    requires k < |EncodeChar(c)|
    ensures DecodeIgnoring(EncodeChar(c)[..k]) == ""
  {
    EncodedCharIsWhole(c);
    var cut := EncodeChar(c)[..k];
    if k > 0 {
      forall j | 0 <= j < |cut[1..]|
        ensures 0x80 <= cut[1..][j] < 0xC0
      {
        assert cut[1..][j] == EncodeChar(c)[1..][j];
      }
      ContinuationsDecodeToNothing(cut[1..]);
    }
  }
}
