/** Two ways of cutting text to a number of lines and UTF-8 bytes, and what both compute. */
module Truncate {
  import opened Utf8

  // ------------------------------------------------------------------ lines

  /** The line boundaries of `str.splitlines`. */
  predicate IsBreak(c: char) {
    || '\n' <= c <= '\r'
    || c as int in {0x1C, 0x1D, 0x1E, 0x85, 0x2028, 0x2029}
  }

  /** The length of the first line, its terminator included; CR LF is one terminator. */
  function FirstLine(s: string): (n: nat)
    ensures n <= |s| && (s != "" ==> n > 0)
  {
    if s == "" then 0
    else if s[0] == '\r' && |s| > 1 && s[1] == '\n' then 2
    else if IsBreak(s[0]) then 1
    else 1 + FirstLine(s[1..])
  }

  /** `splitlines(keepends=True)`. */
  function SplitLines(s: string): seq<string>
    decreases |s|
  {
    if s == "" then [] else [s[..FirstLine(s)]] + SplitLines(s[FirstLine(s)..])
  }

  function Join(lines: seq<string>): string {
    if lines == [] then "" else lines[0] + Join(lines[1..])
  }

  function LineCount(s: string): nat {
    |SplitLines(s)|
  }

  lemma {:induction false} JoinOfConcat(a: seq<string>, b: seq<string>)
    ensures Join(a + b) == Join(a) + Join(b)
  {
    if a == [] {
      assert a + b == b;
    } else {
      assert (a + b)[1..] == a[1..] + b;
      JoinOfConcat(a[1..], b);
    }
  }

  lemma {:induction false} SplitLinesJoin(s: string)
    ensures Join(SplitLines(s)) == s
    decreases |s|
  {
    if s != "" {
      SplitLinesJoin(s[FirstLine(s)..]);
      assert s == s[..FirstLine(s)] + s[FirstLine(s)..];
    }
  }

  /** The ten line boundaries. */
  lemma BreaksAre(c: char)
    ensures IsBreak(c) <==> c as int in {0x0A, 0x0B, 0x0C, 0x0D, 0x1C, 0x1D, 0x1E, 0x85, 0x2028, 0x2029}
  {
  }

  predicate EndsLine(l: string) {
    l != "" && IsBreak(l[|l| - 1])
  }

  /** No boundary inside a line, except between CR and LF at its end. */
  predicate IsOneLine(l: string) {
    l != "" && forall k :: 0 <= k < |l| - 1 && IsBreak(l[k]) ==> k == |l| - 2 && l[k] == '\r' && l[k + 1] == '\n'
  }

  lemma {:induction false} FirstLineIsOne(s: string)
    requires s != ""
    ensures IsOneLine(s[..FirstLine(s)])
    ensures FirstLine(s) < |s| ==> EndsLine(s[..FirstLine(s)]) && !(s[FirstLine(s) - 1] == '\r' && s[FirstLine(s)] == '\n')
  {
    if !IsBreak(s[0]) && |s| > 1 {
      FirstLineIsOne(s[1..]);
      assert FirstLine(s) == 1 + FirstLine(s[1..]);
      assert s[..FirstLine(s)] == [s[0]] + s[1..][..FirstLine(s[1..])];
    }
  }

  /** The lines are cut at every boundary and nowhere else: each but the last ends with one, none has
      one inside, and no CR LF is cut in two. */
  lemma {:induction false} SplitLinesIsExact(s: string)
    ensures var lines := SplitLines(s);
      && Join(lines) == s
      && (forall k :: 0 <= k < |lines| ==> IsOneLine(lines[k]))
      && (forall k :: 0 <= k < |lines| - 1 ==>
            EndsLine(lines[k]) && !(lines[k][|lines[k]| - 1] == '\r' && lines[k + 1][0] == '\n'))
    decreases |s|
  {
    SplitLinesJoin(s);
    if s != "" {
      var n := FirstLine(s);
      FirstLineIsOne(s);
      SplitLinesIsExact(s[n..]);
      assert n < |s| ==> s[..n][n - 1] == s[n - 1] && SplitLines(s[n..])[0][0] == s[n];
    }
  }

  /** A first line stays the first line of every prefix that goes beyond it. */
  lemma {:induction false} FirstLineOfPrefix(s: string, p: string)
    requires p <= s
    ensures |p| <= FirstLine(s) ==> FirstLine(p) == |p|
    ensures |p| > FirstLine(s) ==> FirstLine(p) == FirstLine(s)
    decreases |s|
  {
    if p != "" && s[0] != '\r' && !IsBreak(s[0]) {
      assert p[1..] <= s[1..];
      FirstLineOfPrefix(s[1..], p[1..]);
    }
  }

  /** A prefix has no more lines than the whole. */
  lemma {:induction false} PrefixHasFewerLines(s: string, p: string)
    requires p <= s
    ensures LineCount(p) <= LineCount(s)
    decreases |s|
  {
    if p != "" {
      var n := FirstLine(s);
      FirstLineOfPrefix(s, p);
      assert LineCount(s) == 1 + LineCount(s[n..]);
      if |p| <= n {
        assert p[FirstLine(p)..] == "";
        assert LineCount(p) == 1 + LineCount("");
      } else {
        assert p[n..] <= s[n..];
        PrefixHasFewerLines(s[n..], p[n..]);
      }
    }
  }

  /** A prefix that goes beyond the first `k` lines has more than `k`. */
  lemma {:induction false} BeyondLines(s: string, k: nat, p: string)
    requires k <= LineCount(s) && p <= s && |p| > |Join(SplitLines(s)[..k])|
    ensures LineCount(p) > k
    decreases |s|
  {
    if k > 0 {
      var n := FirstLine(s);
      var lines := SplitLines(s);
      assert lines[..k][0] == s[..n] && lines[..k][1..] == SplitLines(s[n..])[..k - 1];
      FirstLineOfPrefix(s, p);
      assert p[n..] <= s[n..];
      BeyondLines(s[n..], k - 1, p[n..]);
    }
  }

  /** The first `k` lines have `k` lines. */
  lemma {:induction false} FirstLinesCount(s: string, k: nat)
    requires k <= LineCount(s)
    ensures LineCount(Join(SplitLines(s)[..k])) == k && Join(SplitLines(s)[..k]) <= s
    decreases |s|
  {
    var p := Join(SplitLines(s)[..k]);
    if k > 0 {
      var n := FirstLine(s);
      var rest := Join(SplitLines(s[n..])[..k - 1]);
      assert SplitLines(s)[..k][0] == s[..n] && SplitLines(s)[..k][1..] == SplitLines(s[n..])[..k - 1];
      FirstLinesCount(s[n..], k - 1);
      assert p == s[..n] + rest;
      assert s == s[..n] + s[n..];
      FirstLineOfPrefix(s, p);
      if rest == "" {
        assert p[FirstLine(p)..] == rest;
      } else {
        assert p[n..] == rest;
      }
    }
  }

  // ----------------------------------------------------------------- limits

  /** The text fits the limits on bytes and lines. */
  predicate Fits(s: string, bytes: nat, lines: nat) {
    ByteLength(s) <= bytes && LineCount(s) <= lines
  }

  /** The longest prefix that fits, and whether it is not the whole. */
  ghost predicate IsCut(value: string, bytes: nat, lines: nat, text: string, truncated: bool) {
    && text <= value
    && Fits(text, bytes, lines)
    && (forall longer: string :: longer <= value && |longer| > |text| ==> !Fits(longer, bytes, lines))
    && (truncated <==> !Fits(value, bytes, lines))
  }

  /** There is only one cut, so two routines that compute one agree. */
  lemma CutIsUnique(value: string, bytes: nat, lines: nat, a: string, aTruncated: bool, b: string, bTruncated: bool)
    requires IsCut(value, bytes, lines, a, aTruncated) && IsCut(value, bytes, lines, b, bTruncated)
    ensures a == b && aTruncated == bTruncated
    ensures aTruncated <==> a != value
  {
    assert |a| == |b|;
    assert a == value[..|a|] && b == value[..|b|];
    assert a != value ==> |value| > |a|;
  }

  lemma LongerHasMoreBytes(p: string, q: string)
    requires p <= q
    ensures ByteLength(p) <= ByteLength(q)
  {
    assert q == p + q[|p|..];
    ByteLengthOfConcat(p, q[|p|..]);
  }

  // ---------------------------------------------------------- byte prefixes

  /** The longest prefix within a number of bytes. */
  ghost predicate IsBytePrefix(value: string, limit: nat, p: string) {
    && p <= value
    && ByteLength(p) <= limit
    && (p != value ==> ByteLength(value[..|p| + 1]) > limit)
  }

  lemma BytePrefixIsUnique(value: string, limit: nat, p: string, q: string)
    requires IsBytePrefix(value, limit, p) && IsBytePrefix(value, limit, q)
    ensures p == q
  {
    if |p| < |q| {
      LongerHasMoreBytes(value[..|p| + 1], q);
    } else if |q| < |p| {
      LongerHasMoreBytes(value[..|q| + 1], p);
    }
    assert p == value[..|p|] && q == value[..|q|];
  }

  /** `_utf8_prefix`: cut the encoding and decode what is left. */
  function Utf8Prefix(value: string, limit: nat): string {
    var encoded := Encode(value);
    DecodeIgnoring(if limit < |encoded| then encoded[..limit] else encoded)
  }

  lemma {:induction false} DecodeWhole(s: string)
    ensures DecodeIgnoring(Encode(s)) == s
  {
    if s != "" {
      DecodeWhole(s[1..]);
      DecodeEncodedChar(s[0], Encode(s[1..]));
    }
  }

  /** Cutting bytes never splits a character: the incomplete one is passed over. */
  lemma {:induction false} Utf8PrefixIsBytePrefix(value: string, limit: nat)
    ensures IsBytePrefix(value, limit, Utf8Prefix(value, limit))
    decreases value
  {
    EncodeHasByteLength(value);
    if ByteLength(value) <= limit {
      DecodeWhole(value);
    } else {
      var first := EncodeChar(value[0]);
      if limit < |first| {
        assert Encode(value)[..limit] == first[..limit];
        CutCharDecodesToNothing(value[0], limit);
        assert ByteLength(value[..1]) == |first|;
      } else {
        var rest := Utf8Prefix(value[1..], limit - |first|);
        Utf8PrefixIsBytePrefix(value[1..], limit - |first|);
        EncodeHasByteLength(value[1..]);
        assert Encode(value)[..limit] == first + Encode(value[1..])[..limit - |first|];
        DecodeEncodedChar(value[0], Encode(value[1..])[..limit - |first|]);
        assert Utf8Prefix(value, limit) == [value[0]] + rest;
        if rest != value[1..] {
          assert value[..|rest| + 2] == [value[0]] + value[1..][..|rest| + 1];
        }
      }
    }
  }

  /** `_prefix_for_bytes`: character by character, with the result of `_utf8_prefix`. */
  method PrefixForBytes(value: string, limit: nat) returns (p: string)
    ensures IsBytePrefix(value, limit, p) && p == Utf8Prefix(value, limit)
  {
    Utf8PrefixIsBytePrefix(value, limit);
    if ByteLength(value) <= limit {
      BytePrefixIsUnique(value, limit, value, Utf8Prefix(value, limit));
      return value;
    }
    p := "";
    var used := 0;
    assert value[..|value|] == value;
    for n := 0 to |value|
      invariant p == value[..n] && used == ByteLength(p) <= limit
    {
      var size := |EncodeChar(value[n])|;
      assert value[..n + 1] == value[..n] + [value[n]];
      ByteLengthOfConcat(value[..n], [value[n]]);
      if used + size > limit {
        BytePrefixIsUnique(value, limit, p, Utf8Prefix(value, limit));
        return;
      }
      p := p + [value[n]];
      used := used + size;
    }
    assert false;
  }

  // ------------------------------------------------------------ the routines

  /** Whole lines so far, and where they end. */
  predicate Taken(value: string, lines: seq<string>, k: nat, text: string, bytes: nat) {
    && lines == SplitLines(value) && k <= |lines|
    && text == Join(lines[..k]) && ByteLength(text) <= bytes
  }

  lemma TakenGrows(value: string, lines: seq<string>, k: nat, text: string, bytes: nat)
    requires Taken(value, lines, k, text, bytes) && k < |lines|
    ensures text + lines[k] == Join(lines[..k + 1]) && text + lines[k] <= value
    ensures ByteLength(text + lines[k]) == ByteLength(text) + ByteLength(lines[k])
  {
    assert lines[..k + 1] == lines[..k] + [lines[k]];
    JoinOfConcat(lines[..k], [lines[k]]);
    assert Join([lines[k]]) == lines[k] + Join([]);
    FirstLinesCount(value, k + 1);
    ByteLengthOfConcat(text, lines[k]);
  }

  /** Cut in the middle of a line for want of bytes. */
  lemma CutInLine(value: string, bytes: nat, limit: nat, lines: seq<string>, k: nat, text: string, p: string)
    requires Taken(value, lines, k, text, bytes) && k < |lines| && k < limit
    requires IsBytePrefix(lines[k], bytes - ByteLength(text), p) && p != lines[k]
    ensures IsCut(value, bytes, limit, text + p, true)
  {
    TakenGrows(value, lines, k, text, bytes);
    FirstLinesCount(value, k + 1);
    PrefixHasFewerLines(text + lines[k], text + p);
    ByteLengthOfConcat(text, p);
    var next := lines[k][..|p| + 1];
    ByteLengthOfConcat(text, next);
    forall longer: string | longer <= value && |longer| > |text + p|
      ensures ByteLength(longer) > bytes
    {
      assert text + next <= longer;
      LongerHasMoreBytes(text + next, longer);
    }
  }

  /** Cut after the last line allowed. */
  lemma CutAfterLines(value: string, bytes: nat, limit: nat, lines: seq<string>, text: string)
    requires Taken(value, lines, limit, text, bytes) && limit < |lines|
    ensures IsCut(value, bytes, limit, text, true)
  {
    FirstLinesCount(value, limit);
    forall longer: string | longer <= value && |longer| > |text|
      ensures LineCount(longer) > limit
    {
      BeyondLines(value, limit, longer);
    }
  }

  lemma NothingCut(value: string, bytes: nat, limit: nat, lines: seq<string>, text: string)
    requires Taken(value, lines, |lines|, text, bytes) && |lines| <= limit
    ensures text == value && IsCut(value, bytes, limit, value, false)
  {
    assert lines[..|lines|] == lines;
    SplitLinesJoin(value);
  }

  /** `_truncate`. */
  method TruncateRecord(value: string, bytes: nat, limit: nat) returns (text: string, truncated: bool)
    ensures IsCut(value, bytes, limit, text, truncated)
  {
    var lines := SplitLines(value);
    var last := if |lines| <= limit then |lines| else limit;
    text := "";
    var used := 0;
    for k := 0 to last
      invariant Taken(value, lines, k, text, bytes) && used == ByteLength(text)
    {
      var line := PrefixForBytes(lines[k], bytes - used);
      TakenGrows(value, lines, k, text, bytes);
      if line != lines[k] {
        CutInLine(value, bytes, limit, lines, k, text, line);
        return text + line, true;
      }
      text := text + line;
      used := used + ByteLength(line);
    }
    if |lines| > limit {
      CutAfterLines(value, bytes, limit, lines, text);
      return text, true;
    }
    NothingCut(value, bytes, limit, lines, text);
    return value, false;
  }

  /** `_bound_rendered`. */
  method BoundRendered(value: string, bytes: nat, limit: nat) returns (text: string, truncated: bool)
    ensures IsCut(value, bytes, limit, text, truncated)
  {
    var lines := SplitLines(value);
    text := "";
    var size := 0;
    for k := 0 to |lines|
      invariant Taken(value, lines, k, text, bytes) && size == ByteLength(text) && k <= limit
    {
      if k >= limit {
        CutAfterLines(value, bytes, limit, lines, text);
        return text, true;
      }
      var remaining := bytes - size;
      TakenGrows(value, lines, k, text, bytes);
      if ByteLength(lines[k]) > remaining {
        Utf8PrefixIsBytePrefix(lines[k], remaining);
        CutInLine(value, bytes, limit, lines, k, text, Utf8Prefix(lines[k], remaining));
        return text + Utf8Prefix(lines[k], remaining), true;
      }
      text := text + lines[k];
      size := size + ByteLength(lines[k]);
    }
    NothingCut(value, bytes, limit, lines, text);
    return text, false;
  }

  /** The two routines agree on every text. */
  method TruncatorsAgree(value: string, bytes: nat, limit: nat) returns (text: string, truncated: bool)
    ensures IsCut(value, bytes, limit, text, truncated) && (truncated <==> text != value)
  {
    text, truncated := TruncateRecord(value, bytes, limit);
    var other, otherTruncated := BoundRendered(value, bytes, limit);
    CutIsUnique(value, bytes, limit, text, truncated, other, otherTruncated);
    assert text == other && truncated == otherTruncated;
  }
}
