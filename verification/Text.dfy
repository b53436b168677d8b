// Options and the few string operations the supervisor relies on.
module Text {

  datatype Option<+T> = None | Some(value: T)

  /** True of a value that is null or a non-empty string, the reader's rule for optional identifiers. */
  predicate NullOrNonEmpty(s: Option<string>) {
    s.Some? ==> s.value != ""
  }

  predicate PresentNonEmpty(s: Option<string>) {
    s.Some? && s.value != ""
  }

  /** The text of an optional string, with the empty string standing for null (`value or ""`). */
  function OrEmpty(s: Option<string>): string {
    if s.Some? then s.value else ""
  }

  predicate IsSpace(c: char) {
    c == ' ' || ('\t' <= c <= '\r')
  }

  predicate IsHex(c: char) {
    ('0' <= c <= '9') || ('a' <= c <= 'f') || ('A' <= c <= 'F')
  }

  function LowerChar(c: char): char {
    if 'A' <= c <= 'Z' then (c as int + 32) as char else c
  }

  function Lower(s: string): (r: string)
    ensures |r| == |s|
    ensures forall i :: 0 <= i < |s| ==> r[i] == LowerChar(s[i])
  {
    seq(|s|, i requires 0 <= i < |s| => LowerChar(s[i]))
  }

  function StripLeft(s: string): string {
    if s != "" && IsSpace(s[0]) then StripLeft(s[1..]) else s
  }

  function StripRight(s: string): string {
    if s != "" && IsSpace(s[|s| - 1]) then StripRight(s[..|s| - 1]) else s
  }

  function Strip(s: string): string {
    StripRight(StripLeft(s))
  }

  /** The characters meant, by their codes. */
  lemma CharactersAre(c: char)
    ensures var n := c as int;
      && (IsSpace(c) <==> n in {9, 10, 11, 12, 13, 32})
      && (IsHex(c) <==> 48 <= n < 58 || 65 <= n < 71 || 97 <= n < 103)
      && LowerChar(c) as int == (if 65 <= n < 91 then n + 32 else n)
  {
  }

  predicate AllSpaces(s: string) {
    forall k :: 0 <= k < |s| ==> IsSpace(s[k])
  }

  /** What is stripped is white space at either end, and all of it. */
  predicate IsStripped(t: string, s: string) {
    && (exists i, j :: 0 <= i <= j <= |s| && t == s[i..j] && AllSpaces(s[..i]) && AllSpaces(s[j..]))
    && (t != "" ==> !IsSpace(t[0]) && !IsSpace(t[|t| - 1]))
  }

  lemma {:induction false} StripLeftKeeps(s: string) returns (i: nat)
    ensures i <= |s| && StripLeft(s) == s[i..] && AllSpaces(s[..i])
    ensures StripLeft(s) != "" ==> !IsSpace(StripLeft(s)[0])
  {
    i := 0;
    if s != "" && IsSpace(s[0]) {
      var rest := StripLeftKeeps(s[1..]);
      i := rest + 1;
      assert s[1..][rest..] == s[i..];
      assert forall k :: 1 <= k < i ==> s[k] == s[1..][..rest][k - 1];
    }
  }

  lemma {:induction false} StripRightKeeps(s: string) returns (j: nat)
    ensures j <= |s| && StripRight(s) == s[..j] && AllSpaces(s[j..])
    ensures StripRight(s) != "" ==> !IsSpace(StripRight(s)[|StripRight(s)| - 1])
  {
    j := |s|;
    if s != "" && IsSpace(s[|s| - 1]) {
      j := StripRightKeeps(s[..|s| - 1]);
      assert s[..|s| - 1][..j] == s[..j];
      assert forall k :: j <= k < |s| - 1 ==> s[k] == s[..|s| - 1][j..][k - j];
    }
  }

  lemma StripIsExact(s: string)
    ensures IsStripped(Strip(s), s)
  {
    var i := StripLeftKeeps(s);
    var left := s[i..];
    var j := StripRightKeeps(left);
    assert Strip(s) == s[i..i + j];
    assert s[i + j..] == left[j..];
    assert Strip(s) != "" ==> Strip(s)[0] == left[0];
  }
}
