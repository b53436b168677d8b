/** The stdout pump: lines reassembled from reads cut anywhere, with bounded memory. */
module StdoutPump {
  import opened Utf8

  const MAX_FRAGMENT: nat := 64 * 1024
  const READ_SIZE: nat := 4096
  const NEWLINE: Byte := 10
  const RETURN: Byte := 13

  type Bytes = seq<Byte>

  // ------------------------------------------------------------------ lines

  /** The stream cut at newlines: whole lines, and the unterminated rest last. */
  function Split(s: Bytes): (pieces: seq<Bytes>)
    ensures pieces != []
  {
    if s == [] then [[]]
    else
      var rest := Split(s[1..]);
      if s[0] == NEWLINE then [[]] + rest else [[s[0]] + rest[0]] + rest[1..]
  }

  function WholeLines(s: Bytes): seq<Bytes> {
    Split(s)[..|Split(s)| - 1]
  }

  function Rest(s: Bytes): Bytes {
    Split(s)[|Split(s)| - 1]
  }

  /** `rstrip("\r")`. */
  function StripReturns(line: Bytes): Bytes {
    if line != [] && line[|line| - 1] == RETURN then StripReturns(line[..|line| - 1]) else line
  }

  function Stripped(lines: seq<Bytes>): seq<Bytes> {
    seq(|lines|, k requires 0 <= k < |lines| => StripReturns(lines[k]))
  }

  predicate HasNewline(s: Bytes) {
    NEWLINE in s
  }

  lemma {:induction false} RestHasNoNewline(s: Bytes)
    ensures !HasNewline(Rest(s))
    ensures !HasNewline(s) <==> |Split(s)| == 1
    ensures |Split(s)| == 1 ==> Split(s) == [s]
  {
    if s != [] {
      RestHasNoNewline(s[1..]);
      if s[0] != NEWLINE && |Split(s[1..])| == 1 {
        assert Split(s) == [[s[0]] + Split(s[1..])[0]];
        assert [s[0]] + s[1..] == s;
      }
    }
  }

  /** Two lists of pieces joined at the cut. */
  function Glue(x: seq<Bytes>, y: seq<Bytes>): seq<Bytes>
    requires x != [] && y != []
  {
    x[..|x| - 1] + [x[|x| - 1] + y[0]] + y[1..]
  }

  lemma GlueLonger(first: Bytes, x: seq<Bytes>, y: seq<Bytes>)
    requires x != [] && y != []
    ensures Glue([first] + x, y) == [first] + Glue(x, y)
  {
    assert ([first] + x)[..|x|] == [first] + x[..|x| - 1];
  }

  lemma GlueWider(c: Byte, x: seq<Bytes>, y: seq<Bytes>)
    requires x != [] && y != []
    ensures Glue([[c] + x[0]] + x[1..], y) == [[c] + Glue(x, y)[0]] + Glue(x, y)[1..]
  {
    if |x| == 1 {
      assert ([c] + x[0]) + y[0] == [c] + (x[0] + y[0]);
    } else {
      assert ([[c] + x[0]] + x[1..])[..|x| - 1] == [[c] + x[0]] + x[1..|x| - 1];
      assert x[..|x| - 1] == [x[0]] + x[1..|x| - 1];
    }
  }

  /** The text of two pieces of stream splits into the lines of the first, the line across the
      cut, and the lines of the second. */
  lemma {:induction false} SplitOfConcat(a: Bytes, b: Bytes)
    ensures Split(a + b) == Glue(Split(a), Split(b))
  {
    if a == [] {
      assert a + b == b;
      assert [] + Split(b)[0] == Split(b)[0];
      assert Glue([[]], Split(b)) == [Split(b)[0]] + Split(b)[1..];
    } else {
      assert (a + b)[1..] == a[1..] + b;
      SplitOfConcat(a[1..], b);
      if a[0] == NEWLINE {
        GlueLonger([], Split(a[1..]), Split(b));
      } else {
        GlueWider(a[0], Split(a[1..]), Split(b));
      }
    }
  }

  lemma {:induction false} PiecesAreShort(s: Bytes)
    ensures forall k :: 0 <= k < |Split(s)| ==> |Split(s)[k]| <= |s|
  {
    if s != [] {
      PiecesAreShort(s[1..]);
    }
  }

  lemma GlueAtRest(x: seq<Bytes>, y: seq<Bytes>)
    requires x != [] && y != []
    ensures Glue(x, y) == x[..|x| - 1] + Glue([x[|x| - 1]], y)
  {
  }

  lemma LastOfConcat(x: seq<Bytes>, y: seq<Bytes>)
    requires y != []
    ensures (x + y)[..|x + y| - 1] == x + y[..|y| - 1] && (x + y)[|x + y| - 1] == y[|y| - 1]
  {
  }

  /** Only the rest of the stream so far matters to what comes next. */
  lemma LinesOfConcat(a: Bytes, b: Bytes)
    ensures WholeLines(a + b) == WholeLines(a) + WholeLines(Rest(a) + b)
    ensures Rest(a + b) == Rest(Rest(a) + b)
  {
    SplitOfConcat(a, b);
    SplitOfConcat(Rest(a), b);
    RestHasNoNewline(a);
    RestHasNoNewline(Rest(a));
    GlueAtRest(Split(a), Split(b));
    LastOfConcat(WholeLines(a), Split(Rest(a) + b));
  }

  /** The pieces put together again, with a newline between them. */
  function Unsplit(pieces: seq<Bytes>): Bytes
    requires pieces != []
  {
    if |pieces| == 1 then pieces[0] else pieces[0] + [NEWLINE] + Unsplit(pieces[1..])
  }

  /** Splitting takes out the newlines and nothing else. */
  lemma {:induction false} SplitIsExact(s: Bytes)
    ensures Unsplit(Split(s)) == s
    ensures forall k :: 0 <= k < |Split(s)| ==> !HasNewline(Split(s)[k])
  {
    if s != [] {
      SplitIsExact(s[1..]);
      var rest := Split(s[1..]);
      assert s == [s[0]] + s[1..];
      if s[0] == NEWLINE {
        assert ([[]] + rest)[1..] == rest;
      } else {
        assert Split(s)[1..] == rest[1..];
      }
    }
  }

  /** Returns at the end of a line go, all of them, and nothing else. */
  lemma {:induction false} ReturnsAreStripped(text: Bytes, count: nat)
    requires text != [] ==> text[|text| - 1] != RETURN
    ensures StripReturns(text + seq(count, _ => RETURN)) == text
  {
    if count == 0 {
      assert text + seq(0, _ => RETURN) == text;
    } else {
      var line := text + seq(count, _ => RETURN);
      assert line[..|line| - 1] == text + seq(count - 1, _ => RETURN);
      ReturnsAreStripped(text, count - 1);
    }
  }

  // ----------------------------------------------------------- what is kept

  /** `kept` is `lines` without some that are too long, each stripped; no line kept is longer than
      the buffer can grow. */
  predicate Thinned(kept: seq<Bytes>, lines: seq<Bytes>)
    decreases |lines|
  {
    if lines == [] then kept == []
    else
      var last, before := lines[|lines| - 1], lines[..|lines| - 1];
      || (|last| > MAX_FRAGMENT && Thinned(kept, before))
      || (|last| <= MAX_FRAGMENT + READ_SIZE && kept != [] && kept[|kept| - 1] == StripReturns(last)
          && Thinned(kept[..|kept| - 1], before))
  }

  lemma {:induction false} ThinnedGrows(kept: seq<Bytes>, lines: seq<Bytes>, more: seq<Bytes>)
    requires Thinned(kept, lines) && forall k :: 0 <= k < |more| ==> |more[k]| <= MAX_FRAGMENT + READ_SIZE
    ensures Thinned(kept + Stripped(more), lines + more)
    decreases |more|
  {
    if more == [] {
      assert kept + Stripped(more) == kept && lines + more == lines;
    } else {
      var last, before := more[|more| - 1], more[..|more| - 1];
      ThinnedGrows(kept, lines, before);
      assert lines + more == (lines + before) + [last];
      assert Stripped(more) == Stripped(before) + [StripReturns(last)];
      assert kept + Stripped(more) == (kept + Stripped(before)) + [StripReturns(last)];
      assert (lines + more)[..|lines + more| - 1] == lines + before;
      assert (kept + Stripped(more))[..|kept + Stripped(more)| - 1] == kept + Stripped(before);
    }
  }

  lemma ThinnedSkips(kept: seq<Bytes>, lines: seq<Bytes>, long: Bytes)
    requires Thinned(kept, lines) && |long| > MAX_FRAGMENT
    ensures Thinned(kept, lines + [long])
  {
    assert (lines + [long])[..|lines|] == lines;
  }

  /** With no line too long, everything is kept. */
  lemma {:induction false} NothingThinned(kept: seq<Bytes>, lines: seq<Bytes>)
    requires Thinned(kept, lines) && forall k :: 0 <= k < |lines| ==> |lines[k]| <= MAX_FRAGMENT
    ensures kept == Stripped(lines)
    decreases |lines|
  {
    if lines != [] {
      var before := lines[..|lines| - 1];
      NothingThinned(kept[..|kept| - 1], before);
      assert kept == kept[..|kept| - 1] + [StripReturns(lines[|lines| - 1])];
      assert Stripped(lines) == Stripped(before) + [StripReturns(lines[|lines| - 1])];
    }
  }

  /** What is kept is a selection of the lines in their order, which leaves out only lines that are
      too long. */
  lemma {:induction false} ThinnedSelects(kept: seq<Bytes>, lines: seq<Bytes>) returns (picks: seq<nat>)
    requires Thinned(kept, lines)
    ensures |picks| == |kept| && forall k :: 0 <= k < |picks| ==> picks[k] < |lines| && kept[k] == StripReturns(lines[picks[k]])
    ensures forall j, k :: 0 <= j < k < |picks| ==> picks[j] < picks[k]
    ensures forall n :: 0 <= n < |lines| && |lines[n]| <= MAX_FRAGMENT ==> n in picks
    decreases |lines|
  {
    picks := [];
    if lines != [] {
      var last, before := lines[|lines| - 1], lines[..|lines| - 1];
      if |last| > MAX_FRAGMENT && Thinned(kept, before) {
        picks := ThinnedSelects(kept, before);
      } else {
        picks := ThinnedSelects(kept[..|kept| - 1], before);
        picks := picks + [|before|];
      }
    }
  }

  // --------------------------------------------------------------- the pump

  function Joined(chunks: seq<Bytes>): Bytes
    decreases |chunks|
  {
    if chunks == [] then [] else Joined(chunks[..|chunks| - 1]) + chunks[|chunks| - 1]
  }

  /** The stream is its reads, one after the other. */
  lemma {:induction false} JoinedOfConcat(a: seq<Bytes>, b: seq<Bytes>)
    ensures Joined(a + b) == Joined(a) + Joined(b) && (|a| == 1 ==> Joined(a) == a[0])
    decreases |b|
  {
    assert |a| == 1 ==> Joined(a) == Joined([]) + a[0];
    if b == [] {
      assert a + b == a && Joined(a) + [] == Joined(a);
    } else {
      var before, last := b[..|b| - 1], b[|b| - 1];
      JoinedOfConcat(a, before);
      assert (a + b)[..|a + b| - 1] == a + before;
      assert Joined(a) + (Joined(before) + last) == (Joined(a) + Joined(before)) + last;
    }
  }

  /** The buffer holds the current line, or the end of one that has grown too long. */
  predicate Holds(partial: Bytes, oversized: bool, current: Bytes) {
    && |partial| <= MAX_FRAGMENT
    && !HasNewline(partial)
    && (if oversized then |current| > MAX_FRAGMENT && |partial| <= |current| && current[|current| - |partial|..] == partial
        else partial == current)
  }

  /** Text without a newline only lengthens the first piece of what follows. */
  lemma LineGoesOn(line: Bytes, more: Bytes)
    requires !HasNewline(line)
    ensures Split(line + more) == [line + Split(more)[0]] + Split(more)[1..]
  {
    SplitOfConcat(line, more);
    RestHasNoNewline(line);
  }

  /** A read without a newline. */
  lemma LineGrows(seen: Bytes, chunk: Bytes)
    requires !HasNewline(chunk)
    ensures Rest(seen + chunk) == Rest(seen) + chunk && WholeLines(seen + chunk) == WholeLines(seen)
  {
    LinesOfConcat(seen, chunk);
    RestHasNoNewline(seen);
    RestHasNoNewline(Rest(seen) + chunk);
    assert WholeLines(seen) + [] == WholeLines(seen);
  }

  /** What the buffer and a read with a newline split into. */
  lemma BufferSplits(partial: Bytes, chunk: Bytes)
    requires !HasNewline(partial) && HasNewline(chunk)
    ensures var pieces := Split(partial + chunk);
      |pieces| >= 2 && |pieces[|pieces| - 1]| <= |chunk| && |pieces[0]| >= |partial|
  {
    LineGoesOn(partial, chunk);
    RestHasNoNewline(chunk);
    PiecesAreShort(chunk);
    assert |Split(chunk)| >= 2;
  }

  lemma LineAcross(skipped: Bytes, grown: Bytes)
    requires !HasNewline(skipped) && |Split(grown)| >= 2
    ensures var pieces := Split(grown);
      && WholeLines(skipped + grown) == [skipped + pieces[0]] + pieces[1..|pieces| - 1]
      && Rest(skipped + grown) == pieces[|pieces| - 1]
  {
    LineGoesOn(skipped, grown);
    var pieces := Split(grown);
    assert Split(skipped + grown)[..|pieces| - 1] == [skipped + pieces[0]] + pieces[1..|pieces| - 1];
  }

  /** A read with a newline ends the line the buffer holds, or the end of which it holds. */
  lemma LineEnds(seen: Bytes, partial: Bytes, chunk: Bytes, skipped: Bytes)
    requires Rest(seen) == skipped + partial && |Split(partial + chunk)| >= 2
    ensures var pieces := Split(partial + chunk);
      && WholeLines(seen + chunk) == WholeLines(seen) + [skipped + pieces[0]] + pieces[1..|pieces| - 1]
      && Rest(seen + chunk) == pieces[|pieces| - 1]
  {
    assert !HasNewline(skipped) by {
      RestHasNoNewline(seen);
      assert forall c :: c in skipped ==> c in skipped + partial;
    }
    LinesOfConcat(seen, chunk);
    assert Rest(seen) + chunk == skipped + (partial + chunk);
    LineAcross(skipped, partial + chunk);
  }

  /** The lines a read has ended, all recorded. */
  lemma EndedLinesAreRecorded(recorded: seq<Bytes>, before: seq<Bytes>, lines: seq<Bytes>)
    requires Thinned(recorded, before) && lines != []
    requires forall k :: 0 <= k < |lines| ==> |lines[k]| <= MAX_FRAGMENT + READ_SIZE
    ensures Thinned(recorded + Stripped(lines), before + [lines[0]] + lines[1..])
  {
    assert lines == [lines[0]] + lines[1..];
    assert before + [lines[0]] + lines[1..] == before + lines;
    ThinnedGrows(recorded, before, lines);
  }

  /** The lines a read has ended, the first of them only the end of one that was too long. */
  lemma OversizedLineIsSkipped(recorded: seq<Bytes>, before: seq<Bytes>, first: Bytes, later: seq<Bytes>)
    requires Thinned(recorded, before) && |first| > MAX_FRAGMENT
    requires forall k :: 0 <= k < |later| ==> |later[k]| <= MAX_FRAGMENT + READ_SIZE
    ensures Thinned(recorded + Stripped(later), before + [first] + later)
  {
    ThinnedSkips(recorded, before, first);
    ThinnedGrows(recorded, before + [first], later);
  }

  /** One turn of the pump: a read is appended to the buffer and the lines it ends are recorded. */
  method Append(partial: Bytes, oversized: bool, chunk: Bytes, recorded: seq<Bytes>, ghost seen: Bytes)
    returns (partial': Bytes, oversized': bool, recorded': seq<Bytes>, ghost peak: nat)
    requires 1 <= |chunk| <= READ_SIZE
    requires Holds(partial, oversized, Rest(seen)) && Thinned(recorded, WholeLines(seen))
    ensures Holds(partial', oversized', Rest(seen + chunk)) && Thinned(recorded', WholeLines(seen + chunk))
    ensures peak == |partial| + |chunk| <= MAX_FRAGMENT + READ_SIZE
  {
    partial', oversized', recorded' := partial + chunk, oversized, recorded;
    peak := |partial'|;
    if !HasNewline(partial') {
      NoLineEnded(partial, oversized, chunk, seen);
      if |partial'| > MAX_FRAGMENT {
        partial', oversized' := [], true;
      }
      return;
    }
    ghost var skipped := Rest(seen)[..|Rest(seen)| - |partial|];
    assert NEWLINE in chunk;
    BufferSplits(partial, chunk);
    LineEnds(seen, partial, chunk, skipped);
    RestHasNoNewline(seen + chunk);
    PiecesAreShort(partial');
    var pieces := Split(partial');
    var lines := pieces[..|pieces| - 1];
    assert lines[0] == pieces[0] && lines[1..] == pieces[1..|pieces| - 1];
    partial' := pieces[|pieces| - 1];
    if oversized {
      OversizedLineIsSkipped(recorded, WholeLines(seen), skipped + pieces[0], lines[1..]);
      lines, oversized' := lines[1..], false;
    } else {
      assert skipped + pieces[0] == lines[0];
      EndedLinesAreRecorded(recorded, WholeLines(seen), lines);
    }
    recorded' := recorded + Stripped(lines);
  }

  lemma NoLineEnded(partial: Bytes, oversized: bool, chunk: Bytes, seen: Bytes)
    requires Holds(partial, oversized, Rest(seen)) && !HasNewline(partial + chunk)
    ensures WholeLines(seen + chunk) == WholeLines(seen)
    ensures |partial + chunk| <= MAX_FRAGMENT ==> Holds(partial + chunk, oversized, Rest(seen + chunk))
    ensures |partial + chunk| > MAX_FRAGMENT ==> Holds([], true, Rest(seen + chunk))
  {
    assert forall c :: c in chunk ==> c in partial + chunk;
    LineGrows(seen, chunk);
  }

  /** The lines of a stream that has ended: an unterminated last one counts if it is not empty. */
  function AllLines(s: Bytes): seq<Bytes> {
    if Rest(s) == [] then WholeLines(s) else Split(s)
  }

  lemma NewlineSplits()
    ensures Split([NEWLINE]) == [[], []]
  {
    assert [NEWLINE][1..] == [];
    assert Split([]) == [[]];
  }

  lemma GlueWithEnd(x: seq<Bytes>)
    requires x != []
    ensures Glue(x, [[], []]) == x + [[]]
  {
    var last: Bytes, end: seq<Bytes> := x[|x| - 1], [[], []];
    assert last + [] == last && end[1..] == [[]];
  }

  lemma NewlineEndsLine(s: Bytes)
    ensures WholeLines(s + [NEWLINE]) == Split(s) && Rest(s + [NEWLINE]) == []
  {
    NewlineSplits();
    SplitOfConcat(s, [NEWLINE]);
    GlueWithEnd(Split(s));
  }

  lemma OtherByteLengthensRest(s: Bytes, c: Byte)
    requires c != NEWLINE
    ensures Rest(s + [c]) == Rest(s) + [c]
  {
    LineGrows(s, [c]);
  }

  /** An unterminated last line counts as if a newline had come, and nothing else does. */
  lemma EndCountsAsNewline(s: Bytes)
    ensures AllLines(s) == WholeLines(if s == [] || s[|s| - 1] == NEWLINE then s else s + [NEWLINE])
  {
    if s != [] {
      var front, last := s[..|s| - 1], s[|s| - 1];
      assert s == front + [last];
      if last == NEWLINE {
        NewlineEndsLine(front);
      } else {
        OtherByteLengthensRest(front, last);
        NewlineEndsLine(s);
      }
    }
  }

  /** The end of the stream: what the buffer still holds is a line, if it is not the end of one
      that was too long. */
  method AtEof(partial: Bytes, oversized: bool, recorded: seq<Bytes>, ghost stream: Bytes) returns (recorded': seq<Bytes>)
    requires Holds(partial, oversized, Rest(stream)) && Thinned(recorded, WholeLines(stream))
    ensures Thinned(recorded', AllLines(stream))
  {
    assert WholeLines(stream) + [Rest(stream)] == Split(stream);
    if partial != [] && !oversized {
      ThinnedGrows(recorded, WholeLines(stream), [partial]);
      assert Stripped([partial]) == [StripReturns(partial)];
      return recorded + [StripReturns(partial)];
    }
    if oversized {
      ThinnedSkips(recorded, WholeLines(stream), Rest(stream));
    }
    return recorded;
  }

  /** `_pump`, over reads cut anywhere: every line recorded is a whole line of the stream, only
      lines that are too long are missing, and the buffer stays bounded. `ended` says whether the
      loop was left at the end of the stream, and not by the stop event or a failing read; if not, the
      line in progress is not taken for one. `heights` is how far each read has filled the buffer. */
  method Pump(chunks: seq<Bytes>, ended: bool) returns (recorded: seq<Bytes>, ghost heights: seq<nat>)
    requires forall k :: 0 <= k < |chunks| ==> 1 <= |chunks[k]| <= READ_SIZE
    ensures var due := if ended then AllLines(Joined(chunks)) else WholeLines(Joined(chunks));
      Thinned(recorded, due) && ((forall l :: l in due ==> |l| <= MAX_FRAGMENT) ==> recorded == Stripped(due))
    ensures |heights| == |chunks| && forall k :: 0 <= k < |chunks| ==> |chunks[k]| <= heights[k] <= MAX_FRAGMENT + READ_SIZE
  {
    recorded, heights := [], [];
    var partial: Bytes, oversized := [], false;
    for n := 0 to |chunks|
      invariant Holds(partial, oversized, Rest(Joined(chunks[..n]))) && Thinned(recorded, WholeLines(Joined(chunks[..n])))
      invariant |heights| == n && forall k :: 0 <= k < n ==> |chunks[k]| <= heights[k] <= MAX_FRAGMENT + READ_SIZE
    {
      ghost var height;
      assert chunks[..n + 1][..n] == chunks[..n];
      partial, oversized, recorded, height := Append(partial, oversized, chunks[n], recorded, Joined(chunks[..n]));
      heights := heights + [height];
    }
    assert chunks[..|chunks|] == chunks;
    if ended {
      recorded := AtEof(partial, oversized, recorded, Joined(chunks));
    }
    ghost var due := if ended then AllLines(Joined(chunks)) else WholeLines(Joined(chunks));
    if forall l :: l in due ==> |l| <= MAX_FRAGMENT {
      NothingThinned(recorded, due);
    }
  }
}
