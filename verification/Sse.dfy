/** The server-sent-events parser: a loop over lines that yields what the blocks of the stream say. */
module Sse {
  import opened Utf8

  /** What `json.loads` makes of a block's data; the value itself does not matter here. */
  datatype Parsed<V> = ParsedObject(value: V) | OtherValue | MalformedText

  /** What the parser tells its caller. */
  datatype Emitted<V> = Yielded(value: V) | MalformedNotice | OversizedNotice

  // ------------------------------------------------------------------ lines

  function StripEnd(line: string): string {
    if line != "" && (line[|line| - 1] == '\r' || line[|line| - 1] == '\n') then StripEnd(line[..|line| - 1]) else line
  }

  function StripSpaces(s: string): string {
    if s != "" && s[0] == ' ' then StripSpaces(s[1..]) else s
  }

  datatype Kind = BlankLine | DataLine(payload: string) | OtherLine

  function KindOf(raw: string): Kind {
    var line := StripEnd(raw);
    if line == "" then BlankLine
    else if "data:" <= line then DataLine(StripSpaces(line[5..]))
    else OtherLine
  }

  /** The standard (section 9.2.6 of the HTML Living Standard) removes one leading space only. */
  function StandardPayload(s: string): string {
    if s != "" && s[0] == ' ' then s[1..] else s
  }

  /** The code and the standard agree exactly on payloads without a second leading space. */
  lemma PayloadsAgree(s: string)
    ensures StripSpaces(s) == StandardPayload(s) <==> !("  " <= s)
  {
    StrippedIsShorter(if s == "" then "" else s[1..]);
    if "  " <= s {
      StrippedIsShorter(s[2..]);
      assert StripSpaces(s) == StripSpaces(s[1..]) == StripSpaces(s[2..]) by {
        assert s[1..][1..] == s[2..] && s[1..][0] == ' ';
      }
    }
  }

  lemma {:induction false} StrippedIsShorter(s: string)
    ensures |StripSpaces(s)| <= |s|
  {
    if s != "" {
      StrippedIsShorter(s[1..]);
    }
  }

  // ------------------------------------------------------------- the blocks

  /** The payloads of a block of lines, in order. */
  function Payloads(block: seq<string>): seq<string> {
    if block == [] then []
    else (if KindOf(block[0]).DataLine? then [KindOf(block[0]).payload] else []) + Payloads(block[1..])
  }

  /** The size a block counts for: its payloads' bytes and one more for each. */
  function Weight(payloads: seq<string>): nat {
    if payloads == [] then 0 else ByteLength(payloads[0]) + 1 + Weight(payloads[1..])
  }

  function JoinLines(parts: seq<string>): string {
    if parts == [] then "" else if |parts| == 1 then parts[0] else parts[0] + "\n" + JoinLines(parts[1..])
  }

  /** What one whole block amounts to. */
  function BlockSays<V>(block: seq<string>, cap: nat, parse: string -> Parsed<V>): seq<Emitted<V>> {
    var payloads := Payloads(block);
    if Weight(payloads) > cap then [OversizedNotice]
    else if payloads == [] then []
    else
      match parse(JoinLines(payloads))
      case ParsedObject(value) => [Yielded(value)]
      case OtherValue => []
      case MalformedText => [MalformedNotice]
  }

  /** The lines up to the first blank one. */
  function FirstBlock(lines: seq<string>): (n: nat)
    ensures n <= |lines| && (n < |lines| ==> KindOf(lines[n]).BlankLine?)
    ensures forall k :: 0 <= k < n ==> !KindOf(lines[k]).BlankLine?
  {
    if lines == [] || KindOf(lines[0]).BlankLine? then 0 else 1 + FirstBlock(lines[1..])
  }

  /** The specification: the stream is split at blank lines, each block speaks for itself, and an
      unterminated tail is given up, once it has been seen to be too big if it is. */
  function StreamSays<V>(lines: seq<string>, cap: nat, parse: string -> Parsed<V>): seq<Emitted<V>>
    decreases |lines|
  {
    var n := FirstBlock(lines);
    if n == |lines| then (if Weight(Payloads(lines)) > cap then [OversizedNotice] else [])
    else BlockSays(lines[..n], cap, parse) + StreamSays(lines[n + 1..], cap, parse)
  }

  // ----------------------------------------------------------- the automaton

  datatype Parser = Parser(parts: seq<string>, count: nat, oversized: bool)

  function Fresh(): Parser {
    Parser([], 0, false)
  }

  function Step<V>(p: Parser, raw: string, cap: nat, parse: string -> Parsed<V>): (Parser, seq<Emitted<V>>) {
    match KindOf(raw)
    case BlankLine =>
      if p.parts != [] && !p.oversized then
        (Fresh(),
         match parse(JoinLines(p.parts))
         case ParsedObject(value) => [Yielded(value)]
         case OtherValue => []
         case MalformedText => [MalformedNotice])
      else (Fresh(), [])
    case OtherLine => (p, [])
    case DataLine(payload) =>
      if p.oversized then (p, [])
      else
        var count := p.count + ByteLength(payload) + 1;
        if count > cap then (Parser([], 0, true), [OversizedNotice])
        else (Parser(p.parts + [payload], count, false), [])
  }

  function Run<V>(p: Parser, lines: seq<string>, cap: nat, parse: string -> Parsed<V>): (Parser, seq<Emitted<V>>)
    decreases |lines|
  {
    if lines == [] then (p, [])
    else
      var (q, first) := Step(p, lines[0], cap, parse);
      var (r, rest) := Run(q, lines[1..], cap, parse);
      (r, first + rest)
  }

  /** The parser's memory of the block read so far. */
  predicate Remembers(p: Parser, block: seq<string>, cap: nat) {
    var payloads := Payloads(block);
    if Weight(payloads) > cap then p == Parser([], 0, true)
    else p == Parser(payloads, Weight(payloads), false)
  }

  lemma {:induction false} PayloadsOfConcat(a: seq<string>, b: seq<string>)
    ensures Payloads(a + b) == Payloads(a) + Payloads(b)
  {
    if a == [] {
      assert a + b == b;
    } else {
      assert (a + b)[1..] == a[1..] + b;
      PayloadsOfConcat(a[1..], b);
    }
  }

  lemma {:induction false} WeightOfConcat(a: seq<string>, b: seq<string>)
    ensures Weight(a + b) == Weight(a) + Weight(b)
  {
    if a == [] {
      assert a + b == b;
    } else {
      assert (a + b)[1..] == a[1..] + b;
      WeightOfConcat(a[1..], b);
    }
  }

  /** Within a block the parser only gathers, and says at most once that it is too big. */
  lemma {:induction false} BlockIsGathered<V>(seen: seq<string>, block: seq<string>, p: Parser, cap: nat, parse: string -> Parsed<V>)
    requires Remembers(p, seen, cap) && forall k :: 0 <= k < |block| ==> !KindOf(block[k]).BlankLine?
    ensures var (q, out) := Run(p, block, cap, parse);
      && Remembers(q, seen + block, cap)
      && out == if Weight(Payloads(seen)) <= cap < Weight(Payloads(seen + block)) then [OversizedNotice] else []
    decreases |block|
  {
    if block == [] {
      assert seen + block == seen;
    } else {
      var (q, first) := Step(p, block[0], cap, parse);
      PayloadsOfConcat(seen, [block[0]]);
      assert Payloads([block[0]]) == (if KindOf(block[0]).DataLine? then [KindOf(block[0]).payload] else []) + Payloads([]);
      WeightOfConcat(Payloads(seen), Payloads([block[0]]));
      assert seen + block == (seen + [block[0]]) + block[1..];
      BlockIsGathered(seen + [block[0]], block[1..], q, cap, parse);
      PayloadsOfConcat(seen + [block[0]], block[1..]);
      WeightOfConcat(Payloads(seen + [block[0]]), Payloads(block[1..]));
    }
  }

  lemma {:induction false} RunOfConcat<V>(p: Parser, a: seq<string>, b: seq<string>, cap: nat, parse: string -> Parsed<V>)
    ensures var (q, first) := Run(p, a, cap, parse);
      var (r, rest) := Run(q, b, cap, parse);
      Run(p, a + b, cap, parse) == (r, first + rest)
    decreases |a|
  {
    if a == [] {
      assert a + b == b;
      var rest := Run(p, b, cap, parse).1;
      assert [] + rest == rest;
    } else {
      assert (a + b)[1..] == a[1..] + b;
      var (q, first) := Step(p, a[0], cap, parse);
      RunOfConcat(q, a[1..], b, cap, parse);
      var (r, second) := Run(q, a[1..], cap, parse);
      var third := Run(r, b, cap, parse).1;
      assert first + (second + third) == (first + second) + third;
    }
  }

  lemma RunOfOneMore<V>(p: Parser, a: seq<string>, line: string, cap: nat, parse: string -> Parsed<V>)
    ensures var (q, out) := Run(p, a, cap, parse);
      Run(p, a + [line], cap, parse) == (Step(q, line, cap, parse).0, out + Step(q, line, cap, parse).1)
  {
    RunOfConcat(p, a, [line], cap, parse);
    var (q, out) := Run(p, a, cap, parse);
    var said := Step(q, line, cap, parse);
    assert Run(said.0, [line][1..], cap, parse) == (said.0, []);
    assert Run(q, [line], cap, parse) == (said.0, said.1 + []);
    assert said.1 + [] == said.1;
  }

  /** A blank line brings the parser back to where it began, with the block's say. */
  lemma BlockEnds<V>(block: seq<string>, blank: string, cap: nat, parse: string -> Parsed<V>)
    requires KindOf(blank).BlankLine? && forall k :: 0 <= k < |block| ==> !KindOf(block[k]).BlankLine?
    ensures Run(Fresh(), block + [blank], cap, parse) == (Fresh(), BlockSays(block, cap, parse))
  {
    BlockIsGathered([], block, Fresh(), cap, parse);
    assert [] + block == block;
    RunOfOneMore(Fresh(), block, blank, cap, parse);
    var said := BlockSays(block, cap, parse);
    assert said + [] == said && [] + said == said;
  }

  /** Refinement: line by line the parser says what the stream says block by block. */
  lemma {:induction false} RunSaysWhatStreamSays<V>(lines: seq<string>, cap: nat, parse: string -> Parsed<V>)
    ensures Run(Fresh(), lines, cap, parse).1 == StreamSays(lines, cap, parse)
    decreases |lines|
  {
    var n := FirstBlock(lines);
    if n == |lines| {
      TailIsGivenUp(lines, cap, parse);
    } else {
      var block, after := lines[..n], lines[n + 1..];
      BlockEnds(block, lines[n], cap, parse);
      assert lines == (block + [lines[n]]) + after;
      RunOfConcat(Fresh(), block + [lines[n]], after, cap, parse);
      RunSaysWhatStreamSays(after, cap, parse);
    }
  }

  lemma TailIsGivenUp<V>(lines: seq<string>, cap: nat, parse: string -> Parsed<V>)
    requires FirstBlock(lines) == |lines|
    ensures Run(Fresh(), lines, cap, parse).1 == StreamSays(lines, cap, parse)
  {
    BlockIsGathered([], lines, Fresh(), cap, parse);
    assert [] + lines == lines;
  }

  /** A dropped or malformed event never affects a later one. */
  lemma LaterEventsUnaffected<V>(before: seq<string>, blank: string, after: seq<string>, cap: nat, parse: string -> Parsed<V>)
    requires KindOf(blank).BlankLine?
    ensures Run(Fresh(), before + [blank] + after, cap, parse).1
         == Run(Fresh(), before + [blank], cap, parse).1 + Run(Fresh(), after, cap, parse).1
  {
    RunOfConcat(Fresh(), before, [blank], cap, parse);
    var (q, _) := Run(Fresh(), before, cap, parse);
    RunOfOneMore(Fresh(), before, blank, cap, parse);
    RunOfConcat(Fresh(), before + [blank], after, cap, parse);
  }

  /** What the parser retains never exceeds the cap, nor does the text it joins for parsing. */
  lemma {:induction false} RetainedWithinCap<V>(p: Parser, lines: seq<string>, cap: nat, parse: string -> Parsed<V>)
    requires Weight(p.parts) == p.count <= cap
    ensures var q := Run(p, lines, cap, parse).0;
      Weight(q.parts) == q.count <= cap && ByteLength(JoinLines(q.parts)) <= cap
    decreases |lines|
  {
    if lines == [] {
      JoinedWithinWeight(p.parts);
    } else {
      var kind := KindOf(lines[0]);
      if kind.DataLine? {
        WeightOfConcat(p.parts, [kind.payload]);
      }
      RetainedWithinCap(Step(p, lines[0], cap, parse).0, lines[1..], cap, parse);
    }
  }

  lemma {:induction false} JoinedWithinWeight(parts: seq<string>)
    ensures ByteLength(JoinLines(parts)) <= Weight(parts)
  {
    if |parts| > 1 {
      JoinedWithinWeight(parts[1..]);
      ByteLengthOfConcat(parts[0], "\n" + JoinLines(parts[1..]));
      ByteLengthOfConcat("\n", JoinLines(parts[1..]));
      assert parts[0] + "\n" + JoinLines(parts[1..]) == parts[0] + ("\n" + JoinLines(parts[1..]));
      assert ByteLength("\n") == 1;
    }
  }

  // ------------------------------------------------------------ what it reads

  predicate IsLineEnd(s: string) {
    forall k :: 0 <= k < |s| ==> s[k] == '\r' || s[k] == '\n'
  }

  predicate IsBlanks(s: string) {
    forall k :: 0 <= k < |s| ==> s[k] == ' '
  }

  /** A text that does not end in a line terminator. */
  predicate IsUnterminated(s: string) {
    s != "" ==> s[|s| - 1] != '\r' && s[|s| - 1] != '\n'
  }

  lemma {:induction false} EndIsStripped(text: string, end: string)
    requires IsUnterminated(text) && IsLineEnd(end)
    ensures StripEnd(text + end) == text
  {
    if end == "" {
      assert text + end == text;
    } else {
      assert (text + end)[..|text + end| - 1] == text + end[..|end| - 1];
      EndIsStripped(text, end[..|end| - 1]);
    }
  }

  lemma {:induction false} BlanksAreStripped(blanks: string, text: string)
    requires IsBlanks(blanks) && !(" " <= text)
    ensures StripSpaces(blanks + text) == text
  {
    if blanks == "" {
      assert blanks + text == text;
    } else {
      assert (blanks + text)[1..] == blanks[1..] + text;
      BlanksAreStripped(blanks[1..], text);
    }
  }

  /** A `data:` line carries what is between the blanks after the colon and the line's end. */
  lemma DataLineCarries(blanks: string, payload: string, end: string)
    requires IsBlanks(blanks) && !(" " <= payload) && IsUnterminated(payload) && IsLineEnd(end)
    ensures KindOf("data:" + blanks + payload + end) == DataLine(payload)
  {
    var line := "data:" + blanks + payload;
    EndIsStripped(line, end);
    BlanksAreStripped(blanks, payload);
    assert line[5..] == blanks + payload;
  }

  /** Comments and other fields carry nothing, and only line terminators make a blank line. */
  lemma OtherLinesCarryNothing(text: string, end: string)
    requires IsUnterminated(text) && IsLineEnd(end) && !("data:" <= text)
    ensures KindOf(text + end) == if text == "" then BlankLine else OtherLine
  {
    EndIsStripped(text, end);
  }

  /** A field of an event: a payload with the blanks before it and the terminators after it, or
      another line. */
  datatype EventLine = Data(blanks: string, payload: string, end: string) | Comment(text: string, end: string)

  predicate ValidLine(l: EventLine) {
    match l
    case Data(blanks, payload, end) => IsBlanks(blanks) && !(" " <= payload) && IsUnterminated(payload) && IsLineEnd(end)
    case Comment(text, end) => text != "" && IsUnterminated(text) && IsLineEnd(end) && !("data:" <= text)
  }

  function Rendered(lines: seq<EventLine>): seq<string> {
    seq(|lines|, k requires 0 <= k < |lines| =>
      match lines[k]
      case Data(blanks, payload, end) => "data:" + blanks + payload + end
      case Comment(text, end) => text + end)
  }

  function DataOf(lines: seq<EventLine>): seq<string> {
    if lines == [] then [] else (if lines[0].Data? then [lines[0].payload] else []) + DataOf(lines[1..])
  }

  lemma {:induction false} RenderedCarries(lines: seq<EventLine>)
    requires forall l :: l in lines ==> ValidLine(l)
    ensures Payloads(Rendered(lines)) == DataOf(lines)
    ensures forall k :: 0 <= k < |lines| ==> !KindOf(Rendered(lines)[k]).BlankLine?
  {
    if lines != [] {
      var text := Rendered(lines);
      assert lines[0] in lines && forall l :: l in lines[1..] ==> l in lines;
      RenderedCarries(lines[1..]);
      assert text[1..] == Rendered(lines[1..]);
      match lines[0]
      case Data(blanks, payload, end) => DataLineCarries(blanks, payload, end);
      case Comment(text, end) => OtherLinesCarryNothing(text, end);
    }
  }

  lemma {:induction false} WeightIsJoinedSize(payloads: seq<string>)
    requires payloads != []
    ensures Weight(payloads) == ByteLength(JoinLines(payloads)) + 1
  {
    if |payloads| > 1 {
      WeightIsJoinedSize(payloads[1..]);
      ByteLengthOfConcat(payloads[0], "\n" + JoinLines(payloads[1..]));
      ByteLengthOfConcat("\n", JoinLines(payloads[1..]));
      assert payloads[0] + "\n" + JoinLines(payloads[1..]) == payloads[0] + ("\n" + JoinLines(payloads[1..]));
      assert ByteLength("\n") == 1;
    } else {
      assert Weight(payloads[1..]) == 0;
    }
  }

  /** Payloads come joined by single newlines. */
  lemma {:induction false} JoinOfConcat(a: seq<string>, b: seq<string>)
    requires a != [] && b != []
    ensures JoinLines(a + b) == JoinLines(a) + "\n" + JoinLines(b)
    ensures |a| == 1 ==> JoinLines(a) == a[0]
  {
    assert (a + b)[1..] == a[1..] + b;
    if |a| > 1 {
      JoinOfConcat(a[1..], b);
      assert a[0] + "\n" + (JoinLines(a[1..]) + "\n" + JoinLines(b)) == (a[0] + "\n" + JoinLines(a[1..])) + "\n" + JoinLines(b);
    }
  }

  /** Round trip: an event written out line by line is read as the object its joined data parses to,
      exactly as long as the data with one byte more is within the cap; wherever the stream goes on. */
  lemma EventIsRead<V>(event: seq<EventLine>, blank: string, after: seq<string>, cap: nat, parse: string -> Parsed<V>)
    requires (forall l :: l in event ==> ValidLine(l)) && DataOf(event) != [] && IsLineEnd(blank)
    ensures var text := JoinLines(DataOf(event));
      var said := if ByteLength(text) + 1 > cap then [OversizedNotice]
                  else match parse(text)
                       case ParsedObject(value) => [Yielded(value)]
                       case OtherValue => []
                       case MalformedText => [MalformedNotice];
      StreamSays(Rendered(event) + [blank] + after, cap, parse) == said + StreamSays(after, cap, parse)
  {
    RenderedCarries(event);
    WeightIsJoinedSize(DataOf(event));
    assert "" + blank == blank;
    OtherLinesCarryNothing("", blank);
    var block := Rendered(event);
    var lines := block + [blank] + after;
    FirstBlockIs(block, blank, after);
    assert lines[..|block|] == block && lines[|block| + 1..] == after;
  }

  lemma FirstBlockIs(block: seq<string>, blank: string, after: seq<string>)
    requires KindOf(blank).BlankLine? && forall k :: 0 <= k < |block| ==> !KindOf(block[k]).BlankLine?
    ensures FirstBlock(block + [blank] + after) == |block|
  {
    var lines := block + [blank] + after;
    assert lines[|block|] == blank && forall k :: 0 <= k < |block| ==> lines[k] == block[k];
  }

  /** `iter_sse_json`. */
  method IterSseJson<V>(lines: seq<string>, cap: nat, parse: string -> Parsed<V>) returns (out: seq<Emitted<V>>)
    ensures out == StreamSays(lines, cap, parse)
  {
    out := [];
    var parts: seq<string>, count: nat, oversized := [], 0, false;
    for k := 0 to |lines|
      invariant (Parser(parts, count, oversized), out) == Run(Fresh(), lines[..k], cap, parse)
      invariant Weight(parts) == count <= cap
    {
      assert lines[..k + 1] == lines[..k] + [lines[k]];
      RunOfOneMore(Fresh(), lines[..k], lines[k], cap, parse);
      assert out + [] == out;
      var line := StripEnd(lines[k]);
      if line == "" {
        if parts != [] && !oversized {
          var parsed := parse(JoinLines(parts));
          match parsed {
            case ParsedObject(value) => out := out + [Yielded(value)];
            case OtherValue =>
            case MalformedText => out := out + [MalformedNotice];
          }
        }
        parts, count, oversized := [], 0, false;
      } else if "data:" <= line && !oversized {
        var payload := StripSpaces(line[5..]);
        WeightOfConcat(parts, [payload]);
        count := count + ByteLength(payload) + 1;
        if count > cap {
          out := out + [OversizedNotice];
          parts, count, oversized := [], 0, true;
        } else {
          parts := parts + [payload];
        }
      }
    }
    assert lines[..|lines|] == lines;
    RunSaysWhatStreamSays(lines, cap, parse);
  }
}
