/** Recorder and checker agree: the history of an uninterrupted run is complete. */
module Recording {
  import opened Text
  import opened Document
  import opened Repository
  import opened Transitions
  import opened Termination
  import opened Carrying
  import opened ResetTable
  import opened History

  // --------------------------------------------------------------- recorder

  /** `_build_record`, for a step that returned. */
  function Written(number: nat, s: Step, at: int): Record
    requires s.result.Returned?
  {
    Record(number, s.result.phaseBefore, s.result.phaseAfter, s.result.status, at, s.mem.body.counters, s.mem.operationalRetries)
  }

  function LeafOf(r: Record): Leaf {
    Leaf(r.number, r.phase, Some(r))
  }

  /** The number a name begins with, if any. */
  function NumberIn(l: Leaf): Option<nat> {
    if l.Leaf? then Some(l.number) else l.prefix
  }

  /** `_existing_seq_numbers` and their maximum. */
  function LargestNumber(leaves: seq<Leaf>): (n: nat)
    ensures forall l :: l in leaves && NumberIn(l).Some? ==> NumberIn(l).value <= n
    ensures n == 0 || exists l :: l in leaves && NumberIn(l) == Some(n)
  {
    if leaves == [] then 0
    else
      var last, before := NumberIn(leaves[|leaves| - 1]), LargestNumber(leaves[..|leaves| - 1]);
      assert leaves == leaves[..|leaves| - 1] + [leaves[|leaves| - 1]];
      if last.Some? && last.value > before then last.value else before
  }

  class PhaseHistoryRecorder {
    var nextSeq: Option<nat>
    // The run's history directory.
    var directory: seq<Leaf>

    constructor (directory: seq<Leaf>)
      ensures nextSeq.None? && this.directory == directory
    {
      nextSeq := None;
      this.directory := directory;
    }

    /** The number the next record will get. */
    function Next(): nat
      reads this
    {
      if nextSeq.Some? then nextSeq.value else LargestNumber(directory) + 1
    }

    /** `on_advance`: a failing write is swallowed, and its number is not used again. */
    method OnAdvance(s: Step, at: int, writeWorks: bool)
      requires s.result.Returned?
      modifies this
      ensures nextSeq == Some(old(Next()) + 1)
      ensures directory == old(directory) + (if writeWorks then [LeafOf(Written(old(Next()), s, at))] else [])
    {
      var number := if nextSeq.Some? then nextSeq.value else LargestNumber(directory) + 1;
      nextSeq := Some(number + 1);
      if writeWorks {
        directory := directory + [LeafOf(Written(number, s, at))];
      }
    }
  }

  // ------------------------------------------------------ record to record

  /** The save after a finished transition worked. */
  predicate TransitionSaved(d: Doc, g: Git, i: StepInput)
    requires HasMain(g) && |i.runs| == |d.body.options.verifyCommands| && !IsTerminal(d.phase)
  {
    var s := Advance(d, g, i);
    s.result.Returned? && (Dispatch(d, g, i).raise.NoRaise? ==> !s.result.status.OperationalFailureStatus?)
  }

  lemma ConclusionReports(d: Doc, x: Dispatched, i: StepInput)
    requires HasMain(x.git)
    ensures var s := Concluded(d, x, i);
      s.result.Returned? ==>
        && s.result.phaseBefore == d.phase && s.result.phaseAfter == s.mem.phase
        && (s.result.status.InputUnavailable? ==> d.phase.AwaitingInput? && s.mem.operationalRetries == d.operationalRetries)
        && (s.result.status.TerminalStatus? ==> s.mem.operationalRetries == d.operationalRetries && x.raise.LoopFailure?)
  {
  }

  /** What precedes a step: nothing, or the record of a state the step goes on from. */
  predicate Precedes(r: Record, d: Doc, at: int) {
    r.phaseAfter == d.phase && r.counters == d.body.counters && r.retries <= d.operationalRetries && r.at <= at
  }

  /** The retry count is kept, or reset by a success. */
  lemma RetriesFollow(d: Doc, x: Dispatched, i: StepInput, r: Record, number: nat, at: int)
    requires HasMain(x.git) && Concluded(d, x, i).result.Returned? && r.retries <= d.operationalRetries
    ensures CounterAgrees(r, Written(number, Concluded(d, x, i), at), OperationalRetryCount)
  {
    ConclusionHolds(d, x, i);
    ConclusionReports(d, x, i);
  }

  /** A building step that ends in a later phase of its own task has simply advanced. */
  lemma FieldFollows(d: Doc, x: Dispatched, i: StepInput, r: Record, number: nat, at: int, f: Field)
    requires HasMain(x.git) && Concluded(d, x, i).result.Returned?
    requires r.counters == d.body.counters && !f.OperationalRetryCount? && FieldMoves(d.body, d.phase, x, f)
    requires x.raise.NoRaise? ==> !Concluded(d, x, i).result.status.OperationalFailureStatus?
    requires Concluded(d, x, i).mem.body == x.body && !IsTerminal(d.phase)
    requires Concluded(d, x, i).result.phaseAfter == if x.raise.NoRaise? then x.phase else Concluded(d, x, i).mem.phase
    requires d.phase.Building? && (x.phase.Verifying? || x.phase.Auditing?) && x.raise.NoRaise? ==>
               Concluded(d, x, i).result.status.Advanced?
    requires Concluded(d, x, i).result.phaseBefore == d.phase
    ensures CounterAgrees(r, Written(number, Concluded(d, x, i), at), f)
  {
  }

  lemma SavedTransitionReports(d: Doc, x: Dispatched, i: StepInput)
    requires HasMain(x.git) && x.raise.NoRaise? && Concluded(d, x, i).result.Returned?
    requires !Concluded(d, x, i).result.status.OperationalFailureStatus?
    ensures Concluded(d, x, i).result.phaseAfter == x.phase && Concluded(d, x, i).mem.body == x.body
    ensures Concluded(d, x, i).result.status == SuccessStatus(d.phase, x.phase, i)
  {
  }

  lemma StepFollows(d: Doc, g: Git, i: StepInput, r: Record, number: nat, at: int)
    requires HasMain(g) && PlanKept(d.body, EffectivePhase(d)) && !IsTerminal(d.phase)
    requires |i.runs| == |d.body.options.verifyCommands|
    requires TransitionSaved(d, g, i) && Precedes(r, d, at)
    ensures Follows(r, Written(number, Advance(d, g, i), at))
  {
    var x := Dispatch(d, g, i);
    DispatchMoves(d, g, i);
    ConclusionReports(d, x, i);
    if x.raise.NoRaise? {
      SavedTransitionReports(d, x, i);
    }
    ConclusionHolds(d, x, i);
    forall f: Field
      ensures CounterAgrees(r, Written(number, Concluded(d, x, i), at), f)
    {
      assert FieldMoves(d.body, d.phase, x, f);
      if f.OperationalRetryCount? {
        RetriesFollow(d, x, i, r, number, at);
      } else {
        FieldFollows(d, x, i, r, number, at, f);
      }
    }
  }

  // ------------------------------------------------------------- whole runs

  /** Whatever can be loaded and goes on has its complete plan. */
  lemma LoadedKeepsPlan(d: Doc)
    requires Loads(d) && !IsTerminal(d.phase)
    ensures PlanKept(d.body, EffectivePhase(d))
  {
  }

  /** One step of a recorded run and the time of its record. */
  datatype Stroke = Stroke(i: StepInput, at: int)

  /** An uninterrupted run of `run()`: transitions are saved and the clock is monotone. */
  predicate GoodRun(d: Doc, g: Git, strokes: seq<Stroke>)
    decreases strokes
  {
    strokes == [] ||
    (var i := strokes[0].i;
     && HasMain(g) && InputFits(d.body, g, i) && !IsTerminal(d.phase) && TransitionSaved(d, g, i)
     && (|strokes| > 1 ==>
           && strokes[0].at <= strokes[1].at
           && Iterate(d, g, i).GoesOn?
           && GoodRun(Iterate(d, g, i).doc, Iterate(d, g, i).git, strokes[1..])))
  }

  /** The records of a run, numbered from `number`. */
  function Records(d: Doc, g: Git, strokes: seq<Stroke>, number: nat): seq<Record>
    requires GoodRun(d, g, strokes)
    decreases strokes
  {
    if strokes == [] then []
    else
      var i := strokes[0].i;
      [Written(number, Advance(d, g, i), strokes[0].at)]
      + if |strokes| == 1 then [] else Records(Iterate(d, g, i).doc, Iterate(d, g, i).git, strokes[1..], number + 1)
  }

  /** The next iteration has its complete plan, too. */
  lemma IterationKeepsPlan(d: Doc, g: Git, i: StepInput)
    requires HasMain(g) && InputFits(d.body, g, i) && PlanKept(d.body, EffectivePhase(d)) && !IsTerminal(d.phase)
    requires TransitionSaved(d, g, i) && Iterate(d, g, i).GoesOn?
    ensures var next := Iterate(d, g, i).doc;
      HasMain(Iterate(d, g, i).git) && (IsTerminal(next.phase) || PlanKept(next.body, EffectivePhase(next)))
  {
    DispatchFollowsPlan(d, g, i);
    ContinuationKeepsPlan(d, Dispatch(d, g, i), i);
  }

  lemma ContinuationKeepsPlan(d: Doc, x: Dispatched, i: StepInput)
    requires HasMain(x.git) && PlanFollows(x, d.phase) && Continuation(d, x, i).GoesOn?
    requires x.raise.NoRaise? ==> !Concluded(d, x, i).result.status.OperationalFailureStatus?
    requires Concluded(d, x, i).result.Returned?
    ensures var next := Continuation(d, x, i).doc;
      Continuation(d, x, i).git == x.git && (IsTerminal(next.phase) || PlanKept(next.body, EffectivePhase(next)))
  {
    var s := Concluded(d, x, i);
    ConclusionHolds(d, x, i);
    if s.result.status.OperationalFailureStatus? {
      CountedRetryKeeps(s.mem, s.git, i.retrySave);
    }
  }

  /** The run goes on from what it recorded. */
  lemma WrittenPrecedes(d: Doc, x: Dispatched, i: StepInput, number: nat, at: int, later: int)
    requires HasMain(x.git) && Continuation(d, x, i).GoesOn? && at <= later
    ensures Concluded(d, x, i).result.Returned?
    ensures Precedes(Written(number, Concluded(d, x, i), at), Continuation(d, x, i).doc, later)
  {
    var s := Concluded(d, x, i);
    ConclusionReports(d, x, i);
    if s.result.status.OperationalFailureStatus? {
      CountedRetryKeeps(s.mem, x.git, i.retrySave);
    }
  }

  /** Numbered one after the other, each following the one before. */
  predicate Chained(records: seq<Record>, number: nat) {
    && (forall k :: 0 <= k < |records| ==> records[k].number == number + k)
    && (forall k :: 0 <= k < |records| - 1 ==> Follows(records[k], records[k + 1]))
  }

  lemma ChainGrows(r: Record, rest: seq<Record>, number: nat)
    requires r.number == number && Chained(rest, number + 1) && (rest != [] ==> Follows(r, rest[0]))
    ensures Chained([r] + rest, number)
  {
    var records := [r] + rest;
    forall k | 0 <= k < |records| - 1
      ensures Follows(records[k], records[k + 1])
    {
      assert k > 0 ==> records[k] == rest[k - 1] && records[k + 1] == rest[k];
    }
  }

  lemma RunGoesOn(d: Doc, g: Git, strokes: seq<Stroke>, number: nat)
    requires PlanKept(d.body, EffectivePhase(d)) && GoodRun(d, g, strokes) && |strokes| > 1
    ensures var next := Iterate(d, g, strokes[0].i);
      && PlanKept(next.doc.body, EffectivePhase(next.doc)) && Advance(d, g, strokes[0].i).result.Returned?
      && Precedes(Written(number, Advance(d, g, strokes[0].i), strokes[0].at), next.doc, strokes[1].at)
  {
    var i := strokes[0].i;
    IterationKeepsPlan(d, g, i);
    WrittenPrecedes(d, Dispatch(d, g, i), i, number, strokes[0].at, strokes[1].at);
  }

  /** Along a run each record follows the one before. */
  lemma {:induction false} RecordsFollow(d: Doc, g: Git, strokes: seq<Stroke>, number: nat, r: Record)
    requires PlanKept(d.body, EffectivePhase(d)) && GoodRun(d, g, strokes) && strokes != [] && Precedes(r, d, strokes[0].at)
    ensures var records := Records(d, g, strokes, number);
      |records| == |strokes| && Follows(r, records[0]) && Chained(records, number)
    decreases strokes
  {
    var i := strokes[0].i;
    var w := Written(number, Advance(d, g, i), strokes[0].at);
    StepFollows(d, g, i, r, number, strokes[0].at);
    if |strokes| == 1 {
      ChainGrows(w, [], number);
      assert Records(d, g, strokes, number) == [w] + [];
    } else {
      var next := Iterate(d, g, i);
      RunGoesOn(d, g, strokes, number);
      RecordsFollow(next.doc, next.git, strokes[1..], number + 1, w);
      ChainGrows(w, Records(next.doc, next.git, strokes[1..], number + 1), number);
    }
  }

  // -------------------------------------------------------------- agreement

  /** A directory holding exactly these records, in any order. */
  ghost predicate HoldsRecords(leaves: seq<Leaf>, records: seq<Record>) {
    && |leaves| == |records|
    && (forall k :: 0 <= k < |records| ==> LeafOf(records[k]) in leaves)
    && (forall l :: l in leaves ==> exists k :: 0 <= k < |records| && l == LeafOf(records[k]))
    && (forall a, b :: 0 <= a < b < |leaves| ==> leaves[a] != leaves[b])
  }

  lemma {:induction false} OnlyOneStands(leaves: seq<Leaf>, l: Leaf)
    requires l in leaves && l.Leaf?
    requires forall a, b :: 0 <= a < b < |leaves| ==> leaves[a] != leaves[b]
    requires forall o :: o in leaves && HasNumber(o, l.number) ==> o == l
    ensures WithNumber(leaves, l.number) == [l]
  {
    var last, before := leaves[|leaves| - 1], leaves[..|leaves| - 1];
    assert leaves == before + [last];
    if last == l {
      NoneWithNumber(before, l.number);
    } else {
      assert l in before;
      OnlyOneStands(before, l);
    }
  }

  lemma {:induction false} NoneWithNumber(leaves: seq<Leaf>, n: nat)
    requires forall o :: o in leaves ==> !HasNumber(o, n)
    ensures WithNumber(leaves, n) == []
  {
    if leaves != [] {
      NoneWithNumber(leaves[..|leaves| - 1], n);
    }
  }

  predicate HasRecord(entries: seq<Record>, m: nat) {
    exists r :: r in entries && r.number == m
  }

  /** Ascending numbers that are exactly 1 to `n` are 1 to `n` in order. */
  lemma {:induction false} AscendingCovers(entries: seq<Record>, n: nat, k: nat)
    requires forall j :: 0 <= j < |entries| - 1 ==> entries[j].number < entries[j + 1].number
    requires forall r :: r in entries ==> 1 <= r.number <= n
    requires forall m: nat :: 1 <= m <= n ==> HasRecord(entries, m)
    requires k < |entries|
    ensures entries[k].number == k + 1
  {
    if k > 0 {
      AscendingCovers(entries, n, k - 1);
    }
    assert entries[k] in entries;
    if k + 1 <= n {
      assert HasRecord(entries, k + 1);
      var r :| r in entries && r.number == k + 1;
      var m :| 0 <= m < |entries| && entries[m] == r;
      if m < k {
        Ascends(entries, m, k - 1);
      } else {
        Ascends(entries, k, m);
      }
    }
  }

  lemma {:induction false} Ascends(entries: seq<Record>, a: nat, b: nat)
    requires forall j :: 0 <= j < |entries| - 1 ==> entries[j].number < entries[j + 1].number
    requires a <= b < |entries|
    ensures entries[a].number <= entries[b].number && (a < b ==> entries[a].number < entries[b].number)
    decreases b
  {
    if a < b {
      Ascends(entries, a, b - 1);
      assert entries[b - 1].number < entries[b].number;
    }
  }

  /** What is listed are the records themselves. */
  lemma ListedAreRecords(records: seq<Record>, leaves: seq<Leaf>, entries: seq<Record>)
    requires Chained(records, 1) && HoldsRecords(leaves, records) && Lists(entries, leaves)
    ensures forall l :: l in leaves ==> Stands(leaves, l)
    ensures forall r :: r in entries ==> 1 <= r.number <= |records| && r == records[r.number - 1]
    ensures forall m: nat :: 1 <= m <= |records| ==> HasRecord(entries, m)
  {
    forall l | l in leaves
      ensures Stands(leaves, l)
    {
      OnlyOneStands(leaves, l);
    }
    EntriesAreRecords(records, leaves, entries);
    forall m: nat | 1 <= m <= |records|
      ensures HasRecord(entries, m)
    {
      assert LeafOf(records[m - 1]) in leaves;
      assert LeafOf(records[m - 1]).content.value in entries;
    }
  }

  lemma EntriesAreRecords(records: seq<Record>, leaves: seq<Leaf>, entries: seq<Record>)
    requires Chained(records, 1) && HoldsRecords(leaves, records) && Lists(entries, leaves)
    ensures forall r :: r in entries ==> 1 <= r.number <= |records| && r == records[r.number - 1]
  {
    forall r | r in entries
      ensures 1 <= r.number <= |records| && r == records[r.number - 1]
    {
      var l :| l in leaves && Stands(leaves, l) && l.content.value == r;
    }
  }

  /** Numbered from 1 and following each other, the records are a flawless history. */
  lemma RecordsAreFlawless(records: seq<Record>, leaves: seq<Leaf>, entries: seq<Record>)
    requires Chained(records, 1) && HoldsRecords(leaves, records) && Lists(entries, leaves)
    ensures Flawless(entries, leaves)
  {
    ListedAreRecords(records, leaves, entries);
    forall k | 0 <= k < |entries|
      ensures entries[k].number == k + 1 && k < |records| && entries[k] == records[k]
    {
      AscendingCovers(entries, |records|, k);
      assert entries[k] in entries;
    }
  }

  /** The records of a run, in a directory that held none. */
  lemma ChainedHistoryIsComplete(records: seq<Record>, leaves: seq<Leaf>, entries: seq<Record>)
    requires Chained(records, 1) && HoldsRecords(leaves, records) && Lists(entries, Enumerated(leaves).0)
    ensures (!Enumerated(leaves).1 && leaves != [] && Flawless(entries, Enumerated(leaves).0)) <==> 1 <= |leaves| <= MAX_LEAVES
  {
    if |leaves| <= MAX_LEAVES {
      RecordsAreFlawless(records, leaves, entries);
    }
  }

  lemma RunIsChained(d: Doc, g: Git, strokes: seq<Stroke>)
    requires PlanKept(d.body, EffectivePhase(d)) && GoodRun(d, g, strokes)
    ensures Chained(Records(d, g, strokes, 1), 1) && |Records(d, g, strokes, 1)| == |strokes|
  {
    if strokes != [] {
      RecordsFollow(d, g, strokes, 1, Record(0, d.phase, d.phase, Advanced, strokes[0].at, d.body.counters, d.operationalRetries));
    }
  }

  /** Recorder/checker agreement: the history of an uninterrupted run, recorded into an empty
      directory, loads as complete if and only if it has at least one record and no more than the
      loader looks at. */
  lemma UninterruptedHistoryIsComplete(d: Doc, g: Git, strokes: seq<Stroke>, leaves: seq<Leaf>, entries: seq<Record>)
    requires PlanKept(d.body, EffectivePhase(d)) && GoodRun(d, g, strokes)
    requires HoldsRecords(leaves, Records(d, g, strokes, 1)) && Lists(entries, Enumerated(leaves).0)
    ensures (!Enumerated(leaves).1 && leaves != [] && Flawless(entries, Enumerated(leaves).0)) <==> 1 <= |leaves| <= MAX_LEAVES
  {
    RunIsChained(d, g, strokes);
    ChainedHistoryIsComplete(Records(d, g, strokes, 1), leaves, entries);
  }

  // -------------------------------------------------------------- end to end

  function LeavesOf(records: seq<Record>): seq<Leaf> {
    seq(|records|, k requires 0 <= k < |records| => LeafOf(records[k]))
  }

  /** What the callback of `run()` is called with, and when. */
  datatype Call = Call(step: Step, at: int)

  predicate AllReturned(calls: seq<Call>) {
    forall k :: 0 <= k < |calls| ==> calls[k].step.result.Returned?
  }

  function WrittenAll(calls: seq<Call>, number: nat): seq<Record>
    requires AllReturned(calls)
  {
    seq(|calls|, k requires 0 <= k < |calls| => Written(number + k, calls[k].step, calls[k].at))
  }

  /** The recorder as the callback of `run()`. */
  method RecordCalls(recorder: PhaseHistoryRecorder, calls: seq<Call>)
    requires AllReturned(calls)
    modifies recorder
    ensures recorder.directory == old(recorder.directory) + LeavesOf(WrittenAll(calls, old(recorder.Next())))
  {
    ghost var leaves := LeavesOf(WrittenAll(calls, recorder.Next()));
    for k := 0 to |calls|
      invariant recorder.Next() == old(recorder.Next()) + k
      invariant recorder.directory == old(recorder.directory) + leaves[..k]
    {
      recorder.OnAdvance(calls[k].step, calls[k].at, true);
      assert leaves[..k + 1] == leaves[..k] + [leaves[k]];
    }
    assert leaves[..|calls|] == leaves;
  }

  /** The calls an uninterrupted run makes. */
  function CallsOf(d: Doc, g: Git, strokes: seq<Stroke>): (calls: seq<Call>)
    requires GoodRun(d, g, strokes)
    ensures AllReturned(calls)
    decreases strokes
  {
    if strokes == [] then []
    else
      var i := strokes[0].i;
      [Call(Advance(d, g, i), strokes[0].at)]
      + if |strokes| == 1 then [] else CallsOf(Iterate(d, g, i).doc, Iterate(d, g, i).git, strokes[1..])
  }

  lemma WrittenOneMore(first: Call, rest: seq<Call>, number: nat)
    requires first.step.result.Returned? && AllReturned(rest)
    ensures AllReturned([first] + rest)
    ensures WrittenAll([first] + rest, number) == [Written(number, first.step, first.at)] + WrittenAll(rest, number + 1)
  {
  }

  lemma {:induction false} RecordsAreWritten(d: Doc, g: Git, strokes: seq<Stroke>, number: nat)
    requires GoodRun(d, g, strokes)
    ensures WrittenAll(CallsOf(d, g, strokes), number) == Records(d, g, strokes, number)
    decreases strokes
  {
    if strokes != [] {
      var next := Iterate(d, g, strokes[0].i);
      var first := Call(Advance(d, g, strokes[0].i), strokes[0].at);
      if |strokes| > 1 {
        RecordsAreWritten(next.doc, next.git, strokes[1..], number + 1);
        WrittenOneMore(first, CallsOf(next.doc, next.git, strokes[1..]), number);
      } else {
        WrittenOneMore(first, [], number);
      }
    }
  }

  lemma RecordsAreHeld(records: seq<Record>)
    requires Chained(records, 1)
    ensures HoldsRecords(LeavesOf(records), records)
  {
    var leaves := LeavesOf(records);
    forall k | 0 <= k < |records|
      ensures LeafOf(records[k]) in leaves
    {
      assert leaves[k] == LeafOf(records[k]);
    }
    forall l | l in leaves
      ensures exists k :: 0 <= k < |records| && l == LeafOf(records[k])
    {
      var k :| 0 <= k < |leaves| && leaves[k] == l;
      assert l == LeafOf(records[k]);
    }
  }

  method LoadChained(leaves: seq<Leaf>, ghost records: seq<Record>) returns (entries: seq<Record>, status: HistoryStatus)
    requires Chained(records, 1) && HoldsRecords(leaves, records)
    ensures status.Complete? <==> 1 <= |records| <= MAX_LEAVES
    ensures status.Absent? <==> records == []
  {
    var (names, excess) := Enumerated(leaves);
    entries, status := LoadEnumerated(names, excess);
    ChainedHistoryIsComplete(records, leaves, entries);
  }

  lemma RunIsHeld(d: Doc, g: Git, strokes: seq<Stroke>)
    requires PlanKept(d.body, EffectivePhase(d)) && GoodRun(d, g, strokes)
    ensures var records := WrittenAll(CallsOf(d, g, strokes), 1);
      Chained(records, 1) && HoldsRecords(LeavesOf(records), records) && |records| == |strokes|
  {
    RunIsChained(d, g, strokes);
    RecordsAreWritten(d, g, strokes, 1);
    RecordsAreHeld(Records(d, g, strokes, 1));
  }

  /** Recorded by one component and loaded by the other, an uninterrupted run has a complete history. */
  method RecordAndLoad(d: Doc, g: Git, strokes: seq<Stroke>) returns (entries: seq<Record>, status: HistoryStatus)
    requires PlanKept(d.body, EffectivePhase(d)) && GoodRun(d, g, strokes)
    ensures status.Complete? <==> 1 <= |strokes| <= MAX_LEAVES
    ensures status.Absent? <==> strokes == []
  {
    var calls := CallsOf(d, g, strokes);
    RunIsHeld(d, g, strokes);
    entries, status := RecordAndLoadCalls(calls);
  }

  method RecordAndLoadCalls(calls: seq<Call>) returns (entries: seq<Record>, status: HistoryStatus)
    requires AllReturned(calls)
    requires Chained(WrittenAll(calls, 1), 1) && HoldsRecords(LeavesOf(WrittenAll(calls, 1)), WrittenAll(calls, 1))
    ensures status.Complete? <==> 1 <= |calls| <= MAX_LEAVES
    ensures status.Absent? <==> calls == []
  {
    var recorder := new PhaseHistoryRecorder([]);
    RecordCalls(recorder, calls);
    assert recorder.directory == LeavesOf(WrittenAll(calls, 1));
    entries, status := LoadChained(recorder.directory, WrittenAll(calls, 1));
  }
}
