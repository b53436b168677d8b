/** Phase history: the recorder that numbers and writes one record per step, and the checker
    that looks for gaps and contradictions. */
module History {
  import opened Text
  import opened Document
  import opened Transitions
  import opened ResetTable

  // ---------------------------------------------------------------- records

  /** A history record, as far as it is compared with its neighbours. */
  datatype Record = Record(number: nat, phase: Phase, phaseAfter: Phase, status: Status, at: int, counters: Counters, retries: int)

  /** A directory entry: its number and phase, and its record if that can be read and is valid. A
      name of another form may still begin with a number. */
  datatype Leaf = Leaf(number: nat, phase: Phase, content: Option<Record>) | OddName(prefix: Option<nat>)

  function Count(r: Record, f: Field): int {
    CounterOf(r.counters, r.retries, f)
  }

  /** `_is_permitted_counter_reset`. */
  predicate IsPermittedReset(f: Field, following: Record) {
    if f.OperationalRetryCount? then
      following.retries == 0 && !following.phase.OperationalFailure? && !following.status.InputUnavailable?
    else
      && Count(following, f) == 0
      && InResetTable(f, following.phase, following.phaseAfter)
      && !(f.GuidanceCount? && following.phase.Building? && !following.status.Advanced?)
  }

  /** A counter does not go down, or is reset where the code resets it. */
  predicate CounterAgrees(r: Record, following: Record, f: Field) {
    Count(following, f) < Count(r, f) ==> IsPermittedReset(f, following)
  }

  /** A record may follow another without contradiction. */
  predicate Follows(r: Record, following: Record) {
    && r.phaseAfter == following.phase
    && r.at <= following.at
    && forall f: Field :: CounterAgrees(r, following, f)
  }

  // ---------------------------------------------------------------- checker

  datatype HistoryStatus = Complete | Incomplete | Absent

  predicate ValidLeaf(l: Leaf) {
    l.Leaf? && l.content.Some? && l.content.value.number == l.number && l.content.value.phase == l.phase
  }

  predicate HasNumber(l: Leaf, n: nat) {
    l.Leaf? && l.number == n
  }

  /** The entries with a number, in order. */
  function WithNumber(leaves: seq<Leaf>, n: nat): (same: seq<Leaf>)
    ensures forall l :: l in same ==> l in leaves && HasNumber(l, n)
  {
    if leaves == [] then []
    else
      var last := leaves[|leaves| - 1];
      WithNumber(leaves[..|leaves| - 1], n) + if HasNumber(last, n) then [last] else []
  }

  /** An entry that is the only one with its number, and holds a valid record. */
  predicate Stands(leaves: seq<Leaf>, l: Leaf) {
    ValidLeaf(l) && l.number >= 1 && WithNumber(leaves, l.number) == [l]
  }

  /** No other entry has the number. */
  predicate IsAlone(leaves: seq<Leaf>, n: nat, k: nat) {
    && k < |leaves| && HasNumber(leaves[k], n)
    && forall j :: 0 <= j < |leaves| && HasNumber(leaves[j], n) ==> j == k
  }

  lemma {:induction false} NoneHasNumber(leaves: seq<Leaf>, n: nat)
    ensures WithNumber(leaves, n) == [] <==> forall j :: 0 <= j < |leaves| ==> !HasNumber(leaves[j], n)
  {
    if leaves != [] {
      NoneHasNumber(leaves[..|leaves| - 1], n);
      assert forall j :: 0 <= j < |leaves| - 1 ==> leaves[j] == leaves[..|leaves| - 1][j];
    }
  }

  lemma {:induction false} AloneIsListed(leaves: seq<Leaf>, n: nat, k: nat)
    requires IsAlone(leaves, n, k)
    ensures WithNumber(leaves, n) == [leaves[k]]
  {
    var before := leaves[..|leaves| - 1];
    assert forall j :: 0 <= j < |before| ==> leaves[j] == before[j];
    if k == |before| {
      NoneHasNumber(before, n);
    } else {
      AloneIsListed(before, n, k);
    }
  }

  lemma {:induction false} ListedIsAlone(leaves: seq<Leaf>, n: nat) returns (k: nat)
    requires |WithNumber(leaves, n)| == 1
    ensures IsAlone(leaves, n, k) && WithNumber(leaves, n) == [leaves[k]]
  {
    var before := leaves[..|leaves| - 1];
    assert forall j :: 0 <= j < |before| ==> leaves[j] == before[j];
    if HasNumber(leaves[|before|], n) {
      k := |before|;
      NoneHasNumber(before, n);
    } else {
      k := ListedIsAlone(before, n);
    }
  }

  /** An entry stands exactly if its number is positive and no other's, and its record is readable and
      has the same number and phase as its name. */
  lemma StandsExactly(leaves: seq<Leaf>, l: Leaf)
    ensures Stands(leaves, l) <==>
              exists k: nat, r: Record ::
                IsAlone(leaves, r.number, k) && leaves[k] == l == Leaf(r.number, r.phase, Some(r)) && r.number >= 1
  {
    if Stands(leaves, l) {
      var k := ListedIsAlone(leaves, l.number);
      var r := l.content.value;
      assert IsAlone(leaves, r.number, k);
    }
    if k: nat, r: Record :| IsAlone(leaves, r.number, k) && leaves[k] == l == Leaf(r.number, r.phase, Some(r)) && r.number >= 1 {
      AloneIsListed(leaves, r.number, k);
    }
  }

  /** The records of the entries that stand, by ascending number. */
  predicate Lists(entries: seq<Record>, leaves: seq<Leaf>) {
    && (forall k :: 0 <= k < |entries| - 1 ==> entries[k].number < entries[k + 1].number)
    && (forall l :: l in leaves && Stands(leaves, l) ==> l.content.value in entries)
    && (forall r :: r in entries ==> exists l :: l in leaves && Stands(leaves, l) && l.content.value == r)
  }

  /** What COMPLETE stands for: no entry is odd, invalid or double, the numbers run from 1 without
      a gap, and no record contradicts the next. */
  predicate Flawless(entries: seq<Record>, leaves: seq<Leaf>) {
    && (forall l :: l in leaves ==> Stands(leaves, l))
    && (forall k :: 0 <= k < |entries| ==> entries[k].number == k + 1)
    && (forall k :: 0 <= k < |entries| - 1 ==> Follows(entries[k], entries[k + 1]))
  }

  const MAX_LEAVES: nat := 10_000

  /** `_enumerate_history_names`: at most so many entries, and whether there are more. */
  function Enumerated(leaves: seq<Leaf>): (seq<Leaf>, bool) {
    if |leaves| > MAX_LEAVES then (leaves[..MAX_LEAVES], true) else (leaves, false)
  }

  lemma {:induction false} WithNumberHasAll(leaves: seq<Leaf>, l: Leaf)
    requires l in leaves && l.Leaf?
    ensures l in WithNumber(leaves, l.number)
  {
    var last := leaves[|leaves| - 1];
    if l != last {
      assert leaves == leaves[..|leaves| - 1] + [last];
      WithNumberHasAll(leaves[..|leaves| - 1], l);
    }
  }

  /** The first loop of `_load_enumerated`: group the entries by number. */
  method Group(leaves: seq<Leaf>) returns (candidates: map<nat, seq<Leaf>>, diagnostics: nat)
    ensures forall n :: n in candidates ==> n >= 1 && candidates[n] == WithNumber(leaves, n) && candidates[n] != []
    ensures forall l :: l in leaves && l.Leaf? && l.number >= 1 ==> l.number in candidates
    ensures diagnostics == 0 <==> forall l :: l in leaves ==> l.Leaf? && l.number >= 1
  {
    candidates, diagnostics := map[], 0;
    for k := 0 to |leaves|
      invariant forall n :: n in candidates ==> n >= 1 && candidates[n] == WithNumber(leaves[..k], n) && candidates[n] != []
      invariant forall n: nat :: n >= 1 && n !in candidates ==> WithNumber(leaves[..k], n) == []
      invariant diagnostics == 0 <==> forall l :: l in leaves[..k] ==> l.Leaf? && l.number >= 1
    {
      var leaf := leaves[k];
      assert leaves[..k + 1][..k] == leaves[..k] && leaves[..k + 1] == leaves[..k] + [leaf];
      if leaf.OddName? || leaf.number == 0 {
        diagnostics := diagnostics + 1;
      } else {
        var before := if leaf.number in candidates then candidates[leaf.number] else [];
        candidates := candidates[leaf.number := before + [leaf]];
      }
    }
    assert leaves[..|leaves|] == leaves;
    forall l | l in leaves && l.Leaf? && l.number >= 1
      ensures l.number in candidates
    {
      WithNumberHasAll(leaves, l);
    }
  }

  predicate IsSmallest(s: set<nat>, n: nat) {
    n in s && forall m :: m in s ==> n <= m
  }

  lemma {:induction false} SmallestExists(s: set<nat>)
    requires s != {}
    ensures exists n :: IsSmallest(s, n)
  {
    var n :| n in s;
    var rest := s - {n};
    assert forall k :: k in s ==> k == n || k in rest;
    if rest == {} {
      assert IsSmallest(s, n);
    } else {
      SmallestExists(rest);
      var m :| IsSmallest(rest, m);
      assert IsSmallest(s, if n <= m then n else m);
    }
  }

  /** The candidates of a number are one valid record. */
  predicate IsGood(candidates: map<nat, seq<Leaf>>, n: nat) {
    n in candidates && |candidates[n]| == 1 && ValidLeaf(candidates[n][0])
  }

  function RecordOf(candidates: map<nat, seq<Leaf>>, n: nat): Record
    requires IsGood(candidates, n)
  {
    candidates[n][0].content.value
  }

  /** The records of the good ones among the numbers gone through, ascending. */
  predicate Gathered(entries: seq<Record>, candidates: map<nat, seq<Leaf>>, remaining: set<nat>) {
    && (forall k :: 0 <= k < |entries| - 1 ==> entries[k].number < entries[k + 1].number)
    && (forall r, n :: r in entries && n in remaining ==> r.number < n)
    && (forall n :: n in candidates && n !in remaining && IsGood(candidates, n) ==> RecordOf(candidates, n) in entries)
    && (forall r :: r in entries ==> IsGood(candidates, r.number) && RecordOf(candidates, r.number) == r)
  }

  /** The second loop: numbers in ascending order, each with one valid record or a diagnostic. */
  method Validate(candidates: map<nat, seq<Leaf>>) returns (entries: seq<Record>, diagnostics: nat)
    requires forall n, l :: n in candidates && l in candidates[n] ==> HasNumber(l, n)
    ensures Gathered(entries, candidates, {})
    ensures diagnostics == 0 <==> forall n :: n in candidates ==> IsGood(candidates, n)
  {
    entries, diagnostics := [], 0;
    var remaining := candidates.Keys;
    while remaining != {}
      invariant remaining <= candidates.Keys
      invariant Gathered(entries, candidates, remaining)
      invariant diagnostics == 0 <==> forall n :: n in candidates && n !in remaining ==> IsGood(candidates, n)
      decreases |remaining|
    {
      SmallestExists(remaining);
      var n :| IsSmallest(remaining, n);
      remaining := remaining - {n};
      var records := candidates[n];
      if |records| != 1 || !ValidLeaf(records[0]) {
        diagnostics := diagnostics + 1;
      } else {
        assert records[0] in candidates[n] && IsGood(candidates, n);
        entries := entries + [records[0].content.value];
      }
    }
  }

  /** What was gathered from the groups is what stands among the entries. */
  lemma GatheredLists(entries: seq<Record>, leaves: seq<Leaf>, candidates: map<nat, seq<Leaf>>)
    requires forall n :: n in candidates ==> n >= 1 && candidates[n] == WithNumber(leaves, n) && candidates[n] != []
    requires forall l :: l in leaves && l.Leaf? && l.number >= 1 ==> l.number in candidates
    requires Gathered(entries, candidates, {})
    ensures Lists(entries, leaves)
    ensures forall k :: 0 <= k < |entries| ==> entries[k].number >= 1
  {
    forall l | l in leaves && Stands(leaves, l)
      ensures l.content.value in entries
    {
      assert IsGood(candidates, l.number) && RecordOf(candidates, l.number) == l.content.value;
    }
    forall r | r in entries
      ensures exists l :: l in leaves && Stands(leaves, l) && l.content.value == r
    {
      var l := candidates[r.number][0];
      assert l in WithNumber(leaves, r.number);
      assert candidates[r.number] == [l];
      assert Stands(leaves, l);
    }
    forall k | 0 <= k < |entries|
      ensures entries[k].number >= 1
    {
      assert entries[k] in entries;
    }
  }

  /** `_append_gap_diagnostics`. */
  method FindGaps(entries: seq<Record>) returns (diagnostics: nat)
    requires forall k :: 0 <= k < |entries| - 1 ==> entries[k].number < entries[k + 1].number
    requires forall k :: 0 <= k < |entries| ==> entries[k].number >= 1
    ensures diagnostics == 0 <==> forall k :: 0 <= k < |entries| ==> entries[k].number == k + 1
  {
    diagnostics := 0;
    var expected := 1;
    for k := 0 to |entries|
      invariant expected == if k == 0 then 1 else entries[k - 1].number + 1
      invariant diagnostics == 0 <==> forall j :: 0 <= j < k ==> entries[j].number == j + 1
    {
      if entries[k].number > expected {
        diagnostics := diagnostics + 1;
      }
      expected := entries[k].number + 1;
    }
  }

  /** `_append_adjacent_contradiction_diagnostics`: phases, clock and counters of neighbours. */
  method FindContradictions(entries: seq<Record>) returns (diagnostics: nat)
    ensures diagnostics == 0 <==>
              forall k :: 0 <= k < |entries| - 1 && entries[k + 1].number == entries[k].number + 1 ==> Follows(entries[k], entries[k + 1])
  {
    diagnostics := 0;
    var k := 0;
    while k + 1 < |entries|
      invariant 0 <= k && (entries != [] ==> k < |entries|)
      invariant diagnostics == 0 <==>
                  forall j :: 0 <= j < k && j + 1 < |entries| && entries[j + 1].number == entries[j].number + 1 ==>
                    Follows(entries[j], entries[j + 1])
    {
      var preceding, following := entries[k], entries[k + 1];
      if following.number == preceding.number + 1 {
        var found := CompareNeighbours(preceding, following);
        diagnostics := diagnostics + found;
      }
      k := k + 1;
    }
  }

  /** Every counter that goes down does so in a dispatch that takes it there. */
  ghost predicate Explained(r: Record, following: Record) {
    forall f: Field :: !f.OperationalRetryCount? && Count(following, f) < Count(r, f) ==>
      Takes(following.phase, following.phaseAfter, f, Count(r, f), Count(following, f))
  }

  /** What is not compared is not missed: a break between the phases, a clock that goes back, a
      decrease no dispatch makes, and a retry count that drops while retries go on. */
  method CompareNeighbours(preceding: Record, following: Record) returns (diagnostics: nat)
    ensures diagnostics == 0 <==> Follows(preceding, following)
    ensures preceding.phaseAfter != following.phase || following.at < preceding.at ==> diagnostics > 0
    ensures !Explained(preceding, following) ==> diagnostics > 0
    ensures following.phase.Building? && !following.status.Advanced? && following.counters.guidance < preceding.counters.guidance ==>
              diagnostics > 0
    ensures (following.retries < preceding.retries
             && (following.retries != 0 || following.phase.OperationalFailure? || following.status.InputUnavailable?)) ==>
              diagnostics > 0
  {
    diagnostics := 0;
    if preceding.phaseAfter != following.phase {
      diagnostics := diagnostics + 1;
    }
    if preceding.at > following.at {
      diagnostics := diagnostics + 1;
    }
    var fields := [AcceptedCount, ArchitectRetryCount, GuidanceCount, OperationalRetryCount, ReplanCount, RevisionCount];
    for n := 0 to |fields|
      invariant diagnostics == 0 <==>
                  && preceding.phaseAfter == following.phase && preceding.at <= following.at
                  && forall j :: 0 <= j < n ==> CounterAgrees(preceding, following, fields[j])
    {
      if Count(following, fields[n]) < Count(preceding, fields[n]) && !IsPermittedReset(fields[n], following) {
        diagnostics := diagnostics + 1;
      }
    }
    if forall j :: 0 <= j < |fields| ==> CounterAgrees(preceding, following, fields[j]) {
      forall f: Field
        ensures CounterAgrees(preceding, following, f)
      {
        var j := match f
          case AcceptedCount => 0
          case ArchitectRetryCount => 1
          case GuidanceCount => 2
          case OperationalRetryCount => 3
          case ReplanCount => 4
          case RevisionCount => 5;
        assert fields[j] == f;
      }
    }
    if Follows(preceding, following) {
      FollowingExplains(preceding, following);
    }
  }

  /** Between records that follow each other every decrease is one that a dispatch makes. */
  lemma FollowingExplains(r: Record, following: Record)
    requires Follows(r, following)
    ensures Explained(r, following)
    ensures following.counters.guidance < r.counters.guidance && following.phase.Building? ==> following.status.Advanced?
    ensures following.retries < r.retries ==>
              following.retries == 0 && !following.phase.OperationalFailure? && !following.status.InputUnavailable?
  {
    assert CounterAgrees(r, following, GuidanceCount) && CounterAgrees(r, following, OperationalRetryCount);
    forall f: Field | !f.OperationalRetryCount? && Count(following, f) < Count(r, f)
      ensures Takes(following.phase, following.phaseAfter, f, Count(r, f), Count(following, f))
    {
      assert CounterAgrees(r, following, f);
      TableIsExact(following.phase, following.phaseAfter, f, Count(r, f), Count(following, f));
    }
  }

  /** `_load_enumerated`. */
  method LoadEnumerated(names: seq<Leaf>, excess: bool) returns (entries: seq<Record>, status: HistoryStatus)
    ensures status.Absent? <==> names == [] && !excess
    ensures Lists(entries, names)
    ensures status.Complete? <==> !excess && names != [] && Flawless(entries, names)
  {
    if names == [] && !excess {
      return [], Absent;
    }
    var candidates, odd := Group(names);
    var invalid;
    entries, invalid := Validate(candidates);
    GatheredLists(entries, names, candidates);
    var gaps := FindGaps(entries);
    var contradictions := FindContradictions(entries);
    status := if !excess && odd == 0 && invalid == 0 && gaps == 0 && contradictions == 0
              then HistoryStatus.Complete else HistoryStatus.Incomplete;
    EveryEntryStands(names, candidates);
  }

  lemma EveryEntryStands(leaves: seq<Leaf>, candidates: map<nat, seq<Leaf>>)
    requires forall n :: n in candidates ==> n >= 1 && candidates[n] == WithNumber(leaves, n) && candidates[n] != []
    requires forall l :: l in leaves && l.Leaf? && l.number >= 1 ==> l.number in candidates
    ensures (forall l :: l in leaves ==> Stands(leaves, l)) <==>
              && (forall l :: l in leaves ==> l.Leaf? && l.number >= 1)
              && (forall n :: n in candidates ==> IsGood(candidates, n))
  {
    if (forall l :: l in leaves ==> Stands(leaves, l)) {
      forall n | n in candidates
        ensures IsGood(candidates, n)
      {
        assert candidates[n][0] in WithNumber(leaves, n);
        assert Stands(leaves, candidates[n][0]);
      }
    }
    if (forall l :: l in leaves ==> l.Leaf? && l.number >= 1) && (forall n :: n in candidates ==> IsGood(candidates, n)) {
      forall l | l in leaves
        ensures Stands(leaves, l)
      {
        WithNumberHasAll(leaves, l);
        assert l.number in candidates;
        assert WithNumber(leaves, l.number) == [WithNumber(leaves, l.number)[0]];
      }
    }
  }

  /** In a COMPLETE history every counter that goes down does so in a dispatch that can lower it. */
  lemma CompleteIsExplained(entries: seq<Record>, leaves: seq<Leaf>)
    requires Flawless(entries, leaves)
    ensures forall k :: 0 <= k < |entries| - 1 ==> Explained(entries[k], entries[k + 1])
  {
    forall k | 0 <= k < |entries| - 1
      ensures Explained(entries[k], entries[k + 1])
    {
      FollowingExplains(entries[k], entries[k + 1]);
    }
  }
}
