/** The session driven from several threads: one driver, and any number of threads calling
    `close()` or `stop_server()`. Every acquisition and release of `_state_lock` and of the
    server's own cleanup lock, and every use of `_advance_done`, is a step of its own. */
module SessionThreads {
  import opened Text

  datatype State = Started | Advancing | Closing | Closed | Unresolved | ReleasePending

  /** The driver, inside `advance()` or `run_to_completion()`. */
  datatype Driver =
    | Resting
    | WantsBegin(looping: bool)
    | Begins(looping: bool)
    | InFlight(looping: bool)
    | WantsEnd(looping: bool, raised: bool)
    | Ends(looping: bool, raised: bool)

  /** A thread inside `close()` or `stop_server()`. The last flag of a cleanup is whether it closes. */
  datatype Helper =
    | CloseWaits
    | WantsState(closes: bool)
    | HasState(closes: bool)
    | WantsServer(closes: bool)
    | StopsServer(closes: bool)
    | Decides(stopped: bool)
    | LetsGo(closes: bool)

  datatype Thread = TheDriver | TheHelper(id: nat)

  datatype Shared = Shared(
    state: State,
    stateLock: Option<Thread>,
    serverLock: Option<Thread>,
    advanceDone: bool,
    driver: Driver,
    helpers: map<nat, Helper>,
    repositoryLocked: bool,
    stopPending: bool,
    stored: nat)

  /** A helper inside `close()`. */
  predicate Closes(h: Helper) {
    match h
    case CloseWaits => true
    case WantsState(closes) => closes
    case HasState(closes) => closes
    case WantsServer(closes) => closes
    case StopsServer(closes) => closes
    case Decides(_) => true
    case LetsGo(closes) => closes
  }

  /** A helper in the middle of `close()`, past its wait. */
  predicate PastWait(h: Helper) {
    Closes(h) && !h.CloseWaits?
  }

  predicate IsClosed(st: State) {
    st.Closing? || st.Closed? || st.Unresolved? || st.ReleasePending?
  }

  // ----------------------------------------------------------------- steps

  function Move(s: Shared, id: nat, h: Helper): Shared {
    s.(helpers := s.helpers[id := h])
  }

  predicate DriverCan(s: Shared) {
    match s.driver
    case Resting => false
    case WantsBegin(_) => s.stateLock.None?
    case WantsEnd(_, _) => s.stateLock.None?
    case _ => true
  }

  /** The driver's next step. `raised` is whether the transition in flight raises. */
  function DriverStep(s: Shared, raised: bool): Shared {
    match s.driver
    case Resting => s
    case WantsBegin(looping) => s.(stateLock := Some(TheDriver), driver := Begins(looping))
    case Begins(looping) =>
      if !s.state.Started? then s.(stateLock := None, driver := Resting)
      else s.(stateLock := None, driver := InFlight(looping), advanceDone := false, state := if looping then Started else Advancing)
    case InFlight(looping) =>
      s.(advanceDone := true, driver := if looping && raised then Resting else WantsEnd(looping, raised))
    case WantsEnd(looping, r) => s.(stateLock := Some(TheDriver), driver := Ends(looping, r))
    case Ends(looping, r) =>
      s.(stateLock := None, driver := Resting,
         stored := if s.state.Started? && !r then s.stored + 1 else s.stored,
         state := if s.state.Advancing? then Started else s.state)
  }

  predicate HelperCan(s: Shared, id: nat)
    requires id in s.helpers
  {
    match s.helpers[id]
    case CloseWaits => s.advanceDone
    case WantsState(_) => s.stateLock.None?
    case WantsServer(_) => s.serverLock.None?
    case _ => true
  }

  /** Where a helper's next step leads; None ends its call. `works` is whether the call it makes
      there works. */
  function HelperGoes(s: Shared, id: nat, works: bool): Option<Helper>
    requires id in s.helpers
  {
    match s.helpers[id]
    case CloseWaits => Some(WantsState(true))
    case WantsState(closes) => Some(HasState(closes))
    case HasState(closes) =>
      if !closes then Some(WantsServer(false))
      else if s.state.Closed? then Some(LetsGo(true))
      else if s.state.ReleasePending? || s.stopPending then Some(Decides(true))
      else Some(WantsServer(true))
    case WantsServer(closes) => Some(StopsServer(closes))
    case StopsServer(closes) => Some(if closes then Decides(works) else LetsGo(false))
    case Decides(_) => Some(LetsGo(true))
    case LetsGo(_) => None
  }

  /** What the step does to the locks and the session. */
  function HelperDoes(s: Shared, id: nat, works: bool): Shared
    requires id in s.helpers
  {
    match s.helpers[id]
    case CloseWaits => s
    case WantsState(closes) => s.(stateLock := Some(TheHelper(id)))
    case HasState(closes) =>
      if !closes || s.state.Closed? then s
      else s.(state := Closing, stopPending := s.stopPending && s.state.ReleasePending?)
    case WantsServer(closes) => s.(serverLock := Some(TheHelper(id)))
    case StopsServer(closes) => s.(serverLock := None, stopPending := s.stopPending || (works && !closes))
    case Decides(stopped) =>
      if !stopped then s.(state := Unresolved)
      else if works then s.(state := Closed, repositoryLocked := false)
      else s.(state := ReleasePending)
    case LetsGo(_) => s.(stateLock := None)
  }

  /** What a step has done to the locks and the session, and where it leads. */
  function Landed(t: Shared, id: nat, to: Option<Helper>): Shared {
    if to.Some? then Move(t, id, to.value) else t.(helpers := t.helpers - {id})
  }

  function HelperStep(s: Shared, id: nat, works: bool): Shared
    requires id in s.helpers
  {
    Landed(HelperDoes(s, id, works), id, HelperGoes(s, id, works))
  }

  datatype Event =
    | DriverCalls(looping: bool)
    | DriverMoves(raised: bool)
    | HelperCalls(id: nat, closes: bool)
    | HelperMoves(id: nat, works: bool)

  predicate Possible(s: Shared, e: Event) {
    match e
    case DriverCalls(_) => s.driver.Resting?
    case DriverMoves(_) => DriverCan(s)
    case HelperCalls(id, _) => id !in s.helpers
    case HelperMoves(id, _) => id in s.helpers && HelperCan(s, id)
  }

  /** A transition is begun in the gap: some `close()` is past its wait. */
  predicate BeginsInGap(s: Shared, e: Event) {
    && e.DriverMoves? && s.driver.Begins? && s.state.Started?
    && exists id :: id in s.helpers && PastWait(s.helpers[id])
  }

  function Next(s: Shared, e: Event): Shared
    requires Possible(s, e)
  {
    match e
    case DriverCalls(looping) => s.(driver := WantsBegin(looping))
    case DriverMoves(raised) => DriverStep(s, raised)
    case HelperCalls(id, closes) => Move(s, id, if closes then CloseWaits else WantsState(false))
    case HelperMoves(id, works) => HelperStep(s, id, works)
  }

  // ------------------------------------------------------------- invariants

  predicate HelperHasState(h: Helper) {
    h.HasState? || h.WantsServer? || h.StopsServer? || h.Decides? || h.LetsGo?
  }

  predicate LocksOk(s: Shared) {
    && (s.stateLock == Some(TheDriver) <==> s.driver.Begins? || s.driver.Ends?)
    && (s.stateLock.Some? && s.stateLock.value.TheHelper? ==>
          s.stateLock.value.id in s.helpers && HelperHasState(s.helpers[s.stateLock.value.id]))
    && (forall id :: id in s.helpers && HelperHasState(s.helpers[id]) ==> s.stateLock == Some(TheHelper(id)))
    && (s.serverLock.Some? ==>
          s.serverLock.value.TheHelper? && s.serverLock.value.id in s.helpers && s.helpers[s.serverLock.value.id].StopsServer?)
    && (forall id :: id in s.helpers && s.helpers[id].StopsServer? ==> s.serverLock == Some(TheHelper(id)))
  }

  /** Who may be doing what in which state. */
  predicate PhasesOk(s: Shared) {
    && (s.advanceDone <==> !s.driver.InFlight?)
    && (s.state.Closing? <==> exists id :: id in s.helpers && HoldsClosing(s.helpers[id]))
    && (s.state.Advancing? ==> Transits(s.driver))
    && (s.driver.InFlight? || s.driver.WantsEnd? || s.driver.Ends? ==>
          (!s.driver.looping ==> !s.state.Started?))
    && (!s.repositoryLocked ==> s.state.Closed?)
  }

  predicate HoldsClosing(h: Helper) {
    h == WantsServer(true) || h == StopsServer(true) || h.Decides?
  }

  predicate Transits(d: Driver) {
    (d.InFlight? || d.WantsEnd? || d.Ends?) && !d.looping
  }

  predicate Consistent(s: Shared) {
    LocksOk(s) && PhasesOk(s)
  }

  lemma DriverStaysConsistent(s: Shared, raised: bool)
    requires Consistent(s) && DriverCan(s)
    ensures Consistent(DriverStep(s, raised))
  {
    var t := DriverStep(s, raised);
    assert t.helpers == s.helpers;
    assert (exists id :: id in t.helpers && HoldsClosing(t.helpers[id])) <==> (exists id :: id in s.helpers && HoldsClosing(s.helpers[id]));
  }

  /** The other helpers are as they were. */
  predicate OthersStay(s: Shared, id: nat, t: Shared) {
    && (forall k :: k in t.helpers && k != id ==> k in s.helpers && t.helpers[k] == s.helpers[k])
    && (forall k :: k in s.helpers && k != id ==> k in t.helpers)
  }

  lemma HelperTouches(s: Shared, id: nat, works: bool)
    requires id in s.helpers
    ensures var t := HelperDoes(s, id, works);
      t.helpers == s.helpers && t.driver == s.driver && t.advanceDone == s.advanceDone && t.stored == s.stored
  {
  }

  lemma LandingLeavesOthers(s: Shared, t: Shared, id: nat, to: Option<Helper>)
    requires id in s.helpers && t.helpers == s.helpers
    ensures OthersStay(s, id, Landed(t, id, to))
  {
  }

  lemma HelperLeavesOthers(s: Shared, id: nat, works: bool)
    requires id in s.helpers
    ensures OthersStay(s, id, HelperStep(s, id, works))
    ensures HelperStep(s, id, works).driver == s.driver && HelperStep(s, id, works).advanceDone == s.advanceDone
    ensures HelperStep(s, id, works).stored == s.stored
  {
    HelperTouches(s, id, works);
    LandingLeavesOthers(s, HelperDoes(s, id, works), id, HelperGoes(s, id, works));
  }

  /** One helper moved, and took, kept or gave back each lock. */
  lemma LocksFollow(s: Shared, id: nat, t: Shared)
    requires LocksOk(s) && OthersStay(s, id, t) && t.driver == s.driver && id in s.helpers
    requires t.stateLock == (if id in t.helpers && HelperHasState(t.helpers[id]) then Some(TheHelper(id))
                             else if HelperHasState(s.helpers[id]) then None else s.stateLock)
    requires id in t.helpers && HelperHasState(t.helpers[id]) && !HelperHasState(s.helpers[id]) ==> s.stateLock.None?
    requires t.serverLock == (if id in t.helpers && t.helpers[id].StopsServer? then Some(TheHelper(id))
                              else if s.helpers[id].StopsServer? then None else s.serverLock)
    requires id in t.helpers && t.helpers[id].StopsServer? && !s.helpers[id].StopsServer? ==> s.serverLock.None?
    ensures LocksOk(t)
  {
  }

  lemma HelperKeepsLocks(s: Shared, id: nat, works: bool)
    requires Consistent(s) && id in s.helpers && HelperCan(s, id)
    ensures LocksOk(HelperStep(s, id, works))
  {
    HelperLeavesOthers(s, id, works);
    LocksFollow(s, id, HelperStep(s, id, works));
  }

  /** Only the helper with the state lock can be between claiming the session and deciding. */
  lemma ClosingIsMine(s: Shared, id: nat)
    requires Consistent(s) && id in s.helpers && HelperHasState(s.helpers[id])
    ensures s.state.Closing? <==> HoldsClosing(s.helpers[id])
  {
  }

  /** A step with the state lock: what it makes of the state fits the place it leads to. */
  lemma OwnerKeepsPhases(s: Shared, id: nat, works: bool)
    requires Consistent(s) && id in s.helpers && HelperHasState(s.helpers[id]) && HelperCan(s, id)
    ensures var t := HelperStep(s, id, works);
      && (t.state.Closing? <==> id in t.helpers && HoldsClosing(t.helpers[id]))
      && (t.state == s.state || IsClosed(t.state)) && (!t.repositoryLocked ==> t.state.Closed?)
  {
    ClosingIsMine(s, id);
  }

  lemma HelperKeepsPhases(s: Shared, id: nat, works: bool)
    requires Consistent(s) && id in s.helpers && HelperCan(s, id)
    ensures PhasesOk(HelperStep(s, id, works))
  {
    var t := HelperStep(s, id, works);
    HelperLeavesOthers(s, id, works);
    if HelperHasState(s.helpers[id]) {
      OwnerKeepsPhases(s, id, works);
      forall k | k in t.helpers && k != id
        ensures !HoldsClosing(t.helpers[k])
      {
        assert s.helpers[k] == t.helpers[k] && (HelperHasState(s.helpers[k]) ==> s.stateLock == Some(TheHelper(k)));
      }
    } else {
      assert t.state == s.state && t.repositoryLocked == s.repositoryLocked;
      assert !HoldsClosing(s.helpers[id]) && (id in t.helpers ==> !HoldsClosing(t.helpers[id]));
      assert (exists k :: k in s.helpers && HoldsClosing(s.helpers[k])) <==> (exists k :: k in t.helpers && HoldsClosing(t.helpers[k]));
    }
  }

  lemma EventStaysConsistent(s: Shared, e: Event)
    requires Consistent(s) && Possible(s, e)
    ensures Consistent(Next(s, e))
  {
    match e
    case DriverMoves(raised) => DriverStaysConsistent(s, raised);
    case HelperMoves(id, works) =>
      HelperKeepsLocks(s, id, works);
      HelperKeepsPhases(s, id, works);
    case DriverCalls(_) =>
      assert Next(s, e).helpers == s.helpers;
    case HelperCalls(id, closes) => CallStaysConsistent(s, id, closes);
  }

  lemma CallStaysConsistent(s: Shared, id: nat, closes: bool)
    requires Consistent(s) && id !in s.helpers
    ensures Consistent(Next(s, HelperCalls(id, closes)))
  {
    var t := Next(s, HelperCalls(id, closes));
    forall k | k in t.helpers && k != id
      ensures t.helpers[k] == s.helpers[k]
    {
    }
    forall k | k in s.helpers
      ensures k in t.helpers && t.helpers[k] == s.helpers[k]
    {
    }
  }

  // ------------------------------------------------------------ quiescence

  /** Past its wait, `close()` never meets a transition in flight; nor does one outlive the lock. */
  predicate Quiescent(s: Shared) {
    && (forall id :: id in s.helpers && PastWait(s.helpers[id]) ==> !s.driver.InFlight?)
    && (!s.repositoryLocked ==> !s.driver.InFlight?)
  }

  lemma DriverStaysQuiescent(s: Shared, raised: bool)
    requires Consistent(s) && Quiescent(s) && DriverCan(s)
    ensures Quiescent(DriverStep(s, raised)) <==> !BeginsInGap(s, DriverMoves(raised))
  {
    var t := DriverStep(s, raised);
    assert t.helpers == s.helpers && t.repositoryLocked == s.repositoryLocked;
    if BeginsInGap(s, DriverMoves(raised)) {
      assert t.driver.InFlight?;
    }
  }

  /** A helper gets past its wait only when no transition is in flight. */
  lemma HelperStaysQuiescent(s: Shared, id: nat, works: bool)
    requires Consistent(s) && Quiescent(s) && id in s.helpers && HelperCan(s, id)
    ensures Quiescent(HelperStep(s, id, works))
  {
    HelperLeavesOthers(s, id, works);
    var t := HelperStep(s, id, works);
    assert s.helpers[id].CloseWaits? ==> !s.driver.InFlight?;
    assert id in t.helpers && PastWait(t.helpers[id]) ==> s.helpers[id].CloseWaits? || PastWait(s.helpers[id]);
    forall k | k in t.helpers && PastWait(t.helpers[k])
      ensures !t.driver.InFlight?
    {
      assert k != id ==> t.helpers[k] == s.helpers[k] && k in s.helpers;
    }
  }

  /** Exactly a transition begun in the gap breaks quiescence. */
  lemma EventStaysQuiescent(s: Shared, e: Event)
    requires Consistent(s) && Quiescent(s) && Possible(s, e)
    ensures Quiescent(Next(s, e)) <==> !BeginsInGap(s, e)
  {
    match e
    case DriverMoves(raised) => DriverStaysQuiescent(s, raised);
    case HelperMoves(id, works) => HelperStaysQuiescent(s, id, works);
    case DriverCalls(_) => assert Next(s, e).helpers == s.helpers;
    case HelperCalls(id, closes) =>
      var t := Next(s, e);
      forall k | k in t.helpers && PastWait(t.helpers[k])
        ensures !t.driver.InFlight?
      {
        assert k != id && k in s.helpers && t.helpers[k] == s.helpers[k];
      }
  }

  predicate PossibleRun(s: Shared, events: seq<Event>)
    decreases events
  {
    events == [] || (Possible(s, events[0]) && PossibleRun(Next(s, events[0]), events[1..]))
  }

  /** No transition is begun in the gap. */
  predicate InTime(s: Shared, events: seq<Event>)
    requires PossibleRun(s, events)
    decreases events
  {
    events == [] || (!BeginsInGap(s, events[0]) && InTime(Next(s, events[0]), events[1..]))
  }

  function NextAll(s: Shared, events: seq<Event>): Shared
    requires PossibleRun(s, events)
    decreases events
  {
    if events == [] then s else NextAll(Next(s, events[0]), events[1..])
  }

  /** A started session nobody is using. */
  function Fresh(): Shared {
    Shared(Started, None, None, true, Resting, map[], true, false, 0)
  }

  lemma {:induction false} RunsStayConsistent(s: Shared, events: seq<Event>)
    requires Consistent(s) && PossibleRun(s, events)
    ensures Consistent(NextAll(s, events))
    decreases events
  {
    if events != [] {
      EventStaysConsistent(s, events[0]);
      RunsStayConsistent(Next(s, events[0]), events[1..]);
    }
  }

  lemma {:induction false} RunsStayQuiescent(s: Shared, events: seq<Event>)
    requires Consistent(s) && Quiescent(s) && PossibleRun(s, events) && InTime(s, events)
    ensures Quiescent(NextAll(s, events))
    decreases events
  {
    if events != [] {
      EventStaysConsistent(s, events[0]);
      EventStaysQuiescent(s, events[0]);
      RunsStayQuiescent(Next(s, events[0]), events[1..]);
    }
  }

  /** The repository lock has been released under a transition in flight. */
  predicate Broken(s: Shared) {
    !s.repositoryLocked && s.driver.InFlight?
  }

  /** Quiescence: if no transition is begun in the gap, the repository lock is released only when
      the transition in flight has ended, and none is in flight after. */
  lemma LockOutlivesTransition(events: seq<Event>)
    requires PossibleRun(Fresh(), events) && InTime(Fresh(), events)
    ensures var s := NextAll(Fresh(), events);
      !s.repositoryLocked ==> !s.driver.InFlight? && s.state.Closed?
  {
    RunsStayConsistent(Fresh(), events);
    RunsStayQuiescent(Fresh(), events);
  }

  /** Moves of one helper, every call of which works. */
  function Moves(id: nat, n: nat): seq<Event> {
    seq(n, _ => HelperMoves(id, true))
  }

  lemma MovesOn(s: Shared, id: nat, n: nat)
    requires id in s.helpers && HelperCan(s, id) && PossibleRun(HelperStep(s, id, true), Moves(id, n))
    ensures PossibleRun(s, Moves(id, n + 1))
    ensures NextAll(s, Moves(id, n + 1)) == NextAll(HelperStep(s, id, true), Moves(id, n))
  {
    assert Moves(id, n + 1)[1..] == Moves(id, n);
  }

  /** A `close()` that is past its wait takes the state lock, stops the server and releases. */
  lemma CloserReleases(s: Shared, id: nat) returns (n: nat)
    requires id in s.helpers && s.helpers[id] == WantsState(true) && s.stateLock.None? && s.serverLock.None?
    requires s.driver.InFlight? && (s.state.Started? || s.state.Advancing?)
    ensures PossibleRun(s, Moves(id, n)) && Broken(NextAll(s, Moves(id, n)))
  {
    var s1 := HelperStep(s, id, true);
    var s2 := HelperStep(s1, id, true);
    var s3 := HelperStep(s2, id, true);
    if s.stopPending {
      n := 3;
      assert PossibleRun(s3, Moves(id, 0));
      MovesOn(s2, id, 0);
      MovesOn(s1, id, 1);
      MovesOn(s, id, 2);
    } else {
      n := 5;
      var s4 := HelperStep(s3, id, true);
      var s5 := HelperStep(s4, id, true);
      assert PossibleRun(s5, Moves(id, 0));
      MovesOn(s4, id, 0);
      MovesOn(s3, id, 1);
      MovesOn(s2, id, 2);
      MovesOn(s1, id, 3);
      MovesOn(s, id, 4);
    }
  }

  /** After a begin in the gap, nothing but the `close()` has to move for the lock to be released
      under the transition. */
  lemma GapReleases(s: Shared, e: Event) returns (more: seq<Event>)
    requires Consistent(s) && Possible(s, e) && BeginsInGap(s, e)
    ensures PossibleRun(Next(s, e), more) && Broken(NextAll(Next(s, e), more))
  {
    var id :| id in s.helpers && PastWait(s.helpers[id]);
    var n := CloserReleases(Next(s, e), id);
    more := Moves(id, n);
  }

  /** The condition is exact: where a transition is begun in the gap, the run up to there goes on to
      one in which the lock is released under the transition. */
  lemma {:induction false} GapBreaks(s: Shared, events: seq<Event>) returns (k: nat, run: seq<Event>)
    requires Consistent(s) && PossibleRun(s, events) && !InTime(s, events)
    ensures 1 <= k <= |events| && k <= |run| && run[..k] == events[..k]
    ensures PossibleRun(s, run) && Broken(NextAll(s, run))
    decreases events
  {
    var more;
    if BeginsInGap(s, events[0]) {
      k := 0;
      more := GapReleases(s, events[0]);
    } else {
      EventStaysConsistent(s, events[0]);
      k, more := GapBreaks(Next(s, events[0]), events[1..]);
    }
    k, run := k + 1, [events[0]] + more;
    assert run[1..] == more;
    assert events[..k] == [events[0]] + events[1..][..k - 1];
    assert run[..k] == [events[0]] + more[..k - 1];
  }

  /** The gap can be met: between the wait and the state lock a transition is begun, and it is in
      flight when the lock is released. */
  lemma GapIsReal()
    ensures var events := [HelperCalls(0, true), HelperMoves(0, true), DriverCalls(false), DriverMoves(false),
                           DriverMoves(false), HelperMoves(0, true), HelperMoves(0, true), HelperMoves(0, true),
                           HelperMoves(0, true), HelperMoves(0, true)];
      && PossibleRun(Fresh(), events)
      && !NextAll(Fresh(), events).repositoryLocked && NextAll(Fresh(), events).driver.InFlight?
  {
    var s0 := Fresh();
    var s1 := Next(s0, HelperCalls(0, true));
    var s2 := Next(s1, HelperMoves(0, true));
    var s3 := Next(s2, DriverCalls(false));
    var s4 := Next(s3, DriverMoves(false));
    var s5 := Next(s4, DriverMoves(false));
    var s6 := Next(s5, HelperMoves(0, true));
    var s7 := Next(s6, HelperMoves(0, true));
    var s8 := Next(s7, HelperMoves(0, true));
    var s9 := Next(s8, HelperMoves(0, true));
    var s10 := Next(s9, HelperMoves(0, true));
    assert PossibleRun(s10, []);
    assert PossibleRun(s9, [HelperMoves(0, true)]);
    assert PossibleRun(s8, [HelperMoves(0, true), HelperMoves(0, true)]);
  }

  // ------------------------------------------------------ calls from end to end

  /** The state after one helper's steps, with what each of its calls comes to; None if it has to wait. */
  function Played(s: Shared, id: nat, works: seq<bool>): Option<Shared>
    decreases works
  {
    if works == [] then Some(s)
    else if id !in s.helpers || !HelperCan(s, id) then None
    else Played(HelperStep(s, id, works[0]), id, works[1..])
  }

  lemma PlaysOn(s: Shared, id: nat, first: bool, rest: seq<bool>)
    requires id in s.helpers && HelperCan(s, id)
    ensures Played(s, id, [first] + rest) == Played(HelperStep(s, id, first), id, rest)
  {
    assert ([first] + rest)[1..] == rest;
  }

  /** A `close()` decides: the repository lock goes exactly if the server has stopped and the release
      works; an unconfirmed stop and a failed release are told apart. */
  lemma DecisionEnds(s: Shared, id: nat, stopped: bool, releases: bool)
    requires id in s.helpers && s.helpers[id] == Decides(stopped)
    ensures Played(s, id, [releases] + ([true] + []))
         == Some(s.(helpers := s.helpers - {id}, stateLock := None,
                    state := if !stopped then Unresolved else if releases then Closed else ReleasePending,
                    repositoryLocked := s.repositoryLocked && !(stopped && releases)))
  {
    var s1 := HelperStep(s, id, releases);
    PlaysOn(s, id, releases, [true] + []);
    PlaysOn(s1, id, true, []);
    assert s1.helpers - {id} == s.helpers - {id};
  }

  /** Through the state lock: a closed session is left alone; one whose server has been stopped goes
      on to the release; any other to the server. */
  lemma CloseClaims(s: Shared, id: nat)
    requires id in s.helpers && s.helpers[id] == WantsState(true) && s.stateLock.None?
    ensures var claimed := s.(stateLock := Some(TheHelper(id)), state := Closing, stopPending := s.stopPending && s.state.ReleasePending?);
      Played(s, id, [true] + ([true] + []))
      == Some(if s.state.Closed? then Move(s.(stateLock := Some(TheHelper(id))), id, LetsGo(true))
              else if s.state.ReleasePending? || s.stopPending then Move(claimed, id, Decides(true))
              else Move(claimed, id, WantsServer(true)))
  {
    var s1 := HelperStep(s, id, true);
    PlaysOn(s, id, true, [true] + []);
    PlaysOn(s1, id, true, []);
    var to := HelperGoes(s1, id, true).value;
    assert s.helpers[id := HasState(true)][id := to] == s.helpers[id := to];
  }

  /** Through the server's own lock: the stop comes to what it comes to. */
  lemma ServerIsStopped(s: Shared, id: nat, closes: bool, stops: bool)
    requires id in s.helpers && s.helpers[id] == WantsServer(closes) && s.serverLock.None?
    ensures Played(s, id, [true] + ([stops] + []))
         == Some(Move(s.(stopPending := s.stopPending || (stops && !closes)), id, if closes then Decides(stops) else LetsGo(false)))
  {
    var s1 := HelperStep(s, id, true);
    PlaysOn(s, id, true, [stops] + []);
    PlaysOn(s1, id, stops, []);
    var to := HelperGoes(s1, id, stops).value;
    assert s.helpers[id := StopsServer(closes)][id := to] == s.helpers[id := to];
  }

  /** `stop_server()` keeps the state and the repository lock, and remembers a confirmed stop. */
  lemma StopperRemembers(s: Shared, id: nat, stops: bool)
    requires id in s.helpers && s.helpers[id] == WantsState(false) && s.stateLock.None? && s.serverLock.None?
    ensures var last := HelperStep(HelperStep(s, id, true), id, true);
      var done := Played(last, id, [true] + ([stops] + []));
      && id in last.helpers && last.helpers[id] == WantsServer(false) && done.Some?
      && done.value.state == s.state && done.value.repositoryLocked == s.repositoryLocked
      && done.value.stopPending == (s.stopPending || stops)
      && id in done.value.helpers && done.value.helpers[id] == LetsGo(false)
  {
    ServerIsStopped(HelperStep(HelperStep(s, id, true), id, true), id, false, stops);
  }

  /** One `advance()` call nobody interferes with: in flight exactly if the session was started, which
      it is again afterwards, whether or not the transition raised. */
  lemma AdvanceEnds(s: Shared, raised: bool)
    requires s.driver == WantsBegin(false) && s.stateLock.None? && s.advanceDone
    ensures var begun := DriverStep(DriverStep(s, raised), raised);
      if !s.state.Started? then begun == s.(driver := Resting)
      else
        && begun == s.(driver := InFlight(false), advanceDone := false, state := Advancing)
        && DriverStep(DriverStep(DriverStep(begun, raised), raised), raised) == s.(driver := Resting)
  {
  }

  /** One iteration of `run_to_completion()`: a raising one ends at once, any other writes its document
      back exactly if the session is still started. */
  lemma CompletionEnds(s: Shared, raised: bool, later: Shared)
    requires s.driver == InFlight(true) && !s.advanceDone
    requires later == DriverStep(s, raised).(state := later.state) && s.stateLock.None?
    ensures if raised then later.driver.Resting? && later.advanceDone
            else
              var done := DriverStep(DriverStep(later, raised), raised);
              && done.driver.Resting? && done.stateLock.None? && done.advanceDone
              && done.stored == s.stored + (if later.state.Started? then 1 else 0)
              && done.state == (if later.state.Advancing? then Started else later.state)
  {
  }

  // --------------------------------------------------------- no resurrection

  /** A session that has been claimed by `close()` is never started or advancing again, with or
      without the gap. */
  lemma ClosedStaysClosed(s: Shared, e: Event)
    requires Consistent(s) && Possible(s, e) && IsClosed(s.state)
    ensures IsClosed(Next(s, e).state)
  {
  }

  lemma {:induction false} ClosedStaysClosedForGood(s: Shared, events: seq<Event>)
    requires Consistent(s) && PossibleRun(s, events) && IsClosed(s.state)
    ensures IsClosed(NextAll(s, events).state)
    decreases events
  {
    if events != [] {
      EventStaysConsistent(s, events[0]);
      ClosedStaysClosed(s, events[0]);
      ClosedStaysClosedForGood(Next(s, events[0]), events[1..]);
    }
  }

  /** A corner of the code: the write-back guard of `advance()` never passes, because the state is
      still advancing, or closed, when it is tested; only `run_to_completion()` ever writes back. */
  lemma AdvanceNeverStores(s: Shared, raised: bool)
    requires Consistent(s) && s.driver.Ends? && !s.driver.looping
    ensures DriverStep(s, raised).stored == s.stored
  {
  }

  // -------------------------------------------------------- deadlock freedom

  /** Whenever some call is under way, some thread can take its next step. */
  lemma SomeoneCanMove(s: Shared)
    requires Consistent(s) && (!s.driver.Resting? || s.helpers != map[])
    ensures DriverCan(s) || exists id :: id in s.helpers && HelperCan(s, id)
  {
    if s.serverLock.Some? {
      assert HelperCan(s, s.serverLock.value.id);
    } else if s.stateLock.Some? && s.stateLock.value.TheHelper? {
      assert HelperCan(s, s.stateLock.value.id);
    } else if s.driver.Resting? {
      var id :| id in s.helpers;
      assert HelperCan(s, id);
    }
  }

  lemma NoDeadlock(events: seq<Event>)
    requires PossibleRun(Fresh(), events)
    ensures var s := NextAll(Fresh(), events);
      !s.driver.Resting? || s.helpers != map[] ==> DriverCan(s) || exists id :: id in s.helpers && HelperCan(s, id)
  {
    RunsStayConsistent(Fresh(), events);
    if !NextAll(Fresh(), events).driver.Resting? || NextAll(Fresh(), events).helpers != map[] {
      SomeoneCanMove(NextAll(Fresh(), events));
    }
  }
}
