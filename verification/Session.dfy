/** `RunSession`: the life of one run, and when its repository lock may be released. */
module Session {
  import opened Text

  datatype SessionState =
    | New | Ready | Starting | Started | Closing | Closed | FailedState | CleanupUnresolved | ReleasePending

  /** How one call of `server.stop()` or `server.start()` ends. */
  datatype CallResult = Works | Raises | Interrupts

  /** Up to three attempts to stop the server, and the pauses between them. */
  datatype StopPlan = StopPlan(stops: nat -> CallResult, napInterrupted: nat -> bool)

  datatype CleanupOutcome = CleanupOutcome(confirmed: bool, interrupted: bool, attempts: nat)

  datatype RunOutcome = Succeeded | FailedRun

  /** How a call of a session method ended for its caller. */
  datatype Ending = Returns | RaisesRuntimeError | RaisesInterrupt | RaisesLockError | RaisesRaw

  const CLEANUP_ATTEMPTS: nat := 3

  /** The server as the session sees it. It may be running from the first attempt to start it
      until a call of `stop` returns normally. */
  class Server {
    ghost var mayRun: bool
    ghost var stopCalls: nat

    constructor ()
      ensures !mayRun && stopCalls == 0
    {
      mayRun := false;
      stopCalls := 0;
    }

    method Start(result: CallResult) returns (ending: CallResult)
      modifies this
      ensures ending == result && mayRun && stopCalls == old(stopCalls)
    {
      mayRun := true;
      ending := result;
    }

    method Stop(result: CallResult) returns (ending: CallResult)
      modifies this
      ensures ending == result && stopCalls == old(stopCalls) + 1
      ensures mayRun == (old(mayRun) && !result.Works?)
    {
      stopCalls := stopCalls + 1;
      if result.Works? {
        mayRun := false;
      }
      ending := result;
    }
  }

  /** Attempt `k` is reached when all earlier ones failed without an interrupt. */
  predicate Reached(plan: StopPlan, k: nat) {
    forall j: nat :: j < k ==> plan.stops(j).Raises? && !plan.napInterrupted(j)
  }

  /** Some attempt that is reached works. */
  ghost predicate Confirms(plan: StopPlan) {
    exists k: nat :: k < CLEANUP_ATTEMPTS && Reached(plan, k) && plan.stops(k).Works?
  }

  /** Attempt `k` is the last: it worked, was interrupted or followed by an interrupt, or none is left. */
  predicate IsLast(plan: StopPlan, k: nat) {
    Reached(plan, k) && (!plan.stops(k).Raises? || plan.napInterrupted(k) || k == CLEANUP_ATTEMPTS - 1)
  }

  /** `_confirm_server_stopped`: at most three attempts, the last one deciding. */
  method ConfirmServerStopped(server: Server, plan: StopPlan) returns (outcome: CleanupOutcome)
    modifies server
    ensures 1 <= outcome.attempts <= CLEANUP_ATTEMPTS && IsLast(plan, outcome.attempts - 1)
    ensures outcome.interrupted <==>
              var k := outcome.attempts - 1;
              plan.stops(k).Interrupts? || (plan.stops(k).Raises? && k < CLEANUP_ATTEMPTS - 1)
    ensures server.stopCalls == old(server.stopCalls) + outcome.attempts
    ensures outcome.confirmed <==> Confirms(plan)
    ensures server.mayRun == (old(server.mayRun) && !outcome.confirmed)
  {
    var attempt := 0;
    while attempt < CLEANUP_ATTEMPTS
      invariant 0 <= attempt <= CLEANUP_ATTEMPTS
      invariant Reached(plan, attempt) || (attempt == CLEANUP_ATTEMPTS && Reached(plan, attempt - 1))
      invariant attempt == CLEANUP_ATTEMPTS ==> !plan.stops(attempt - 1).Works?
      invariant forall k: nat :: k < attempt ==> plan.stops(k).Raises?
      invariant server.stopCalls == old(server.stopCalls) + attempt
      invariant server.mayRun == old(server.mayRun)
    {
      var ending := server.Stop(plan.stops(attempt));
      match ending {
        case Works => return CleanupOutcome(true, false, attempt + 1);
        case Interrupts => return CleanupOutcome(false, true, attempt + 1);
        case Raises =>
          if attempt < CLEANUP_ATTEMPTS - 1 && plan.napInterrupted(attempt) {
            return CleanupOutcome(false, true, attempt + 1);
          }
      }
      attempt := attempt + 1;
    }
    return CleanupOutcome(false, false, CLEANUP_ATTEMPTS);
  }

  class RunSession {
    const server: Server
    var state: SessionState
    // The lease: None before the lock is acquired.
    var leased: bool
    var releasable: bool
    // The lock object still has its token.
    var lockHeld: bool
    var serverMayExist: bool
    var startupException: Option<nat>
    var pendingCleanup: Option<CleanupOutcome>
    var pendingRetryable: bool
    var annotated: seq<nat>

    constructor (server: Server)
      requires !server.mayRun
      ensures Valid() && this.server == server && state.New? && !lockHeld && fresh(this)
    {
      this.server := server;
      state := New;
      leased, releasable, lockHeld, serverMayExist := false, true, false, false;
      startupException, pendingCleanup, pendingRetryable, annotated := None, None, false, [];
    }

    /** Release safety: while the server may run the lock is held and the lease forbids releasing it. */
    ghost predicate Valid()
      reads this, server
    {
      && (server.mayRun ==> serverMayExist && lockHeld && !releasable)
      && (lockHeld ==> leased)
      && (!serverMayExist ==> releasable)
      && (pendingCleanup.Some? && pendingCleanup.value.confirmed ==> !server.mayRun)
      && (pendingCleanup.Some? ==> serverMayExist)
      && (state.Closed? || state.FailedState? || state.New? ==> !lockHeld)
      && (state.ReleasePending? ==> releasable && lockHeld)
      && (state.Ready? ==> lockHeld && !serverMayExist)
      && (state.New? ==> !leased && !serverMayExist)
      && (state.Starting? || state.Started? ==> lockHeld && serverMayExist && !releasable)
      && (state.CleanupUnresolved? ==> lockHeld && serverMayExist)
      && (state.Closing? ==> lockHeld)
    }

    /** `_annotate_once`: the exception is noted at most once. */
    method AnnotateOnce(exc: nat)
      modifies this`annotated
      ensures annotated == if exc in old(annotated) then old(annotated) else old(annotated) + [exc]
    {
      if exc !in annotated {
        annotated := annotated + [exc];
      }
    }

    /** `__enter__`: `acquired` says whether the lock was acquired, `works` whether the rest worked,
        and `releaseWorks` whether the lock could be given back if it did not. */
    method Enter(acquired: bool, works: bool, releaseWorks: bool) returns (ending: Ending)
      requires Valid()
      modifies this
      ensures Valid()
      ensures ending.Returns? <==> old(state).New? && acquired && works
      ensures ending.Returns? ==> state.Ready? && lockHeld
      ensures old(state).New? && !ending.Returns? ==>
                && lockHeld == (acquired && !releaseWorks)
                && (if lockHeld then state.ReleasePending? else state.FailedState?)
    {
      if !state.New? {
        return RaisesRuntimeError;
      }
      if !acquired {
        state := FailedState;
        return RaisesLockError;
      }
      leased, releasable, lockHeld := true, true, true;
      if !works {
        if releaseWorks {
          lockHeld := false;
          state := FailedState;
        } else {
          state := ReleasePending;
        }
        return RaisesRaw;
      }
      state := Ready;
      return Returns;
    }

    /** Whether cleanup comes out confirmed: by the outcome at hand, or by trying again. */
    ghost predicate WillConfirm(plan: StopPlan)
      reads this
    {
      if pendingCleanup.Some? && (pendingCleanup.value.confirmed || !pendingRetryable) then pendingCleanup.value.confirmed
      else Confirms(plan)
    }

    /** `_confirm_cleanup`: an outcome at hand is used up, unless it failed and may be retried. */
    method ConfirmCleanup(plan: StopPlan) returns (outcome: CleanupOutcome)
      requires serverMayExist
      requires pendingCleanup.Some? && pendingCleanup.value.confirmed ==> !server.mayRun
      modifies this`pendingCleanup, this`pendingRetryable, server
      ensures pendingCleanup.None? && !pendingRetryable
      ensures outcome.confirmed ==> !server.mayRun
      ensures !outcome.confirmed ==> server.mayRun == old(server.mayRun)
      ensures server.stopCalls <= old(server.stopCalls) + CLEANUP_ATTEMPTS
      ensures old(pendingCleanup).Some? && (old(pendingCleanup).value.confirmed || !old(pendingRetryable)) ==>
                outcome == old(pendingCleanup).value && server.stopCalls == old(server.stopCalls)
      ensures outcome.confirmed == old(WillConfirm(plan))
    {
      var pending, retryable := pendingCleanup, pendingRetryable;
      pendingCleanup, pendingRetryable := None, false;
      if pending.Some? && (pending.value.confirmed || !retryable) {
        return pending.value;
      }
      outcome := ConfirmServerStopped(server, plan);
    }

    /** `start_server`: `exc` is the exception it raises, if it does. */
    method StartServer(start: CallResult, handoffWorks: bool, plan: StopPlan, exc: nat) returns (ending: Ending)
      requires Valid()
      modifies this, server
      ensures Valid()
      ensures !old(state).Ready? ==> ending.RaisesRuntimeError? && state == old(state) && server.stopCalls == old(server.stopCalls)
      ensures ending.Returns? <==> old(state).Ready? && start.Works? && handoffWorks
      ensures old(state).Ready? ==> state == (if ending.Returns? then Started else Starting) && lockHeld
      ensures server.stopCalls <= old(server.stopCalls) + (if start.Raises? then CLEANUP_ATTEMPTS else 0)
      ensures old(state).Ready? && start.Raises? ==>
                pendingCleanup.Some? && !pendingRetryable && pendingCleanup.value.confirmed == Confirms(plan)
      ensures annotated == old(annotated) + if old(state).Ready? && start.Raises? && !Confirms(plan) then [exc] else []
      ensures !start.Raises? ==> pendingCleanup == old(pendingCleanup)
      ensures old(state).Ready? && start.Interrupts? ==> startupException == Some(exc)
    {
      if !state.Ready? {
        return RaisesRuntimeError;
      }
      state := Starting;
      releasable := false;
      serverMayExist := true;
      var result := server.Start(start);
      if result.Interrupts? {
        startupException := Some(exc);
        return RaisesInterrupt;
      }
      if result.Raises? {
        var cleanup := ConfirmCleanup(plan);
        pendingCleanup, pendingRetryable := Some(cleanup), false;
        if !cleanup.confirmed {
          annotated := annotated + [exc];
        }
        return RaisesRuntimeError;
      }
      if !handoffWorks {
        return RaisesRaw;
      }
      state := Started;
      return Returns;
    }

    /** `stop_server`: never releases the lock, never raises, and never forgets a confirmed stop. */
    method StopServer(plan: StopPlan)
      requires Valid()
      modifies this`pendingCleanup, this`pendingRetryable, server
      ensures Valid()
      ensures !serverMayExist ==> server.stopCalls == old(server.stopCalls) && pendingCleanup == old(pendingCleanup)
      ensures old(pendingCleanup).Some? && old(pendingCleanup).value.confirmed ==>
                pendingCleanup.Some? && pendingCleanup.value.confirmed
      ensures serverMayExist && pendingCleanup.Some? && !pendingCleanup.value.confirmed ==> pendingRetryable
      ensures serverMayExist && Confirms(plan) ==> pendingRetryable
      ensures serverMayExist ==>
                && pendingCleanup.Some?
                && pendingCleanup.value.confirmed == ((old(pendingCleanup).Some? && old(pendingCleanup).value.confirmed) || Confirms(plan))
    {
      if !serverMayExist {
        return;
      }
      var outcome := ConfirmServerStopped(server, plan);
      if pendingCleanup.Some? && pendingCleanup.value.confirmed && !outcome.confirmed {
        return;
      }
      pendingCleanup, pendingRetryable := Some(outcome), true;
    }

    /** `_annotate_and_check_unwinding`: whether the call may return silently. */
    method AnnotateAndCheckUnwinding(target: Option<nat>, unwinding: Option<nat>) returns (silent: bool)
      modifies this`annotated
      ensures target.Some? ==> target.value in annotated
      ensures silent <==> target.Some? && target == unwinding
    {
      if target.Some? {
        AnnotateOnce(target.value);
      }
      return target.Some? && target == unwinding;
    }

    /** `close`. `error` is the exception given, `unwinding` the one passing through the call. The
        lock is released exactly if no server can be running and the release works. An
        interrupt inside the release gets out with the session still closing. The call is never
        silent: the lock is still held after a normal return only if the exception it
        annotated is the one unwinding. */
    method Close(outcome: RunOutcome, error: Option<nat>, unwinding: Option<nat>, plan: StopPlan, release: CallResult)
      returns (ending: Ending)
      requires Valid()
      modifies this, server
      ensures Valid()
      ensures !lockHeld ==> !server.mayRun
      ensures !lockHeld ==> ending.Returns?
      ensures old(lockHeld) ==>
                (!lockHeld <==>
                   release.Works? && (old(state).ReleasePending? || !old(serverMayExist) || old(WillConfirm(plan))))
      ensures old(lockHeld) && lockHeld ==>
                state == if !(old(state).ReleasePending? || !old(serverMayExist) || old(WillConfirm(plan))) then CleanupUnresolved
                         else if release.Raises? then ReleasePending else Closing
      ensures lockHeld && state.Closing? ==> ending.RaisesInterrupt?
      ensures lockHeld && !state.Closing? ==>
                var noted := if state.CleanupUnresolved? && startupException.Some? then startupException else error;
                && (noted.Some? ==> noted.value in annotated)
                && (ending.Returns? <==> noted.Some? && noted == unwinding)
                && (!ending.Returns? ==> (ending.RaisesLockError? <==> state.ReleasePending?))
      ensures !lockHeld ==> state.Closed? || state.FailedState?
      ensures old(state).ReleasePending? ==> server.stopCalls == old(server.stopCalls) && lockHeld == !release.Works?
      ensures server.stopCalls <= old(server.stopCalls) + CLEANUP_ATTEMPTS
      ensures old(pendingCleanup).Some? && !old(pendingRetryable) ==> server.stopCalls == old(server.stopCalls)
      ensures old(state).Closed? || old(state).FailedState? ==> ending.Returns? && state == old(state)
    {
      if state.Closed? || state.FailedState? {
        return Returns;
      }
      if !leased {
        state := Closed;
        return Returns;
      }
      var before := state;
      state := Closing;
      if !before.ReleasePending? && serverMayExist {
        var cleanup := ConfirmCleanup(plan);
        if !cleanup.confirmed {
          state := CleanupUnresolved;
          var silent := AnnotateAndCheckUnwinding(if startupException.Some? then startupException else error, unwinding);
          if silent {
            return Returns;
          }
          return if cleanup.interrupted then RaisesInterrupt else RaisesRuntimeError;
        }
        releasable := true;
      }
      if releasable {
        if release.Interrupts? {
          return RaisesInterrupt;
        }
        if release.Raises? {
          state := ReleasePending;
          var silent := AnnotateAndCheckUnwinding(error, unwinding);
          return if silent then Returns else RaisesLockError;
        }
        lockHeld := false;
      }
      state := Closed;
      return Returns;
    }

    /** A failed start and the `close()` that `__exit__` runs for it: at most three calls of `stop`. */
    method StartAndExit(start: CallResult, handoffWorks: bool, plan: StopPlan, exitPlan: StopPlan, exc: nat, release: CallResult)
      returns (ending: Ending)
      requires Valid() && state.Ready?
      modifies this, server
      ensures Valid()
      ensures server.stopCalls <= old(server.stopCalls) + CLEANUP_ATTEMPTS
      ensures !lockHeld ==> !server.mayRun
      ensures ending.Returns? <==> start.Works? && handoffWorks
      ensures ending.Returns? ==> state.Started? && lockHeld
      ensures !ending.Returns? ==>
                (!lockHeld <==> release.Works? && Confirms(if start.Raises? then plan else exitPlan))
    {
      ending := StartServer(start, handoffWorks, plan, exc);
      if !ending.Returns? {
        var closed := Close(FailedRun, Some(exc), Some(exc), exitPlan, release);
      }
    }
  }
}
