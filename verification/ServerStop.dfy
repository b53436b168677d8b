/** `OpenCodeServer.stop`: every stage is tried, and nothing is let go that was not seen to end. */
module ServerStop {
  import opened Text

  // ------------------------------------------------------- what may go wrong

  datatype CloseStart = StartFails | Starts(recordedError: bool)
  datatype CloseWait = WaitRaises | TimesOut | Finishes(closeError: bool)
  datatype Reply = Acknowledged | Refused | NoReply

  /** The outcome of every fallible call of one `stop()`; None means that the call raised. */
  datatype Outcomes = Outcomes(
    closeStart: CloseStart,
    closeWait: CloseWait,
    pendingRunning: Option<bool>,
    pendingKilled: bool,
    pendingWaited: bool,
    pendingStdoutCloses: bool,
    pendingReaped: Option<bool>,
    launcherRunning: Option<bool>,
    termReply: Option<Reply>,
    childExitRead: bool,
    stillRunning: Option<bool>,
    killReply: Option<Reply>,
    launcherWaited: bool,
    exitedByKill: Option<bool>,
    pipesClose: bool,
    stdoutCloses: bool,
    threadJoined: bool,
    threadAlive: Option<bool>)

  datatype Owner = Owner(termSent: bool, killSent: bool, pipesOpen: bool, stdoutOpen: bool, unresolved: bool)

  datatype Attempt = Attempt(client: nat, startupError: bool)

  /** Whether SIGTERM has been acknowledged, and SIGKILL delivered, once the group was signalled. */
  predicate TermSentAfter(w: Owner, o: Outcomes) {
    w.termSent || (o.launcherRunning != Some(false) && o.termReply == Some(Acknowledged))
  }

  predicate KillSentAfter(w: Owner, o: Outcomes) {
    || w.killSent
    || (o.launcherRunning != Some(false) && TermSentAfter(w, o) && o.stillRunning != Some(false) && o.killReply == Some(NoReply))
  }

  /** What it takes to see the process group, the pending launcher and the client end. */
  predicate OwnerEnds(w: Owner, o: Outcomes) {
    && KillSentAfter(w, o) && o.exitedByKill == Some(true)
    && (w.pipesOpen ==> o.pipesClose) && (w.stdoutOpen ==> o.stdoutCloses)
  }

  predicate PendingEnds(stdoutOpen: bool, o: Outcomes) {
    o.pendingReaped == Some(true) && (stdoutOpen ==> o.pendingStdoutCloses)
  }

  predicate ClientEnds(attempt: Option<Attempt>, o: Outcomes) {
    && o.closeWait == Finishes(false)
    && (if attempt.Some? then !attempt.value.startupError else o.closeStart == Starts(false))
  }

  /** Every call made for the pending launcher works. */
  predicate PendingWorks(stdoutOpen: bool, o: Outcomes) {
    && PendingEnds(stdoutOpen, o) && o.pendingRunning.Some? && (o.pendingRunning.value ==> o.pendingKilled) && o.pendingWaited
  }

  /** Every call made to signal the process group works; a launcher seen to have exited is left alone. */
  predicate SignalsWork(w: Owner, o: Outcomes) {
    || o.launcherRunning == Some(false)
    || (&& o.launcherRunning.Some? && (w.termSent || o.termReply == Some(Acknowledged)) && o.childExitRead
        && o.stillRunning.Some? && (o.stillRunning == Some(false) || w.killSent || o.killReply == Some(NoReply)) && o.launcherWaited)
  }

  class OpenCodeServer {
    var owner: Option<Owner>
    // A launcher not yet verified, and whether its stdout is still open.
    var pendingLauncher: Option<bool>
    var client: Option<nat>
    var closeAttempt: Option<Attempt>
    var pumpThread: bool
    // How many times a close of each client has been started.
    ghost var closesStarted: nat

    constructor ()
      ensures Valid() && NothingOwned() && closesStarted == 0
    {
      owner, pendingLauncher, client, closeAttempt, pumpThread, closesStarted := None, None, None, None, false, 0;
    }

    /** A close in progress is of the tracked client. */
    predicate Valid()
      reads this
    {
      closeAttempt.Some? ==> client == Some(closeAttempt.value.client)
    }

    predicate NothingOwned()
      reads this
    {
      owner.None? && pendingLauncher.None? && client.None? && closeAttempt.None? && !pumpThread
    }

    /** Close the shared client, or go on waiting for the close already running. */
    method CloseClient(o: Outcomes) returns (errors: nat)
      modifies this`client, this`closeAttempt, this`closesStarted
      ensures errors == 0 ==> client.None? && closeAttempt.None?
      ensures old(Valid()) ==> Valid()
      ensures !old(Valid()) ==> errors > 0 && client == old(client) && closeAttempt == old(closeAttempt)
      ensures closesStarted == old(closesStarted)
              + (if old(Valid()) && old(client).Some? && old(closeAttempt).None? && o.closeStart.Starts? then 1 else 0)
      ensures client == if old(Valid()) && ClientEnds(old(closeAttempt), o) then None else old(client)
      ensures errors == 0 <==> old(Valid()) && (old(client).None? || ClientEnds(old(closeAttempt), o))
      ensures old(Valid()) && old(client).Some? ==>
                closeAttempt == if old(closeAttempt).None? && o.closeStart.StartFails? then None
                                else if o.closeWait.Finishes? then None
                                else if old(closeAttempt).Some? then old(closeAttempt)
                                else Some(Attempt(old(client).value, o.closeStart.recordedError))
    {
      errors := 0;
      if client.None? {
        return if closeAttempt.Some? then 1 else 0;
      }
      var attempt := closeAttempt;
      if attempt.Some? && attempt.value.client != client.value {
        return 1;
      }
      if attempt.None? {
        if o.closeStart.StartFails? {
          return 1;
        }
        attempt := Some(Attempt(client.value, o.closeStart.recordedError));
        closeAttempt := attempt;
        closesStarted := closesStarted + 1;
      }
      match o.closeWait {
        case WaitRaises => errors := 1;
        case TimesOut => errors := 1;
        case Finishes(closeError) =>
          closeAttempt := None;
          if closeError || attempt.value.startupError {
            errors := 1;
          } else {
            client := None;
          }
      }
    }

    method ReapPendingLauncher(o: Outcomes) returns (errors: nat)
      modifies this`pendingLauncher
      ensures errors == 0 ==> pendingLauncher.None?
      ensures pendingLauncher.None? <==> old(pendingLauncher).None? || PendingEnds(old(pendingLauncher).value, o)
      ensures old(pendingLauncher).Some? && pendingLauncher.Some? ==>
                pendingLauncher.value == (old(pendingLauncher).value && !o.pendingStdoutCloses)
      ensures errors == 0 <==> old(pendingLauncher).None? || PendingWorks(old(pendingLauncher).value, o)
    {
      errors := 0;
      if pendingLauncher.None? {
        return;
      }
      var stdoutOpen := pendingLauncher.value;
      if o.pendingRunning.None? {
        errors := errors + 1;
      }
      if o.pendingRunning != Some(false) && !o.pendingKilled {
        errors := errors + 1;
      }
      if !o.pendingWaited {
        errors := errors + 1;
      }
      if stdoutOpen {
        if o.pendingStdoutCloses {
          stdoutOpen := false;
        } else {
          errors := errors + 1;
        }
      }
      if o.pendingReaped.None? {
        errors := errors + 1;
      }
      if o.pendingReaped == Some(true) && !stdoutOpen {
        pendingLauncher := None;
      } else {
        pendingLauncher := Some(stdoutOpen);
        errors := errors + 1;
      }
    }

    /** Terminate, then kill, the process group; SIGKILL is never sent before SIGTERM was acknowledged. */
    method SignalGroup(o: Outcomes) returns (errors: nat)
      requires owner.Some?
      modifies this`owner
      ensures owner.Some? && owner.value == old(owner.value).(termSent := owner.value.termSent, killSent := owner.value.killSent)
      ensures owner.value.termSent == TermSentAfter(old(owner.value), o)
      ensures owner.value.killSent == KillSentAfter(old(owner.value), o)
      ensures errors == 0 <==> SignalsWork(old(owner.value), o)
    {
      errors := 0;
      if o.launcherRunning.None? {
        errors := errors + 1;
      }
      if o.launcherRunning == Some(false) {
        return;
      }
      if !owner.value.termSent {
        if o.termReply == Some(Acknowledged) {
          owner := Some(owner.value.(termSent := true));
        } else {
          errors := errors + 1;
        }
      }
      if owner.value.termSent && !o.childExitRead {
        errors := errors + 1;
      }
      if o.stillRunning.None? {
        errors := errors + 1;
      }
      if owner.value.termSent && o.stillRunning != Some(false) && !owner.value.killSent {
        if o.killReply == Some(NoReply) {
          owner := Some(owner.value.(killSent := true));
        } else {
          errors := errors + 1;
        }
      }
      if !o.launcherWaited {
        errors := errors + 1;
      }
    }

    method ReapOwner(o: Outcomes) returns (errors: nat)
      modifies this`owner
      ensures errors == 0 ==> owner.None?
      ensures owner.None? <==> old(owner).None? || OwnerEnds(old(owner).value, o)
      ensures owner.Some? ==> owner.value.unresolved
      ensures owner.Some? && (old(owner.value).killSent ==> old(owner.value).termSent) ==> (owner.value.killSent ==> owner.value.termSent)
      ensures old(owner).Some? && owner.Some? ==>
                var w := old(owner.value);
                var seen := KillSentAfter(w, o) && o.exitedByKill == Some(true);
                owner.value == Owner(TermSentAfter(w, o), KillSentAfter(w, o), w.pipesOpen && !(seen && o.pipesClose),
                                     w.stdoutOpen && !(seen && o.stdoutCloses), true)
      ensures errors == 0 <==> old(owner).None? || (SignalsWork(old(owner).value, o) && OwnerEnds(old(owner).value, o))
    {
      errors := 0;
      if owner.None? {
        return;
      }
      errors := SignalGroup(o);
      var confirmed := false;
      if o.exitedByKill.None? {
        errors := errors + 1;
      } else {
        confirmed := owner.value.killSent && o.exitedByKill.value;
      }
      if confirmed && owner.value.pipesOpen {
        if o.pipesClose {
          owner := Some(owner.value.(pipesOpen := false));
        } else {
          errors := errors + 1;
        }
      }
      if confirmed && owner.value.stdoutOpen {
        if o.stdoutCloses {
          owner := Some(owner.value.(stdoutOpen := false));
        } else {
          errors := errors + 1;
        }
      }
      if confirmed && !owner.value.pipesOpen && !owner.value.stdoutOpen {
        owner := None;
      } else {
        owner := Some(owner.value.(unresolved := true));
        errors := errors + 1;
      }
    }

    method JoinPump(o: Outcomes) returns (errors: nat)
      modifies this`pumpThread
      ensures errors == 0 ==> !pumpThread
      ensures pumpThread == (old(pumpThread) && o.threadAlive != Some(false))
      ensures errors == 0 <==> !old(pumpThread) || (o.threadJoined && o.threadAlive == Some(false))
    {
      errors := 0;
      if !pumpThread {
        return;
      }
      if !o.threadJoined {
        errors := errors + 1;
      }
      if o.threadAlive.None? {
        errors := errors + 1;
      }
      if o.threadAlive == Some(false) {
        pumpThread := false;
      } else {
        errors := errors + 1;
      }
    }

    /** `stop`: a normal return means that nothing is owned any more; whatever is still owned makes
        it raise. Each stage is tried whatever became of the others: exactly what was seen to end is
        let go. */
    method Stop(o: Outcomes) returns (raised: bool)
      modifies this
      ensures !raised ==> NothingOwned()
      ensures old(Valid()) ==> Valid()
      ensures !old(Valid()) ==> raised && client == old(client) && closeAttempt == old(closeAttempt)
      ensures client == if old(Valid()) && ClientEnds(old(closeAttempt), o) then None else old(client)
      ensures pendingLauncher.None? <==> old(pendingLauncher).None? || PendingEnds(old(pendingLauncher).value, o)
      ensures owner.None? <==> old(owner).None? || OwnerEnds(old(owner).value, o)
      ensures pumpThread == (old(pumpThread) && o.threadAlive != Some(false))
      ensures closesStarted <= old(closesStarted) + 1
      ensures old(closeAttempt).Some? ==> closesStarted == old(closesStarted)
      ensures !raised <==>
                && old(Valid()) && (old(client).None? || ClientEnds(old(closeAttempt), o))
                && (old(pendingLauncher).None? || PendingWorks(old(pendingLauncher).value, o))
                && (old(owner).None? || (SignalsWork(old(owner).value, o) && OwnerEnds(old(owner).value, o)))
                && (!old(pumpThread) || (o.threadJoined && o.threadAlive == Some(false)))
    {
      var clientErrors := CloseClient(o);
      var pendingErrors := ReapPendingLauncher(o);
      var ownerErrors := ReapOwner(o);
      var pumpErrors := JoinPump(o);
      raised := clientErrors + pendingErrors + ownerErrors + pumpErrors > 0;
    }
  }
}
