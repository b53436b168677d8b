/** `SupervisorLock` as an object: what one call does to the token and the lock file while it has
    the guard, whatever system calls fail on the way. */
module LockObject {
  import opened Text
  import opened LockProtocol

  datatype Judgement = Matching | Stale | Unverifiable

  datatype LockFailure =
    | InvalidMetadata | GuardFailed | CallFailed | MalformedFile | RemoteHolder | LiveHolder | UnverifiableHolder
    | StaleHolder | NotAcquired | NotOurs | BoundOtherwise

  class LockFile {
    var entry: Option<Entry>

    constructor (entry: Option<Entry>)
      ensures this.entry == entry
    {
      this.entry := entry;
    }
  }

  /** Which of a call's system calls fail; the later ones all work. */
  class Faults {
    const plan: seq<bool>
    var next: nat

    constructor (plan: seq<bool>)
      ensures this.plan == plan && next == 0
    {
      this.plan := plan;
      next := 0;
    }

    function Left(): nat
      reads this
    {
      if next < |plan| then |plan| - next else 0
    }

    /** Whether the `k`-th of the calls to come fails. */
    predicate Fails(k: nat)
      reads this
    {
      next + k < |plan| && plan[next + k]
    }

    method Strikes() returns (fault: bool)
      modifies this
      ensures next == old(next) + 1
      ensures fault == old(Fails(0))
    {
      fault := next < |plan| && plan[next];
      next := next + 1;
    }
  }

  /** The record may be removed on the operator's word that its owner is gone. */
  predicate MayRecover(e: Entry, recoverStale: bool, judge: Entry -> Judgement) {
    recoverStale && !e.Malformed? && !e.Remote? && judge(e).Stale?
  }

  /** What an existing record makes of an attempt to acquire, if every call works; None lets it go on. */
  function Verdict(e: Entry, recoverStale: bool, judge: Entry -> Judgement): Option<LockFailure> {
    if e.Malformed? then Some(MalformedFile)
    else if e.Remote? then Some(RemoteHolder)
    else if judge(e).Unverifiable? then Some(UnverifiableHolder)
    else if judge(e).Matching? then Some(LiveHolder)
    else if !recoverStale then Some(StaleHolder)
    else None
  }

  class SupervisorLock {
    const file: LockFile
    const id: Identity
    const recoverStale: bool
    var token: Option<nat>

    constructor (file: LockFile, id: Identity, recoverStale: bool)
      ensures this.file == file && this.id == id && this.recoverStale == recoverStale && token.None?
    {
      this.file := file;
      this.id := id;
      this.recoverStale := recoverStale;
      token := None;
    }

    /** `acquire`: on success the record is ours and in the file, and took the place of nothing or
        of a stale record the operator gave up; on failure there is no token, and at worst a stale
        record is gone or our own left behind. If no call fails, the record found decides. The
        retry loop ends. */
    method Acquire(tok: nat, validMetadata: bool, judge: Entry -> Judgement, faults: Faults)
      returns (failure: Option<LockFailure>)
      modifies this`token, file, faults
      ensures failure.None? ==> token == Some(tok) && file.entry == Some(Owned(tok, id, None))
      ensures failure.Some? ==> token.None?
      ensures file.entry != old(file.entry) && old(file.entry).Some? ==> MayRecover(old(file.entry).value, recoverStale, judge)
      ensures failure.None? && old(file.entry).Some? ==> MayRecover(old(file.entry).value, recoverStale, judge)
      ensures file.entry == old(file.entry) || file.entry.None? || file.entry == Some(Owned(tok, id, None))
      ensures validMetadata && old(faults.Left()) == 0 ==>
                failure == if old(file.entry).None? then None else Verdict(old(file.entry).value, recoverStale, judge)
      ensures !validMetadata ==> failure == Some(InvalidMetadata) && file.entry == old(file.entry) && faults.next == old(faults.next)
      ensures validMetadata && old(faults.Fails(0)) ==> failure == Some(GuardFailed) && file.entry == old(file.entry)
      ensures validMetadata && !old(faults.Fails(0)) && old(faults.Fails(1)) ==>
                failure == Some(CallFailed) && file.entry == old(file.entry)
      ensures validMetadata && !old(faults.Fails(0)) && !old(faults.Fails(1)) && old(file.entry).None? ==>
                failure == (if old(faults.Fails(2)) then Some(CallFailed) else None) && file.entry == Some(Owned(tok, id, None))
      ensures validMetadata && !old(faults.Fails(0)) && !old(faults.Fails(1)) && old(file.entry).Some? ==>
                && (old(faults.Fails(2)) ==> failure == Some(CallFailed))
                && (!old(faults.Fails(2)) && old(faults.Fails(3)) ==> failure == Some(MalformedFile))
    {
      if !validMetadata {
        token := None;
        return Some(InvalidMetadata);
      }
      var fault := faults.Strikes();
      if fault {
        token := None;
        return Some(GuardFailed);
      }
      while true
        invariant file.entry == old(file.entry)
                  || (file.entry.None? && old(file.entry).Some? && MayRecover(old(file.entry).value, recoverStale, judge))
        invariant faults.Left() <= old(faults.Left())
        invariant if faults.next == old(faults.next) + 1 then file.entry == old(file.entry)
                  else faults.next > old(faults.next) && old(file.entry).Some?
                       && !old(faults.Fails(1)) && !old(faults.Fails(2)) && !old(faults.Fails(3))
        decreases faults.Left(), if file.entry.Some? then 1 else 0
      {
        fault := faults.Strikes();
        if fault {
          token := None;
          return Some(CallFailed);
        }
        if file.entry.None? {
          file.entry := Some(Owned(tok, id, None));
          fault := faults.Strikes();
          if fault {
            token := None;
            return Some(CallFailed);
          }
          token := Some(tok);
          return None;
        }
        failure := InspectExistingLock(judge, faults);
        if failure.Some? {
          token := None;
          return;
        }
      }
    }

    /** `_inspect_existing_lock`: None means try again. */
    method InspectExistingLock(judge: Entry -> Judgement, faults: Faults) returns (failure: Option<LockFailure>)
      requires file.entry.Some?
      modifies file, faults
      ensures file.entry == old(file.entry) || (file.entry.None? && MayRecover(old(file.entry).value, recoverStale, judge))
      ensures failure.Some? ==> file.entry == old(file.entry)
      ensures failure.None? ==> file.entry.None? || faults.Left() < old(faults.Left())
      ensures faults.Left() <= old(faults.Left()) && faults.next > old(faults.next)
      ensures var verdict := Verdict(old(file.entry).value, recoverStale, judge);
        failure == if old(faults.Fails(0)) then Some(CallFailed)
                   else if old(faults.Fails(1)) then Some(MalformedFile)
                   else if verdict.Some? then verdict
                   else if !old(faults.Fails(2)) && old(faults.Fails(3)) then Some(CallFailed) else None
      ensures failure.None? && file.entry.Some? ==> old(faults.Fails(2))
    {
      var fault := faults.Strikes();
      if fault {
        return Some(CallFailed);
      }
      fault := faults.Strikes();
      if fault || file.entry.value.Malformed? {
        return Some(MalformedFile);
      }
      if file.entry.value.Remote? {
        return Some(RemoteHolder);
      }
      match judge(file.entry.value) {
        case Unverifiable => return Some(UnverifiableHolder);
        case Matching => return Some(LiveHolder);
        case Stale =>
      }
      if !recoverStale {
        return Some(StaleHolder);
      }
      fault := faults.Strikes();
      if fault {
        return None;
      }
      fault := faults.Strikes();
      if fault {
        return Some(CallFailed);
      }
      file.entry := None;
      return None;
    }

    /** `release`: afterwards either the token is forgotten and no record of ours is in the file,
        or the call failed and token and file are as they were. */
    method Release(faults: Faults) returns (failure: Option<LockFailure>)
      modifies this`token, file, faults
      ensures failure.Some? ==> token == old(token) && file.entry == old(file.entry) && token.Some?
      ensures failure.None? ==> token.None? && (old(token).Some? && file.entry.Some? ==> TokenOf(file.entry.value) != old(token))
      ensures file.entry != old(file.entry) ==>
                file.entry.None? && old(token).Some? && old(file.entry).Some? && TokenOf(old(file.entry).value) == old(token)
      ensures failure.Some? <==>
                && old(token).Some?
                && (old(faults.Fails(0)) || old(faults.Fails(1))
                    || (old(file.entry).Some?
                        && (old(faults.Fails(2)) || old(file.entry).value.Malformed?
                            || (TokenOf(old(file.entry).value) == old(token) && old(faults.Fails(3))))))
    {
      if token.None? {
        return None;
      }
      var fault := faults.Strikes();
      if fault {
        return Some(GuardFailed);
      }
      fault := faults.Strikes();
      if fault {
        return Some(CallFailed);
      }
      if file.entry.None? {
        token := None;
        return None;
      }
      fault := faults.Strikes();
      if fault || file.entry.value.Malformed? {
        return Some(MalformedFile);
      }
      if TokenOf(file.entry.value) != token {
        token := None;
        return None;
      }
      fault := faults.Strikes();
      if fault {
        return Some(CallFailed);
      }
      file.entry := None;
      token := None;
      return None;
    }

    /** `bind_run_id`: only a null run ID of our own record changes, and binding again is harmless. */
    method BindRunId(run: nat, faults: Faults) returns (failure: Option<LockFailure>)
      modifies file, faults
      ensures failure.None? ==>
                && token.Some? && file.entry == Some(Owned(token.value, id, Some(run)))
                && (old(file.entry) == file.entry || old(file.entry) == Some(Owned(token.value, id, None)))
      ensures failure.Some? ==> file.entry == old(file.entry)
      ensures token.None? ==> failure == Some(NotAcquired) && faults.next == old(faults.next)
      ensures token.Some? && !old(faults.Fails(0)) && (old(faults.Fails(1)) || file.entry.None? || file.entry.value.Malformed?) ==>
                failure == Some(MalformedFile)
      ensures failure.None? <==>
                && token.Some? && !old(faults.Fails(0)) && !old(faults.Fails(1))
                && (old(file.entry) == Some(Owned(token.value, id, Some(run)))
                    || (old(file.entry) == Some(Owned(token.value, id, None)) && !old(faults.Fails(2))))
    {
      if token.None? {
        return Some(NotAcquired);
      }
      var fault := faults.Strikes();
      if fault {
        return Some(GuardFailed);
      }
      fault := faults.Strikes();
      if fault || file.entry.None? || file.entry.value.Malformed? {
        return Some(MalformedFile);
      }
      var record := file.entry.value;
      if TokenOf(record) != token || !record.Owned? || record.owner != id {
        return Some(NotOurs);
      }
      if record.runId == Some(run) {
        return None;
      }
      if record.runId.Some? {
        return Some(BoundOtherwise);
      }
      fault := faults.Strikes();
      if fault {
        return Some(CallFailed);
      }
      file.entry := Some(record.(runId := Some(run)));
      return None;
    }
  }
}
