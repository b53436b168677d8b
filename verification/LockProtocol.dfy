/** The repository lock among any number of processes on one host: guarded creation, stale
    recovery and token-checked release, interleaved system call by system call. */
module LockProtocol {
  import opened Text

  /** What the kernel knows a process by. A process ID may be used again, an identity never. */
  datatype Identity = Identity(boot: nat, pid: nat, start: nat)

  /** What the lock file may hold: a current record, one of the old schema, a record of another
      host, or something the strict reader rejects. */
  datatype Entry =
    | Owned(token: nat, owner: Identity, runId: Option<nat>)
    | Legacy(token: nat, pid: nat)
    | Remote(token: nat)
    | Malformed

  function TokenOf(e: Entry): Option<nat> {
    if e.Malformed? then None else Some(e.token)
  }

  /** Where a process is inside `acquire`, `release` or `bind_run_id`; each value is the next
      system call it will make. */
  datatype Pc =
    | Idle
    | AcqEnter(tok: nat)
    | AcqLink(tok: nat)
    | AcqLinked(tok: nat)
    | AcqStat(tok: nat)
    | AcqRead(tok: nat)
    | AcqJudge(tok: nat, seen: Entry)
    | AcqReread(tok: nat, seen: Entry)
    | AcqUnlink(tok: nat, seen: Entry)
    | AcqLeave(kept: bool)
    | AcqForget
    | RelEnter
    | RelStat
    | RelRead
    | RelUnlink
    | RelLeave(done: bool)
    | RelForget
    | BindEnter(run: nat)
    | BindRead(run: nat)
    | BindReplace(run: nat, seen: Entry)
    | BindLeave

  /** A process and its lock object. */
  datatype Proc = Proc(id: Identity, live: bool, token: Option<nat>, recover: bool, pc: Pc)

  datatype Host = Host(
    boot: nat,
    lock: Option<Entry>,
    guard: Option<nat>,
    procs: map<nat, Proc>,
    identities: set<Identity>,
    boots: set<nat>)

  predicate InGuard(pc: Pc) {
    match pc
    case Idle => false
    case AcqEnter(_) => false
    case AcqForget => false
    case RelEnter => false
    case RelForget => false
    case BindEnter(_) => false
    case _ => true
  }

  predicate IsLive(s: Host, p: nat) {
    p in s.procs && s.procs[p].live
  }

  predicate HasLivePid(s: Host, pid: nat) {
    exists p :: p in s.procs && s.procs[p].live && s.procs[p].id.pid == pid
  }

  /** The start time the kernel reports for a process ID. */
  ghost function ProcessStart(s: Host, pid: nat): nat
    requires HasLivePid(s, pid)
  {
    var p :| p in s.procs && s.procs[p].live && s.procs[p].id.pid == pid;
    s.procs[p].id.start
  }

  /** `classify_local_owner_identity`, where the kernel can be read. */
  ghost predicate IsStaleIdentity(s: Host, owner: Identity) {
    || owner.boot != s.boot
    || !HasLivePid(s, owner.pid)
    || ProcessStart(s, owner.pid) != owner.start
  }

  /** `_is_holder_stale`. */
  ghost predicate IsStale(s: Host, e: Entry) {
    match e
    case Owned(_, owner, _) => IsStaleIdentity(s, owner)
    case Legacy(_, pid) => !HasLivePid(s, pid)
    case _ => false
  }

  // ----------------------------------------------------------------- steps

  function Goto(s: Host, p: nat, pc: Pc): Host
    requires p in s.procs
  {
    s.(procs := s.procs[p := s.procs[p].(pc := pc)])
  }

  function Keep(s: Host, p: nat, token: Option<nat>, pc: Pc): Host
    requires p in s.procs
  {
    s.(procs := s.procs[p := s.procs[p].(token := token, pc := pc)])
  }

  function Enter(s: Host, p: nat, pc: Pc): Host
    requires p in s.procs
  {
    if s.guard.Some? then s else Goto(s.(guard := Some(p)), p, pc)
  }

  /** The next system call of process `p`, which fails if `fault`. */
  ghost function Act(s: Host, p: nat, fault: bool): Host
    requires p in s.procs
  {
    var me := s.procs[p];
    match me.pc
    case Idle => s
    case AcqEnter(tok) => if fault then Keep(s, p, None, Idle) else Enter(s, p, AcqLink(tok))
    case AcqLink(tok) =>
      if fault then Goto(s, p, AcqLeave(false))
      else if s.lock.None? then Goto(s.(lock := Some(Owned(tok, me.id, None))), p, AcqLinked(tok))
      else Goto(s, p, AcqStat(tok))
    case AcqLinked(tok) =>
      if fault then Goto(s, p, AcqLeave(false)) else Keep(s, p, Some(tok), AcqLeave(true))
    case AcqStat(tok) =>
      if fault then Goto(s, p, AcqLeave(false))
      else Goto(s, p, if s.lock.None? then AcqLink(tok) else AcqRead(tok))
    case AcqRead(tok) =>
      if fault || s.lock.None? || s.lock.value.Malformed? || s.lock.value.Remote? then Goto(s, p, AcqLeave(false))
      else Goto(s, p, AcqJudge(tok, s.lock.value))
    case AcqJudge(tok, seen) =>
      if fault || !IsStale(s, seen) || !me.recover then Goto(s, p, AcqLeave(false))
      else Goto(s, p, AcqReread(tok, seen))
    case AcqReread(tok, seen) =>
      if fault || s.lock.None? || s.lock.value.Malformed? || TokenOf(s.lock.value) != TokenOf(seen) then Goto(s, p, AcqLink(tok))
      else Goto(s, p, AcqUnlink(tok, seen))
    case AcqUnlink(tok, _) =>
      if fault then Goto(s, p, AcqLeave(false)) else Goto(s.(lock := None), p, AcqLink(tok))
    case AcqLeave(kept) => Goto(s.(guard := None), p, if kept then Idle else AcqForget)
    case AcqForget => Keep(s, p, None, Idle)
    case RelEnter => if fault then Goto(s, p, Idle) else Enter(s, p, RelStat)
    case RelStat =>
      if fault then Goto(s, p, RelLeave(false))
      else if s.lock.None? then Keep(s, p, None, RelLeave(false))
      else Goto(s, p, RelRead)
    case RelRead =>
      if fault || s.lock.None? || s.lock.value.Malformed? then Goto(s, p, RelLeave(false))
      else if Some(s.lock.value.token) != me.token then Keep(s, p, None, RelLeave(false))
      else Goto(s, p, RelUnlink)
    case RelUnlink => if fault then Goto(s, p, RelLeave(false)) else Goto(s.(lock := None), p, RelLeave(true))
    case RelLeave(done) => Goto(s.(guard := None), p, if done then RelForget else Idle)
    case RelForget => Keep(s, p, None, Idle)
    case BindEnter(run) => if fault then Goto(s, p, Idle) else Enter(s, p, BindRead(run))
    case BindRead(run) =>
      if fault || s.lock.None? || !s.lock.value.Owned? then Goto(s, p, BindLeave)
      else if Some(s.lock.value.token) != me.token || s.lock.value.owner != me.id then Goto(s, p, BindLeave)
      else if s.lock.value.runId.Some? then Goto(s, p, BindLeave)
      else Goto(s, p, BindReplace(run, s.lock.value))
    case BindReplace(run, seen) =>
      if fault || !seen.Owned? then Goto(s, p, BindLeave)
      else Goto(s.(lock := Some(seen.(runId := Some(run)))), p, BindLeave)
    case BindLeave => Goto(s.(guard := None), p, Idle)
  }

  /** A call of one of the three operations on an idle lock object. */
  datatype Call = Acquire(tok: nat, validMetadata: bool) | Release | Bind(run: nat)

  function Begin(s: Host, p: nat, c: Call): Host
    requires p in s.procs
  {
    match c
    case Acquire(tok, valid) => if valid then Goto(s, p, AcqEnter(tok)) else Keep(s, p, None, Idle)
    case Release => if s.procs[p].token.None? then s else Goto(s, p, RelEnter)
    case Bind(run) => if s.procs[p].token.None? then s else Goto(s, p, BindEnter(run))
  }

  /** A process dies; the kernel drops its hold of the guard. */
  function Kill(s: Host, p: nat): Host
    requires p in s.procs
  {
    s.(procs := s.procs[p := s.procs[p].(live := false)], guard := if s.guard == Some(p) then None else s.guard)
  }

  datatype Event =
    | Steps(p: nat, fault: bool)
    | Calls(p: nat, call: Call)
    | Dies(p: nat)
    | Spawns(p: nat, pid: nat, start: nat, recover: bool)
    | Reboots(boot: nat)

  predicate Possible(s: Host, e: Event) {
    match e
    case Steps(p, _) => IsLive(s, p)
    case Calls(p, _) => IsLive(s, p) && s.procs[p].pc.Idle?
    case Dies(p) => IsLive(s, p)
    case Spawns(p, pid, start, _) =>
      p !in s.procs && !HasLivePid(s, pid) && Identity(s.boot, pid, start) !in s.identities
    case Reboots(boot) => boot !in s.boots
  }

  ghost function Next(s: Host, e: Event): Host
    requires Possible(s, e)
  {
    match e
    case Steps(p, fault) => Act(s, p, fault)
    case Calls(p, call) => Begin(s, p, call)
    case Dies(p) => Kill(s, p)
    case Spawns(p, pid, start, recover) =>
      var id := Identity(s.boot, pid, start);
      s.(procs := s.procs[p := Proc(id, true, None, recover, Idle)], identities := s.identities + {id})
    case Reboots(boot) =>
      s.(boot := boot, boots := s.boots + {boot}, guard := None,
         procs := map p | p in s.procs :: s.procs[p].(live := false))
  }

  /** A call that cannot do anything does nothing: `acquire` with invalid metadata only forgets the
      token, `release` and `bind_run_id` without a token are ignored. */
  lemma IdleCallsDoNothing(s: Host, p: nat, c: Call)
    requires IsLive(s, p) && s.procs[p].pc.Idle?
    requires (c.Acquire? && !c.validMetadata) || (!c.Acquire? && s.procs[p].token.None?)
    ensures var t := Begin(s, p, c);
      t == s.(procs := t.procs) && t.procs == s.procs[p := s.procs[p].(token := None)]
  {
    assert s.procs[p := s.procs[p]] == s.procs;
  }

  /** What the environment does: a new process is live with an identity of its own; the dead stay in
      the table, with the guard dropped; a reboot leaves nobody. None of it touches the lock file. */
  lemma EnvironmentActs(s: Host, e: Event)
    requires Possible(s, e) && (e.Spawns? || e.Dies? || e.Reboots?)
    ensures var t := Next(s, e);
      && t.lock == s.lock
      && (e.Spawns? ==> IsLive(t, e.p) && t.procs[e.p].id == Identity(s.boot, e.pid, e.start) && t.procs[e.p].token.None?
                        && t.procs[e.p].recover == e.recover && t.guard == s.guard)
      && (e.Dies? ==> !IsLive(t, e.p) && t.guard != Some(e.p) && forall q :: q != e.p ==> (IsLive(t, q) <==> IsLive(s, q)))
      && (e.Reboots? ==> t.boot == e.boot && t.guard.None? && forall q :: !IsLive(t, q))
  {
  }

  // ------------------------------------------------------------- invariant

  /** The kernel keeps identities apart. */
  ghost predicate KernelOk(s: Host) {
    && s.boot in s.boots
    && (forall p :: p in s.procs ==> s.procs[p].id in s.identities && s.procs[p].id.boot in s.boots)
    && (forall p :: IsLive(s, p) ==> s.procs[p].id.boot == s.boot)
    && (forall p, q :: IsLive(s, p) && IsLive(s, q) && s.procs[p].id.pid == s.procs[q].id.pid ==> p == q)
    && (s.lock.Some? && s.lock.value.Owned? ==> s.lock.value.owner in s.identities)
  }

  /** The guard has at most one holder, and only its holder is in a guarded section. */
  ghost predicate GuardOk(s: Host) {
    && (s.guard.Some? ==> IsLive(s, s.guard.value) && InGuard(s.procs[s.guard.value].pc))
    && (forall p :: IsLive(s, p) && InGuard(s.procs[p].pc) ==> s.guard == Some(p))
  }

  ghost predicate NobodyIs(s: Host, owner: Identity) {
    forall p :: IsLive(s, p) ==> s.procs[p].id != owner
  }

  /** A record found stale: of the old schema, or of an owner who never comes back. */
  ghost predicate IsRemovable(s: Host, e: Entry) {
    e.Legacy? || (e.Owned? && NobodyIs(s, e.owner) && e.owner in s.identities)
  }

  /** What a process remembers of the lock file while it has the guard. */
  ghost predicate MemoryOk(s: Host, p: nat)
    requires p in s.procs
  {
    var me := s.procs[p];
    match me.pc
    case AcqLinked(tok) => s.lock == Some(Owned(tok, me.id, None))
    case AcqJudge(_, seen) => s.lock == Some(seen) && !seen.Malformed?
    case AcqReread(_, seen) => me.recover && s.lock == Some(seen) && IsRemovable(s, seen)
    case AcqUnlink(_, seen) => me.recover && s.lock == Some(seen) && IsRemovable(s, seen)
    case RelUnlink => s.lock.Some? && !s.lock.value.Malformed? && Some(s.lock.value.token) == me.token
    case BindReplace(_, seen) => s.lock == Some(seen) && seen.Owned? && Some(seen.token) == me.token && seen.owner == me.id
    case _ => true
  }

  /** The process holds the lock: it has a token and is not past the unlink in its own release. */
  predicate Holds(s: Host, p: nat) {
    IsLive(s, p) && s.procs[p].token.Some? && !s.procs[p].pc.RelForget? && s.procs[p].pc != RelLeave(true)
  }

  predicate InFile(s: Host, p: nat) {
    && p in s.procs && s.procs[p].token.Some?
    && s.lock.Some? && s.lock.value.Owned?
    && s.lock.value.token == s.procs[p].token.value && s.lock.value.owner == s.procs[p].id
  }

  ghost predicate Safe(s: Host) {
    && KernelOk(s)
    && GuardOk(s)
    && (forall p :: IsLive(s, p) ==> MemoryOk(s, p))
    && (forall p :: Holds(s, p) ==> InFile(s, p))
  }

  // ------------------------------------------------------------- staleness

  /** The identity test is exact: an owner is stale if and only if no live process is that owner,
      whoever has its process ID now. */
  lemma StaleMeansNobody(s: Host, owner: Identity)
    requires KernelOk(s)
    ensures IsStaleIdentity(s, owner) <==> NobodyIs(s, owner)
  {
    if HasLivePid(s, owner.pid) {
      var start := ProcessStart(s, owner.pid);
      var p :| p in s.procs && s.procs[p].live && s.procs[p].id.pid == owner.pid && s.procs[p].id.start == start;
      assert IsLive(s, p);
    }
  }

  // ---------------------------------------------------------- preservation

  lemma SameProcessesSameNobody(s: Host, t: Host, owner: Identity)
    requires NobodyIs(s, owner) && t.procs.Keys == s.procs.Keys
    requires forall q :: q in s.procs ==> t.procs[q].id == s.procs[q].id && t.procs[q].live == s.procs[q].live
    ensures NobodyIs(t, owner)
  {
    forall q | IsLive(t, q)
      ensures t.procs[q].id != owner
    {
      assert IsLive(s, q);
    }
  }

  /** Only process `p` moves: what changes is its place, its token, the lock file and the guard. */
  predicate OnlyMoves(s: Host, p: nat, t: Host)
    requires p in s.procs
  {
    && t.boot == s.boot && t.boots == s.boots && t.identities == s.identities
    && t.procs.Keys == s.procs.Keys
    && (forall q :: q in s.procs && q != p ==> t.procs[q] == s.procs[q])
    && t.procs[p].id == s.procs[p].id && t.procs[p].live == s.procs[p].live
  }

  lemma MoveKeepsKernel(s: Host, p: nat, t: Host)
    requires Safe(s) && IsLive(s, p) && OnlyMoves(s, p, t)
    requires t.lock.Some? && t.lock.value.Owned? ==> t.lock.value.owner in t.identities
    ensures KernelOk(t)
  {
    forall q | q in t.procs
      ensures t.procs[q].id == s.procs[q].id && t.procs[q].live == s.procs[q].live && IsLive(t, q) == IsLive(s, q)
    {
    }
  }

  /** The guard is taken when free, kept, or given back. */
  predicate GuardMoves(s: Host, p: nat, t: Host)
    requires p in s.procs && p in t.procs
  {
    && t.guard == (if InGuard(t.procs[p].pc) then Some(p) else if InGuard(s.procs[p].pc) then None else s.guard)
    && (InGuard(t.procs[p].pc) && !InGuard(s.procs[p].pc) ==> s.guard.None?)
  }

  lemma MoveKeepsGuard(s: Host, p: nat, t: Host)
    requires Safe(s) && IsLive(s, p) && OnlyMoves(s, p, t) && GuardMoves(s, p, t)
    ensures GuardOk(t)
  {
    forall q | IsLive(t, q) && InGuard(t.procs[q].pc)
      ensures t.guard == Some(q)
    {
      assert IsLive(s, q);
    }
  }

  lemma MoveStaysSafe(s: Host, p: nat, t: Host)
    requires Safe(s) && IsLive(s, p) && OnlyMoves(s, p, t) && GuardMoves(s, p, t) && t.lock == s.lock
    requires MemoryOk(t, p) && (Holds(t, p) ==> InFile(t, p))
    ensures Safe(t)
  {
    MoveKeepsKernel(s, p, t);
    MoveKeepsGuard(s, p, t);
    forall q | IsLive(t, q) && q != p
      ensures MemoryOk(t, q) && (Holds(t, q) ==> InFile(t, q))
    {
      assert IsLive(s, q) && MemoryOk(s, q) && (Holds(s, q) ==> InFile(s, q));
      match s.procs[q].pc
      case AcqReread(_, seen) => if seen.Owned? { SameProcessesSameNobody(s, t, seen.owner); }
      case AcqUnlink(_, seen) => if seen.Owned? { SameProcessesSameNobody(s, t, seen.owner); }
      case _ =>
    }
  }

  /** The lock file changes under the guard, and is nobody else's. */
  lemma WriteStaysSafe(s: Host, p: nat, t: Host)
    requires Safe(s) && IsLive(s, p) && OnlyMoves(s, p, t) && GuardMoves(s, p, t) && InGuard(s.procs[p].pc)
    requires t.lock.Some? && t.lock.value.Owned? ==> t.lock.value.owner in t.identities
    requires forall q :: q != p ==> !Holds(s, q)
    requires MemoryOk(t, p) && (Holds(t, p) ==> InFile(t, p))
    ensures Safe(t)
  {
    MoveKeepsKernel(s, p, t);
    MoveKeepsGuard(s, p, t);
    forall q | IsLive(t, q) && q != p
      ensures MemoryOk(t, q) && !Holds(t, q)
    {
      assert IsLive(s, q) && !InGuard(s.procs[q].pc) && !Holds(s, q);
    }
  }

  /** Mutual exclusion: of the live processes whose lock object holds a token, at most one. */
  lemma HolderIsUnique(s: Host, p: nat, q: nat)
    requires Safe(s) && Holds(s, p) && Holds(s, q)
    ensures p == q && InFile(s, p)
  {
    assert InFile(s, p) && InFile(s, q);
  }

  lemma AcquireStaysSafe(s: Host, p: nat, fault: bool)
    requires Safe(s) && IsLive(s, p)
    requires var pc := s.procs[p].pc; pc.AcqEnter? || pc.AcqLink? || pc.AcqLinked? || pc.AcqStat? || pc.AcqRead?
    ensures Safe(Act(s, p, fault))
  {
    assert Holds(s, p) ==> InFile(s, p);
    assert InGuard(s.procs[p].pc) ==> s.guard == Some(p);
    var t := Act(s, p, fault);
    if s.procs[p].pc.AcqLink? && !fault && s.lock.None? {
      forall q | q != p
        ensures !Holds(s, q)
      {
        assert Holds(s, q) ==> InFile(s, q);
      }
      WriteStaysSafe(s, p, t);
    } else if t != s {
      MoveStaysSafe(s, p, t);
    }
  }

  lemma JudgeStaysSafe(s: Host, p: nat, fault: bool)
    requires Safe(s) && IsLive(s, p) && s.procs[p].pc.AcqJudge?
    ensures Safe(Act(s, p, fault))
  {
    assert Holds(s, p) ==> InFile(s, p);
    var t, seen := Act(s, p, fault), s.procs[p].pc.seen;
    if t.procs[p].pc.AcqReread? && seen.Owned? {
      StaleMeansNobody(s, seen.owner);
      SameProcessesSameNobody(s, t, seen.owner);
    }
    MoveStaysSafe(s, p, t);
  }

  lemma RereadStaysSafe(s: Host, p: nat, fault: bool)
    requires Safe(s) && IsLive(s, p) && s.procs[p].pc.AcqReread?
    ensures Safe(Act(s, p, fault))
  {
    assert Holds(s, p) ==> InFile(s, p);
    var t, seen := Act(s, p, fault), s.procs[p].pc.seen;
    if seen.Owned? {
      SameProcessesSameNobody(s, t, seen.owner);
    }
    MoveStaysSafe(s, p, t);
  }

  /** What recovery unlinks is no live process's record. */
  lemma NobodyHolds(s: Host, p: nat)
    requires Safe(s) && IsLive(s, p) && s.procs[p].pc.AcqUnlink?
    ensures forall q :: !Holds(s, q)
  {
    forall q
      ensures !Holds(s, q)
    {
      assert MemoryOk(s, p);
      assert Holds(s, q) ==> InFile(s, q);
    }
  }

  lemma UnlinkStaysSafe(s: Host, p: nat, fault: bool)
    requires Safe(s) && IsLive(s, p) && s.procs[p].pc.AcqUnlink?
    ensures Safe(Act(s, p, fault))
  {
    NobodyHolds(s, p);
    assert !Holds(s, p);
    var t := Act(s, p, fault);
    if fault {
      MoveStaysSafe(s, p, t);
    } else {
      WriteStaysSafe(s, p, t);
    }
  }

  lemma LeaveStaysSafe(s: Host, p: nat, fault: bool)
    requires Safe(s) && IsLive(s, p) && (s.procs[p].pc.AcqLeave? || s.procs[p].pc.AcqForget?)
    ensures Safe(Act(s, p, fault))
  {
    assert Holds(s, p) ==> InFile(s, p);
    MoveStaysSafe(s, p, Act(s, p, fault));
  }

  lemma CheckStaysSafe(s: Host, p: nat, fault: bool)
    requires Safe(s) && IsLive(s, p)
    requires var pc := s.procs[p].pc; pc.RelEnter? || pc.RelStat? || pc.RelRead?
    ensures Safe(Act(s, p, fault))
  {
    assert Holds(s, p) ==> InFile(s, p);
    assert InGuard(s.procs[p].pc) ==> s.guard == Some(p);
    if Act(s, p, fault) != s {
      MoveStaysSafe(s, p, Act(s, p, fault));
    }
  }

  lemma ReleaseStaysSafe(s: Host, p: nat, fault: bool)
    requires Safe(s) && IsLive(s, p)
    requires var pc := s.procs[p].pc; pc.RelUnlink? || pc.RelLeave? || pc.RelForget?
    ensures Safe(Act(s, p, fault))
  {
    assert Holds(s, p) ==> InFile(s, p);
    assert InGuard(s.procs[p].pc) ==> s.guard == Some(p);
    if s.procs[p].pc.RelUnlink? && !fault {
      OthersDoNotHold(s, p);
      WriteStaysSafe(s, p, Act(s, p, fault));
    } else {
      MoveStaysSafe(s, p, Act(s, p, fault));
    }
  }

  lemma OthersDoNotHold(s: Host, p: nat)
    requires Safe(s) && Holds(s, p)
    ensures forall q :: q != p ==> !Holds(s, q)
  {
    forall q | q != p
      ensures !Holds(s, q)
    {
      if Holds(s, q) {
        HolderIsUnique(s, p, q);
      }
    }
  }

  lemma BindStaysSafe(s: Host, p: nat, fault: bool)
    requires Safe(s) && IsLive(s, p)
    requires var pc := s.procs[p].pc; pc.BindEnter? || pc.BindRead? || pc.BindReplace? || pc.BindLeave?
    ensures Safe(Act(s, p, fault))
  {
    assert Holds(s, p) ==> InFile(s, p);
    assert InGuard(s.procs[p].pc) ==> s.guard == Some(p);
    var t := Act(s, p, fault);
    if s.procs[p].pc.BindReplace? && !fault {
      OthersDoNotHold(s, p);
      WriteStaysSafe(s, p, t);
    } else if t != s {
      MoveStaysSafe(s, p, t);
    }
  }

  lemma StepStaysSafe(s: Host, p: nat, fault: bool)
    requires Safe(s) && IsLive(s, p)
    ensures Safe(Act(s, p, fault))
  {
    match s.procs[p].pc
    case Idle =>
    case AcqEnter(_) => AcquireStaysSafe(s, p, fault);
    case AcqLink(_) => AcquireStaysSafe(s, p, fault);
    case AcqLinked(_) => AcquireStaysSafe(s, p, fault);
    case AcqStat(_) => AcquireStaysSafe(s, p, fault);
    case AcqRead(_) => AcquireStaysSafe(s, p, fault);
    case AcqJudge(_, _) => JudgeStaysSafe(s, p, fault);
    case AcqReread(_, _) => RereadStaysSafe(s, p, fault);
    case AcqUnlink(_, _) => UnlinkStaysSafe(s, p, fault);
    case AcqLeave(_) => LeaveStaysSafe(s, p, fault);
    case AcqForget => LeaveStaysSafe(s, p, fault);
    case BindEnter(_) => BindStaysSafe(s, p, fault);
    case BindRead(_) => BindStaysSafe(s, p, fault);
    case BindReplace(_, _) => BindStaysSafe(s, p, fault);
    case BindLeave => BindStaysSafe(s, p, fault);
    case RelEnter => CheckStaysSafe(s, p, fault);
    case RelStat => CheckStaysSafe(s, p, fault);
    case RelRead => CheckStaysSafe(s, p, fault);
    case _ => ReleaseStaysSafe(s, p, fault);
  }

  lemma CallStaysSafe(s: Host, p: nat, c: Call)
    requires Safe(s) && IsLive(s, p) && s.procs[p].pc.Idle?
    ensures Safe(Begin(s, p, c))
  {
    assert Holds(s, p) ==> InFile(s, p);
    if Begin(s, p, c) != s {
      MoveStaysSafe(s, p, Begin(s, p, c));
    }
  }

  /** Deaths and reboots only take holders and guarded sections away. */
  predicate OnlyDeaths(s: Host, t: Host) {
    && t.lock == s.lock && t.identities == s.identities && s.boots <= t.boots && t.boot in t.boots
    && t.procs.Keys == s.procs.Keys
    && (forall p :: p in s.procs ==>
          t.procs[p].(live := s.procs[p].live) == s.procs[p] && (t.procs[p].live ==> s.procs[p].live && t.boot == s.boot))
    && t.guard == (if s.guard.Some? && IsLive(t, s.guard.value) then s.guard else None)
  }

  lemma DeathsKeepSurvivor(s: Host, t: Host, p: nat)
    requires Safe(s) && OnlyDeaths(s, t) && IsLive(t, p)
    ensures IsLive(s, p) && t.boot == s.boot && t.procs[p] == s.procs[p]
    ensures MemoryOk(t, p) && (Holds(t, p) ==> InFile(t, p))
    ensures InGuard(t.procs[p].pc) ==> t.guard == Some(p)
  {
    assert IsLive(s, p) && MemoryOk(s, p) && (Holds(s, p) ==> InFile(s, p));
    match s.procs[p].pc
    case AcqReread(_, seen) => if seen.Owned? { FewerProcessesStillNobody(s, t, seen.owner); }
    case AcqUnlink(_, seen) => if seen.Owned? { FewerProcessesStillNobody(s, t, seen.owner); }
    case _ =>
  }

  lemma DeathsStaySafe(s: Host, t: Host)
    requires Safe(s) && OnlyDeaths(s, t)
    ensures Safe(t)
  {
    forall p | IsLive(t, p)
      ensures IsLive(s, p) && t.boot == s.boot && t.procs[p] == s.procs[p]
      ensures MemoryOk(t, p) && (Holds(t, p) ==> InFile(t, p))
      ensures InGuard(t.procs[p].pc) ==> t.guard == Some(p)
    {
      DeathsKeepSurvivor(s, t, p);
    }
    assert forall p :: p in s.procs ==> t.procs[p].id == s.procs[p].id;
    if s.guard.Some? && IsLive(t, s.guard.value) {
      DeathsKeepSurvivor(s, t, s.guard.value);
    }
  }

  lemma FewerProcessesStillNobody(s: Host, t: Host, owner: Identity)
    requires NobodyIs(s, owner) && t.procs.Keys == s.procs.Keys
    requires forall q :: q in s.procs ==> t.procs[q].id == s.procs[q].id && (t.procs[q].live ==> s.procs[q].live)
    ensures NobodyIs(t, owner)
  {
    forall q | IsLive(t, q)
      ensures t.procs[q].id != owner
    {
      assert IsLive(s, q);
    }
  }

  /** A new process may have a used process ID, but not a used identity. */
  lemma SpawnStaysSafe(s: Host, p: nat, pid: nat, start: nat, recover: bool)
    requires Safe(s) && Possible(s, Spawns(p, pid, start, recover))
    ensures Safe(Next(s, Spawns(p, pid, start, recover)))
  {
    var t := Next(s, Spawns(p, pid, start, recover));
    forall q | IsLive(t, q) && q != p
      ensures MemoryOk(t, q) && (Holds(t, q) ==> InFile(t, q)) && t.procs[q].id.pid != pid
    {
      assert IsLive(s, q) && MemoryOk(s, q) && (Holds(s, q) ==> InFile(s, q));
    }
    forall q | IsLive(t, q) && InGuard(t.procs[q].pc)
      ensures t.guard == Some(q)
    {
      assert IsLive(s, q);
    }
    forall q, r | IsLive(t, q) && IsLive(t, r) && t.procs[q].id.pid == t.procs[r].id.pid
      ensures q == r
    {
      assert (q != p ==> IsLive(s, q)) && (r != p ==> IsLive(s, r));
    }
  }

  lemma EventStaysSafe(s: Host, e: Event)
    requires Safe(s) && Possible(s, e)
    ensures Safe(Next(s, e))
  {
    match e
    case Steps(p, fault) => StepStaysSafe(s, p, fault);
    case Calls(p, call) => CallStaysSafe(s, p, call);
    case Dies(p) => DeathsStaySafe(s, Kill(s, p));
    case Spawns(p, pid, start, recover) => SpawnStaysSafe(s, p, pid, start, recover);
    case Reboots(boot) => DeathsStaySafe(s, Next(s, e));
  }

  // ------------------------------------------------------------- theorems

  ghost predicate PossibleRun(s: Host, events: seq<Event>)
    decreases events
  {
    events == [] || (Possible(s, events[0]) && PossibleRun(Next(s, events[0]), events[1..]))
  }

  ghost function NextAll(s: Host, events: seq<Event>): Host
    requires PossibleRun(s, events)
    decreases events
  {
    if events == [] then s else NextAll(Next(s, events[0]), events[1..])
  }

  /** A host on which no supervisor has run since boot, whatever the lock file holds. */
  ghost predicate Fresh(s: Host) {
    && s.boot in s.boots && s.guard.None? && s.procs == map[]
    && (s.lock.Some? && s.lock.value.Owned? ==> s.lock.value.owner in s.identities)
  }

  lemma {:induction false} RunsStaySafe(s: Host, events: seq<Event>)
    requires Safe(s) && PossibleRun(s, events)
    ensures Safe(NextAll(s, events))
    decreases events
  {
    if events != [] {
      EventStaysSafe(s, events[0]);
      RunsStaySafe(Next(s, events[0]), events[1..]);
    }
  }

  /** Mutual exclusion, for any number of processes and any interleaving of their system calls,
      deaths, faults, reused process IDs and reboots: of the live processes holding a token at
      most one is not past its own release, and its token and identity are in the lock file. */
  lemma MutualExclusion(s: Host, events: seq<Event>, p: nat, q: nat)
    requires Fresh(s) && PossibleRun(s, events)
    requires Holds(NextAll(s, events), p) && Holds(NextAll(s, events), q)
    ensures p == q && InFile(NextAll(s, events), p)
  {
    RunsStaySafe(s, events);
    HolderIsUnique(NextAll(s, events), p, q);
  }

  /** A record leaves the file only by its owner's own release, with its owner's token, or by
      recovery when no live process is its owner. */
  lemma OnlyDeadOrOwnRecordsGo(s: Host, p: nat, fault: bool)
    requires Safe(s) && IsLive(s, p) && s.lock.Some? && s.lock.value.Owned?
    ensures var t := Act(s, p, fault);
      || (t.lock.Some? && t.lock.value.Owned? && t.lock.value.token == s.lock.value.token && t.lock.value.owner == s.lock.value.owner)
      || (t.lock.None? && s.procs[p].pc.RelUnlink? && s.lock.value.owner == s.procs[p].id
          && Some(s.lock.value.token) == s.procs[p].token)
      || (t.lock.None? && s.procs[p].pc.AcqUnlink? && s.procs[p].recover && NobodyIs(s, s.lock.value.owner))
  {
    assert MemoryOk(s, p);
    assert Holds(s, p) ==> InFile(s, p);
  }

  /** A record of the old schema goes only in a recovery the operator asked for; one of another host,
      and what cannot be read, stay whatever happens. */
  lemma OtherRecordsStay(s: Host, p: nat, fault: bool)
    requires Safe(s) && IsLive(s, p) && s.lock.Some? && !s.lock.value.Owned?
    ensures var t := Act(s, p, fault);
      t.lock == s.lock || (t.lock.None? && s.lock.value.Legacy? && s.procs[p].pc.AcqUnlink? && s.procs[p].recover)
  {
    assert MemoryOk(s, p);
    assert Holds(s, p) ==> InFile(s, p);
  }

  /** Recovery takes a record on exactly if the operator asked for it and nobody can own it: no live
      process has the identity recorded, or, in the old schema, the process ID. */
  lemma JudgesExactly(s: Host, p: nat, fault: bool)
    requires Safe(s) && IsLive(s, p) && s.procs[p].pc.AcqJudge?
    ensures var seen := s.procs[p].pc.seen;
      var unowned := (seen.Owned? && forall q :: IsLive(s, q) ==> s.procs[q].id != seen.owner)
                     || (seen.Legacy? && forall q :: IsLive(s, q) ==> s.procs[q].id.pid != seen.pid);
      Act(s, p, fault).procs[p].pc
      == if !fault && s.procs[p].recover && unowned then AcqReread(s.procs[p].pc.tok, seen) else AcqLeave(false)
  {
    var seen := s.procs[p].pc.seen;
    if seen.Owned? {
      StaleMeansNobody(s, seen.owner);
    }
    assert seen.Legacy? && HasLivePid(s, seen.pid) ==> exists q :: IsLive(s, q) && s.procs[q].id.pid == seen.pid;
  }

  /** A system call that fails changes neither the file nor the identities, gives nobody a token, and
      ends the operation: `acquire` without its token, `release` and `bind_run_id` with theirs. Only a
      failing re-read is taken for a changed record. */
  lemma FailedCallEnds(s: Host, p: nat)
    requires IsLive(s, p) && !s.procs[p].pc.Idle?
    ensures var t, pc := Act(s, p, true), s.procs[p].pc;
      && t.lock == s.lock && p in t.procs
      && (t.procs[p].token == if pc.AcqEnter? || pc.AcqForget? || pc.RelForget? then None else s.procs[p].token)
      && t.procs[p].pc == (match pc
                           case AcqLink(_) => AcqLeave(false)
                           case AcqLinked(_) => AcqLeave(false)
                           case AcqStat(_) => AcqLeave(false)
                           case AcqRead(_) => AcqLeave(false)
                           case AcqJudge(_, _) => AcqLeave(false)
                           case AcqReread(tok, _) => AcqLink(tok)
                           case AcqUnlink(_, _) => AcqLeave(false)
                           case AcqLeave(kept) => if kept then Idle else AcqForget
                           case RelStat => RelLeave(false)
                           case RelRead => RelLeave(false)
                           case RelUnlink => RelLeave(false)
                           case RelLeave(done) => if done then RelForget else Idle
                           case BindRead(_) => BindLeave
                           case BindReplace(_, _) => BindLeave
                           case _ => Idle)
  {
  }

  predicate Releasing(pc: Pc) {
    pc.RelEnter? || pc.RelStat? || pc.RelRead? || pc.RelUnlink? || pc.RelLeave?
  }

  /** A holder's release forgets the token only once the record is gone: a release that fails on
      the way leaves the token for another try, and the record in the file. */
  lemma FailedReleaseKeepsToken(s: Host, p: nat, fault: bool)
    requires Safe(s) && Holds(s, p) && Releasing(s.procs[p].pc)
    ensures var t := Act(s, p, fault);
      && t.procs[p].token == s.procs[p].token
      && (t.procs[p].pc.Idle? ==> InFile(t, p))
      && (t.procs[p].pc == RelLeave(true) ==> t.lock.None?)
      && !t.procs[p].pc.RelForget?
  {
    assert InFile(s, p);
  }

  // ------------------------------------------------- acquire comes to an end

  predicate Acquiring(pc: Pc) {
    || pc.AcqLink? || pc.AcqLinked? || pc.AcqStat? || pc.AcqRead? || pc.AcqJudge? || pc.AcqReread? || pc.AcqUnlink?
  }

  /** System calls left before `acquire` leaves the guard, unless re-reading the record fails. */
  function CallsLeft(s: Host, p: nat): nat
    requires p in s.procs
  {
    match s.procs[p].pc
    case AcqLink(_) => if s.lock.None? then 2 else 8
    case AcqLinked(_) => 1
    case AcqStat(_) => 7
    case AcqRead(_) => 6
    case AcqJudge(_, _) => 5
    case AcqReread(_, _) => 4
    case AcqUnlink(_, _) => 3
    case _ => 0
  }

  /** Under the guard each call brings `acquire` closer to its end; only a failing re-read of the
      record, which the source takes for a changed one, sends it back. */
  lemma AcquireProgresses(s: Host, p: nat, fault: bool)
    requires Safe(s) && IsLive(s, p) && Acquiring(s.procs[p].pc)
    ensures CallsLeft(Act(s, p, fault), p) < CallsLeft(s, p) || (fault && s.procs[p].pc.AcqReread?)
    ensures Acquiring(Act(s, p, fault).procs[p].pc) || Act(s, p, fault).procs[p].pc.AcqLeave?
  {
    assert MemoryOk(s, p);
  }

  /** Meanwhile no other process can set it back. */
  lemma OthersDoNotInterfere(s: Host, p: nat, e: Event)
    requires Safe(s) && IsLive(s, p) && Acquiring(s.procs[p].pc) && Possible(s, e) && !(e.Steps? && e.p == p)
    requires IsLive(Next(s, e), p)
    ensures Next(s, e).procs[p] == s.procs[p] && Next(s, e).lock == s.lock && CallsLeft(Next(s, e), p) == CallsLeft(s, p)
  {
    assert s.guard == Some(p);
  }

  /** `n` system calls of one process, none failing. */
  ghost function Acts(s: Host, p: nat, n: nat): Host
    requires p in s.procs
    decreases n
  {
    if n == 0 then s else Acts(Act(s, p, false), p, n - 1)
  }

  /** The next call of a process, when it does not fail, and when the guard is not taken. */
  lemma FreeLockIsTaken(s: Host, p: nat, tok: nat)
    requires Safe(s) && IsLive(s, p) && s.procs[p].pc == AcqLink(tok) && s.lock.None?
    ensures var t := Acts(s, p, 3);
      && p in t.procs && Holds(t, p) && t.procs[p].pc.Idle? && t.guard.None?
      && t.procs[p].token == Some(tok) && t.lock == Some(Owned(tok, s.procs[p].id, None))
  {
    var s1 := Act(s, p, false);
    var s2 := Act(s1, p, false);
    assert s1.procs[p].pc == AcqLinked(tok) && s2.procs[p].pc == AcqLeave(true);
    assert Acts(s, p, 3) == Acts(s1, p, 2) == Acts(s2, p, 1) == Act(s2, p, false);
  }

  /** Nobody owns the record in the file. */
  ghost predicate Unowned(s: Host) {
    && s.lock.Some?
    && ((s.lock.value.Owned? && NobodyIs(s, s.lock.value.owner)) || (s.lock.value.Legacy? && !HasLivePid(s, s.lock.value.pid)))
  }

  /** A release that finds no record, or another's, drops the token and leaves the file as it is. */
  lemma ForeignRecordIsNotReleased(s: Host, p: nat)
    requires IsLive(s, p)
    requires var pc := s.procs[p].pc;
      (pc.RelStat? && s.lock.None?)
      || (pc.RelRead? && s.lock.Some? && !s.lock.value.Malformed? && Some(s.lock.value.token) != s.procs[p].token)
    ensures var t := Acts(s, p, 2);
      p in t.procs && t.lock == s.lock && t.procs[p].token.None? && t.procs[p].pc.Idle? && t.guard.None?
  {
    var s1 := Act(s, p, false);
    assert Acts(s, p, 2) == Acts(s1, p, 1) == Act(s1, p, false);
  }

  lemma GotoTwice(s: Host, p: nat, first: Pc, then': Pc)
    requires p in s.procs
    ensures Goto(Goto(s, p, first), p, then') == Goto(s, p, then')
  {
    assert s.procs[p := s.procs[p].(pc := first)][p := s.procs[p].(pc := then')] == s.procs[p := s.procs[p].(pc := then')];
  }

  /** Under the guard, with nothing failing, a record that is in the file is read and judged. */
  lemma RecordIsJudged(s: Host, p: nat, tok: nat)
    requires Safe(s) && IsLive(s, p) && s.procs[p].pc == AcqLink(tok) && s.lock.Some?
    requires s.lock.value.Owned? || s.lock.value.Legacy?
    ensures var t := Acts(s, p, 3);
      t == Goto(s, p, AcqJudge(tok, s.lock.value)) && Safe(t) && IsLive(t, p) && (Unowned(t) <==> Unowned(s))
  {
    var seen := s.lock.value;
    var s1, s2, s3 := Goto(s, p, AcqStat(tok)), Goto(s, p, AcqRead(tok)), Goto(s, p, AcqJudge(tok, seen));
    StepStaysSafe(s, p, false);
    GotoTwice(s, p, AcqStat(tok), AcqRead(tok));
    StepStaysSafe(s1, p, false);
    GotoTwice(s, p, AcqRead(tok), AcqJudge(tok, seen));
    StepStaysSafe(s2, p, false);
    ThreeActs(s, s1, s2, s3, p);
    SameOwners(s, s3);
  }

  lemma ThreeActs(s: Host, s1: Host, s2: Host, s3: Host, p: nat)
    requires p in s.procs && p in s1.procs && p in s2.procs
    requires s1 == Act(s, p, false) && s2 == Act(s1, p, false) && s3 == Act(s2, p, false)
    ensures Acts(s, p, 3) == s3
  {
    assert Acts(s, p, 3) == Acts(s1, p, 2) == Acts(s2, p, 1) == Acts(s3, p, 0);
  }

  lemma SameOwners(s: Host, t: Host)
    requires t.lock == s.lock && t.procs.Keys == s.procs.Keys
    requires forall q :: q in s.procs ==> t.procs[q].id == s.procs[q].id && t.procs[q].live == s.procs[q].live
    ensures Unowned(t) <==> Unowned(s)
  {
    assert forall q :: IsLive(s, q) <==> IsLive(t, q);
    if s.lock.Some? && s.lock.value.Owned? {
      assert NobodyIs(s, s.lock.value.owner) <==> NobodyIs(t, s.lock.value.owner);
    } else if s.lock.Some? && s.lock.value.Legacy? {
      assert HasLivePid(s, s.lock.value.pid) ==> HasLivePid(t, s.lock.value.pid);
      assert HasLivePid(t, s.lock.value.pid) ==> HasLivePid(s, s.lock.value.pid);
    }
  }

  /** Recovery works: a judged record that nobody owns gives way to the new one. */
  lemma UnownedRecordIsReplaced(s: Host, p: nat, tok: nat)
    requires Safe(s) && IsLive(s, p) && s.lock.Some? && s.procs[p].pc == AcqJudge(tok, s.lock.value)
    requires s.procs[p].recover && Unowned(s)
    ensures var t := Acts(s, p, 6);
      && p in t.procs && Holds(t, p) && t.procs[p].pc.Idle? && t.guard.None?
      && t.procs[p].token == Some(tok) && t.lock == Some(Owned(tok, s.procs[p].id, None))
  {
    JudgesExactly(s, p, false);
    StepStaysSafe(s, p, false);
    var s1 := Act(s, p, false);
    assert !(s.lock.value.Legacy? && exists q :: IsLive(s, q) && s.procs[q].id.pid == s.lock.value.pid);
    StepStaysSafe(s1, p, false);
    var s2 := Act(s1, p, false);
    StepStaysSafe(s2, p, false);
    var s3 := Act(s2, p, false);
    assert s1.procs[p].pc.AcqReread? && s2.procs[p].pc.AcqUnlink? && s3.procs[p].pc == AcqLink(tok);
    FreeLockIsTaken(s3, p, tok);
    assert Acts(s, p, 6) == Acts(s1, p, 5) == Acts(s2, p, 4) == Acts(s3, p, 3);
  }

  /** An owned record, or one recovery was not asked for, is left alone and the call fails. */
  lemma OwnedRecordIsLeft(s: Host, p: nat, tok: nat)
    requires Safe(s) && IsLive(s, p) && s.lock.Some? && s.procs[p].pc == AcqJudge(tok, s.lock.value)
    requires !s.procs[p].recover || !Unowned(s)
    ensures var t := Acts(s, p, 3);
      && p in t.procs && t.lock == s.lock && t.procs[p].pc.Idle? && t.procs[p].token.None? && t.guard.None?
  {
    var s1 := Goto(s, p, AcqLeave(false));
    assert Act(s, p, false) == s1 by {
      JudgesExactly(s, p, false);
      assert s.lock.value.Legacy? && HasLivePid(s, s.lock.value.pid) ==>
          exists q :: IsLive(s, q) && s.procs[q].id.pid == s.lock.value.pid;
    }
    LeavingForgets(s1, p);
  }

  lemma LeavingForgets(s: Host, p: nat)
    requires p in s.procs && s.procs[p].pc == AcqLeave(false)
    ensures var t := Acts(s, p, 2);
      && p in t.procs && t.lock == s.lock && t.procs[p].pc.Idle? && t.procs[p].token.None? && t.guard.None?
  {
    var s1 := Act(s, p, false);
    assert Acts(s, p, 2) == Acts(s1, p, 1) == Act(s1, p, false);
  }

  /** A holder's release, with nothing failing, leaves neither record nor token. */
  lemma ReleaseFrees(s: Host, p: nat)
    requires Safe(s) && Holds(s, p) && s.procs[p].pc.Idle? && s.guard.None?
    ensures var t := Acts(Begin(s, p, Release), p, 6);
      p in t.procs && t.lock.None? && t.guard.None? && t.procs[p].token.None? && t.procs[p].pc.Idle?
  {
    assert InFile(s, p);
    var s0 := Begin(s, p, Release);
    var s1 := Act(s0, p, false);
    var s2 := Act(s1, p, false);
    var s3 := Act(s2, p, false);
    var s4 := Act(s3, p, false);
    var s5 := Act(s4, p, false);
    assert s1.procs[p].pc.RelStat? && s2.procs[p].pc.RelRead? && s3.procs[p].pc.RelUnlink? && s4.procs[p].pc == RelLeave(true);
    assert Acts(s0, p, 6) == Acts(s1, p, 5) == Acts(s2, p, 4) == Acts(s3, p, 3) == Acts(s4, p, 2) == Acts(s5, p, 1) == Act(s5, p, false);
  }

  /** A holder's run ID is bound once: a null one is filled in, any other stays. */
  lemma BindBindsOnce(s: Host, p: nat, run: nat)
    requires Safe(s) && Holds(s, p) && s.procs[p].pc.Idle? && s.guard.None?
    ensures var t := Acts(Begin(s, p, Bind(run)), p, 4);
      && p in t.procs && t.procs[p].token == s.procs[p].token
      && t.lock == Some(s.lock.value.(runId := if s.lock.value.runId.None? then Some(run) else s.lock.value.runId))
  {
    assert InFile(s, p);
    var s0 := Begin(s, p, Bind(run));
    var s1 := Act(s0, p, false);
    var s2 := Act(s1, p, false);
    var s3 := Act(s2, p, false);
    assert s1.procs[p].pc == BindRead(run) && s1.lock == s.lock;
    assert Acts(s0, p, 4) == Acts(s1, p, 3) == Acts(s2, p, 2) == Acts(s3, p, 1) == Act(s3, p, false);
  }

  /** An acquiring process that already holds the lock meets its own record. */
  lemma HolderMeetsItself(s: Host, p: nat, tok: nat)
    requires Safe(s) && Holds(s, p)
    requires var pc := s.procs[p].pc;
      (pc == AcqEnter(tok) && s.guard.None?) || pc == AcqLink(tok) || pc == AcqStat(tok) || pc == AcqRead(tok)
      || pc == AcqJudge(tok, if s.lock.Some? then s.lock.value else Malformed)
    ensures var t := Act(s, p, false);
      && Safe(t) && Holds(t, p) && t.lock == s.lock
      && t.procs[p].pc == (match s.procs[p].pc
                           case AcqEnter(_) => AcqLink(tok)
                           case AcqLink(_) => AcqStat(tok)
                           case AcqStat(_) => AcqRead(tok)
                           case AcqRead(_) => AcqJudge(tok, t.lock.value)
                           case _ => AcqLeave(false))
  {
    StepStaysSafe(s, p, false);
    assert InFile(s, p);
    StaleMeansNobody(s, s.procs[p].id);
    assert IsLive(s, p);
  }

  /** A corner of the code: a second `acquire` on a lock object that holds the lock fails, as it
      must, and forgets the token, so that the record stays until the process is gone. */
  lemma SecondAcquireForgets(s: Host, p: nat, tok: nat)
    requires Safe(s) && Holds(s, p) && s.procs[p].pc.Idle? && s.guard.None?
    ensures var t := Acts(Begin(s, p, Acquire(tok, true)), p, 7);
      p in t.procs && t.procs[p].token.None? && t.procs[p].pc.Idle? && t.lock == s.lock && InFile(s, p)
  {
    assert InFile(s, p);
    var s0 := Begin(s, p, Acquire(tok, true));
    CallStaysSafe(s, p, Acquire(tok, true));
    HolderMeetsItself(s0, p, tok);
    var s1 := Act(s0, p, false);
    HolderMeetsItself(s1, p, tok);
    var s2 := Act(s1, p, false);
    HolderMeetsItself(s2, p, tok);
    var s3 := Act(s2, p, false);
    HolderMeetsItself(s3, p, tok);
    var s4 := Act(s3, p, false);
    HolderMeetsItself(s4, p, tok);
    LeavingForgets(Act(s4, p, false), p);
    assert Acts(s0, p, 7) == Acts(s1, p, 6) == Acts(s2, p, 5) == Acts(s3, p, 4) == Acts(s4, p, 3)
        == Acts(Act(s4, p, false), p, 2);
  }

  /** The window mutual exclusion leaves out is real: between its own unlink and dropping its token a
      releasing process still has a token, and another may already hold the lock. */
  lemma TokenOutlivesRecord(s: Host, p: nat, q: nat, tok: nat)
    requires Safe(s) && IsLive(s, p) && IsLive(s, q) && p != q && s.guard.None? && s.lock.None?
    requires s.procs[p].pc.RelForget? && s.procs[p].token.Some? && s.procs[q].pc.Idle?
    ensures var t := Acts(Begin(s, q, Acquire(tok, true)), q, 4);
      && p in t.procs && IsLive(t, p) && t.procs[p].token.Some? && !Holds(t, p)
      && Holds(t, q) && InFile(t, q)
  {
    var s0 := Begin(s, q, Acquire(tok, true));
    var s1 := Act(s0, q, false);
    var s2 := Act(s1, q, false);
    var s3 := Act(s2, q, false);
    assert s1.procs[q].pc == AcqLink(tok) && s2.procs[q].pc == AcqLinked(tok) && s3.procs[q].pc == AcqLeave(true);
    assert Acts(s0, q, 4) == Acts(s1, q, 3) == Acts(s2, q, 2) == Acts(s3, q, 1) == Act(s3, q, false);
  }
}
