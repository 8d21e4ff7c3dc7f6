/**
 * The runtime-operation lock of a host: short-lived processes take and check it,
 * a detached holder process keeps it between them, and a token record says whose
 * it is. One step is one system call or one atomic file write; a process may die
 * before any step.
 */
module Fencing {
  import opened Options

  type OpId = nat
  type Pid = nat

  datatype RecordState = Active | Finalized

  datatype Record = Record(op: OpId, token: nat, state: RecordState, holder: Option<Pid>)

  datatype Refusal = OwnedByAnother | AlreadyFinalized | StaleToken

  /** token_decision: None when (op, token) may proceed. */
  function TokenDecision(record: Option<Record>, op: OpId, token: nat, terminal: set<OpId>): Option<Refusal> {
    if record.None? then None
    else
      var r := record.value;
      if r.op != op then
        if r.state == Finalized || r.op in terminal then None else Some(OwnedByAnother)
      else if r.state == Finalized then Some(AlreadyFinalized)
      else if r.token > token then Some(StaleToken)
      else None
  }

  datatype Acquire =
    | Trying(stopped: bool)
    | Suspecting(seen: Record)    // the record names a terminal operation; is its holder alive?
    | Stopping(pid: Pid)          // about to signal a terminal operation's holder
    | Deciding
    | Spawning
    | Recording(holder: Pid)
    | Closing(holder: Pid)

  datatype Finalize = Opening | Judging | Marking

  datatype Check =
    | Reading
    | Looking(seen: Record)       // the record matched; is its holder alive?
    | Probing(seen: Record)       // it was; is the lock held?
    | Letting                     // the probe took a free lock and drops it
    | Passed

  datatype Release = Finding | Watching(seen: Record) | Ending(pid: Pid)

  datatype Proc =
    | Acquirer(op: OpId, token: nat, terminal: set<OpId>, acquire: Acquire)
    | Finalizer(op: OpId, token: nat, finalize: Finalize)
    | Releaser(op: OpId, token: nat, release: Release)
    | Checker(op: OpId, token: nat, check: Check)
    | Holder(op: OpId, token: nat)

  /** `lockers` are the processes with a descriptor of the locked file open; the
      lock is free when there is none. `used` are the pids seen so far (pid plus
      start time is unique). The last two fields are history: the highest token an
      operation acquired with, and the operations whose record was replaced. */
  datatype Host = Host(
    procs: map<Pid, Proc>, used: set<Pid>, lockers: set<Pid>, record: Option<Record>,
    highest: map<OpId, nat>, retired: set<OpId>)

  const FRESH: Host := Host(map[], {}, {}, None, map[], {})

  predicate HolderAlive(h: Host, r: Record) {
    r.holder.Some? && r.holder.value in h.procs
  }

  /** What check_fence asks, taken at one instant. */
  predicate Fenced(h: Host, op: OpId, token: nat) {
    && h.record.Some? && h.record.value.op == op && h.record.value.token == token
    && h.record.value.state == Active && HolderAlive(h, h.record.value) && h.lockers != {}
  }

  function Put(h: Host, p: Pid, proc: Proc): Host {
    h.(procs := h.procs[p := proc])
  }

  /** A process exits or is killed; its descriptors are closed. */
  function Gone(h: Host, p: Pid): Host {
    h.(procs := h.procs - {p}, lockers := h.lockers - {p})
  }

  function WriteRecord(h: Host, r: Record): Host {
    h.(record := Some(r),
       highest := if r.state == Active && (r.op !in h.highest || h.highest[r.op] < r.token)
                  then h.highest[r.op := r.token] else h.highest,
       retired := if h.record.Some? && h.record.value.op != r.op then h.retired + {h.record.value.op}
                  else h.retired)
  }

  /** One step of process p; `fresh` is the pid a fork would get. The only effect of
      a signal is that its target may exit, which it may do at any time anyway (TTL). */
  function Advance(h: Host, p: Pid, newPid: Pid): Host
    requires p in h.procs
  {
    match h.procs[p]
    case Acquirer(op, token, terminal, stage) => AdvanceAcquire(h, p, op, token, terminal, stage, newPid)
    case Finalizer(op, token, stage) => AdvanceFinalize(h, p, op, token, stage)
    case Releaser(op, token, stage) => AdvanceRelease(h, p, op, token, stage)
    case Checker(op, token, stage) => AdvanceCheck(h, p, op, token, stage)
    case Holder(_, _) => Gone(h, p)
  }

  /** cmd_acquire over _open_lock */
  function AdvanceAcquire(h: Host, p: Pid, op: OpId, token: nat, terminal: set<OpId>, stage: Acquire,
                          newPid: Pid): Host
  {
    match stage
    case Trying(stopped) =>
      if h.lockers == {} then Put(h, p, Acquirer(op, token, terminal, Deciding)).(lockers := {p})
      else if stopped then h  // retry until the deadline, or give up: see Die
      else if h.record.Some? && h.record.value.op in terminal
      then Put(h, p, Acquirer(op, token, terminal, Suspecting(h.record.value)))
      else Gone(h, p)
    case Suspecting(seen) =>
      if HolderAlive(h, seen) then Put(h, p, Acquirer(op, token, terminal, Stopping(seen.holder.value))) else Gone(h, p)
    case Stopping(_) => Put(h, p, Acquirer(op, token, terminal, Trying(true)))
    case Deciding =>
      if TokenDecision(h.record, op, token, terminal).Some? then Gone(h, p)
      else Put(h, p, Acquirer(op, token, terminal, Spawning))
    case Spawning =>
      if newPid in h.used then h
      else
        Put(Put(h, p, Acquirer(op, token, terminal, Recording(newPid))), newPid, Holder(op, token))
          .(used := h.used + {newPid}, lockers := h.lockers + {newPid})
    case Recording(holder) =>
      Put(WriteRecord(h, Record(op, token, Active, Some(holder))), p,
          Acquirer(op, token, terminal, Closing(holder)))
    case Closing(_) => Gone(h, p)
  }

  /** cmd_finalize */
  function AdvanceFinalize(h: Host, p: Pid, op: OpId, token: nat, stage: Finalize): Host {
    match stage
    case Opening =>
      if h.lockers == {} then Put(h, p, Finalizer(op, token, Judging)).(lockers := {p}) else Gone(h, p)
    case Judging =>
      if h.record.None? || h.record.value.op != op || h.record.value.state == Finalized
         || TokenDecision(h.record, op, token, {}).Some?
      then Gone(h, p)
      else Put(h, p, Finalizer(op, token, Marking))
    case Marking => Gone(WriteRecord(h, Record(op, token, Finalized, None)), p)
  }

  /** cmd_release */
  function AdvanceRelease(h: Host, p: Pid, op: OpId, token: nat, stage: Release): Host {
    match stage
    case Finding =>
      if h.record.Some? && h.record.value.op == op && h.record.value.token == token
      then Put(h, p, Releaser(op, token, Watching(h.record.value)))
      else Gone(h, p)
    case Watching(seen) =>
      if HolderAlive(h, seen) then Put(h, p, Releaser(op, token, Ending(seen.holder.value))) else Gone(h, p)
    case Ending(_) => Gone(h, p)
  }

  /** check_fence: three observations at three different times. */
  function AdvanceCheck(h: Host, p: Pid, op: OpId, token: nat, stage: Check): Host {
    match stage
    case Reading =>
      if h.record.Some? && h.record.value.op == op && h.record.value.token == token
         && h.record.value.state == Active && h.record.value.holder.Some?
      then Put(h, p, Checker(op, token, Looking(h.record.value)))
      else Gone(h, p)
    case Looking(seen) =>
      if HolderAlive(h, seen) then Put(h, p, Checker(op, token, Probing(seen))) else Gone(h, p)
    case Probing(_) =>
      if h.lockers == {} then Put(h, p, Checker(op, token, Letting)).(lockers := {p})
      else Put(h, p, Checker(op, token, Passed))
    case Letting => Gone(h, p)
    case Passed => Gone(h, p)
  }

  datatype Event =
    | Launch(p: Pid, proc: Proc)
    | Go(p: Pid, newPid: Pid)
    | Die(p: Pid)

  ghost predicate Entry(proc: Proc) {
    || (proc.Acquirer? && proc.acquire == Trying(false))
    || (proc.Finalizer? && proc.finalize == Opening)
    || (proc.Releaser? && proc.release == Finding)
    || (proc.Checker? && proc.check == Reading)
  }

  ghost predicate Possible(h: Host, e: Event) {
    match e
    case Launch(p, proc) => p !in h.used && Entry(proc)
    case Go(p, _) => p in h.procs
    case Die(p) => p in h.procs
  }

  ghost function Occurs(h: Host, e: Event): Host
    requires Possible(h, e)
  {
    match e
    case Launch(p, proc) => Put(h, p, proc).(used := h.used + {p})
    case Go(p, newPid) => Advance(h, p, newPid)
    case Die(p) => Gone(h, p)
  }

  ghost predicate Follows(h: Host, e: Event, h': Host) {
    Possible(h, e) && h' == Occurs(h, e)
  }

  ghost predicate Run(hosts: seq<Host>, events: seq<Event>) {
    && |hosts| == |events| + 1 && hosts[0] == FRESH
    && forall i {:trigger events[i]} :: 0 <= i < |events| ==> Follows(hosts[i], events[i], hosts[i + 1])
  }

  /** The process a locker with the lock but no holder of its own yet may be. */
  ghost predicate LockHolding(proc: Proc) {
    || proc.Holder?
    || (proc.Acquirer? && !proc.acquire.Trying? && !proc.acquire.Suspecting? && !proc.acquire.Stopping?)
    || (proc.Finalizer? && proc.finalize != Opening)
    || (proc.Checker? && proc.check == Letting)
  }

  /** The process may still write the token record. */
  ghost predicate Writer(proc: Proc) {
    LockHolding(proc) && !proc.Holder? && !proc.Checker?
    && !(proc.Acquirer? && proc.acquire.Closing?)
  }

  ghost function Spawned(proc: Proc): Option<Pid> {
    if proc.Acquirer? && proc.acquire.Recording? then Some(proc.acquire.holder)
    else if proc.Acquirer? && proc.acquire.Closing? then Some(proc.acquire.holder)
    else None
  }

  /** Lockers are exactly the living processes that hold the lock, and two of them
      are the acquirer that just spawned a holder, and that holder. */
  ghost predicate LockOk(h: Host) {
    && (forall p :: p in h.procs ==> p in h.used)
    && (forall p :: p in h.lockers <==> p in h.procs && LockHolding(h.procs[p]))
    && (forall p, q :: p in h.lockers && q in h.lockers && p != q ==>
          || (Spawned(h.procs[p]) == Some(q) && h.procs[q].Holder?)
          || (Spawned(h.procs[q]) == Some(p) && h.procs[p].Holder?))
    && (forall p :: p in h.procs && Spawned(h.procs[p]).Some? ==> Spawned(h.procs[p]).value in h.used)
  }

  /** The record's holder, while it lives, was spawned for the record, and no process
      that could still write the record coexists with it. */
  ghost predicate RecordOk(h: Host) {
    && (h.record.Some? && h.record.value.holder.Some? ==> h.record.value.holder.value in h.used)
    && (h.record.Some? && HolderAlive(h, h.record.value) ==>
          h.procs[h.record.value.holder.value] == Holder(h.record.value.op, h.record.value.token))
    && (forall p :: p in h.procs && Writer(h.procs[p]) ==>
          !(h.record.Some? && HolderAlive(h, h.record.value)))
    && (forall p :: p in h.procs && Writer(h.procs[p]) && h.procs[p].Acquirer? && h.procs[p].acquire.Recording? ==>
          var a := h.procs[p];
          (a.acquire.holder in h.procs ==> h.procs[a.acquire.holder] == Holder(a.op, a.token))
          && !(h.record.Some? && h.record.value.holder == Some(a.acquire.holder)))
  }

  /** What a writer decided still holds of the record it is about to replace. */
  ghost predicate DecisionsOk(h: Host) {
    forall p :: p in h.procs ==> Decided(h.record, h.procs[p])
  }

  ghost predicate Decided(record: Option<Record>, proc: Proc) {
    match proc
    case Acquirer(op, token, terminal, Spawning) => TokenDecision(record, op, token, terminal) == None
    case Acquirer(op, token, terminal, Recording(_)) => TokenDecision(record, op, token, terminal) == None
    case Finalizer(op, token, Marking) =>
      record.Some? && record.value.op == op && TokenDecision(record, op, token, {}) == None
    case _ => true
  }

  /** What a process has seen of the record's holder stays true of it: a checker past its
      first observation still reads the same record if that holder is alive. */
  ghost predicate Believes(h: Host, proc: Proc) {
    match proc
    case Checker(op, token, Looking(seen)) =>
      && seen.op == op && seen.token == token && seen.state == Active && seen.holder.Some?
      && seen.holder.value in h.used
      && (HolderAlive(h, seen) ==> h.record == Some(seen))
    case Releaser(op, token, Watching(seen)) => seen.op == op && seen.token == token && HolderOnce(h, seen)
    case Acquirer(_, _, terminal, Suspecting(seen)) => seen.op in terminal && HolderOnce(h, seen)
    case Releaser(op, token, Ending(pid)) =>
      pid in h.used && (pid in h.procs ==> h.procs[pid] == Holder(op, token))
    case Acquirer(_, _, terminal, Stopping(pid)) =>
      pid in h.used && (pid in h.procs ==> h.procs[pid].Holder? && h.procs[pid].op in terminal)
    case _ => true
  }

  /** A pid that a record once named is that record's holder, if it lives. */
  ghost predicate HolderOnce(h: Host, seen: Record) {
    seen.holder.Some? ==>
      seen.holder.value in h.used
      && (seen.holder.value in h.procs ==> h.procs[seen.holder.value] == Holder(seen.op, seen.token))
  }

  ghost predicate ChecksOk(h: Host) {
    forall p :: p in h.procs ==> Believes(h, h.procs[p])
  }

  ghost predicate Inv(h: Host) {
    LockOk(h) && RecordOk(h) && DecisionsOk(h) && ChecksOk(h)
  }
}
