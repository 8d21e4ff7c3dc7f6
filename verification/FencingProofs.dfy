/** What the fence guarantees, in every run of acquires, releases, finalizes, checks,
    holder exits and crashes. */
module FencingProofs {
  import opened Options
  import opened Fencing

  // --- Preservation -----------------------------------------------------------------

  lemma GoneKeeps(h: Host, p: Pid)
    requires Inv(h) && p in h.procs
    ensures Inv(Gone(h, p))
  {
  }

  lemma LaunchKeeps(h: Host, p: Pid, proc: Proc)
    requires Inv(h) && p !in h.used && Entry(proc)
    ensures Inv(Occurs(h, Launch(p, proc)))
  {
    LaunchLock(h, p, proc);
    LaunchRecord(h, p, proc);
    LaunchChecks(h, p, proc);
  }

  lemma LaunchLock(h: Host, p: Pid, proc: Proc)
    requires LockOk(h) && p !in h.used && Entry(proc)
    ensures LockOk(Occurs(h, Launch(p, proc)))
  {
  }

  lemma LaunchRecord(h: Host, p: Pid, proc: Proc)
    requires LockOk(h) && RecordOk(h) && DecisionsOk(h) && p !in h.used && Entry(proc)
    ensures RecordOk(Occurs(h, Launch(p, proc))) && DecisionsOk(Occurs(h, Launch(p, proc)))
  {
  }

  lemma LaunchChecks(h: Host, p: Pid, proc: Proc)
    requires ChecksOk(h) && p !in h.used && Entry(proc)
    ensures ChecksOk(Occurs(h, Launch(p, proc)))
  {
    var h' := Occurs(h, Launch(p, proc));
    forall q | q in h'.procs ensures Believes(h', h'.procs[q]) {
      if q != p { assert Believes(h, h.procs[q]); }
    }
  }

  /** A process without the lock that goes on without it disturbs nobody. */
  lemma RelabelKeeps(h: Host, p: Pid, proc: Proc)
    requires Inv(h) && p in h.procs && !LockHolding(h.procs[p]) && !LockHolding(proc)
    requires Believes(h, proc)
    ensures Inv(Put(h, p, proc))
  {
    var h' := Put(h, p, proc);
    RelabelLock(h, p, proc);
    RelabelRecord(h, p, proc);
    forall q | q in h'.procs ensures Believes(h', h'.procs[q]) {
      if q != p { assert Believes(h, h.procs[q]); }
    }
  }

  lemma RelabelLock(h: Host, p: Pid, proc: Proc)
    requires LockOk(h) && p in h.procs && !LockHolding(h.procs[p]) && !LockHolding(proc)
    ensures LockOk(Put(h, p, proc))
  {
  }

  lemma RelabelRecord(h: Host, p: Pid, proc: Proc)
    requires RecordOk(h) && DecisionsOk(h) && p in h.procs && !LockHolding(h.procs[p]) && !LockHolding(proc)
    ensures RecordOk(Put(h, p, proc)) && DecisionsOk(Put(h, p, proc))
  {
  }

  /** Only a process with the lock and nobody else's holder beside it writes. */
  lemma WriterIsAlone(h: Host, p: Pid)
    requires Inv(h) && p in h.procs && Writer(h.procs[p])
    ensures forall q :: q in h.lockers ==> q == p || Spawned(h.procs[p]) == Some(q)
    ensures forall q :: q in h.procs && h.procs[q].Holder? ==> Spawned(h.procs[p]) == Some(q)
    ensures forall q :: q in h.procs && Writer(h.procs[q]) ==> q == p
  {
    assert p in h.lockers;
    assert forall q :: q in h.procs && h.procs[q].Holder? ==> q in h.lockers;
    assert forall q :: q in h.procs && Writer(h.procs[q]) ==> q in h.lockers;
  }

  lemma AcquireKeeps(h: Host, p: Pid, newPid: Pid)
    requires Inv(h) && p in h.procs && h.procs[p].Acquirer?
    ensures Inv(Advance(h, p, newPid))
  {
    var a := h.procs[p];
    match a.acquire
    case Trying(_) => TryingKeeps(h, p, newPid);
    case Suspecting(seen) => SuspectingKeeps(h, p, newPid);
    case Stopping(_) => RelabelKeeps(h, p, Acquirer(a.op, a.token, a.terminal, Trying(true)));
    case Deciding =>
      if TokenDecision(h.record, a.op, a.token, a.terminal).Some? { GoneKeeps(h, p); }
      else { HolderMoves(h, p, Acquirer(a.op, a.token, a.terminal, Spawning)); }
    case Spawning => SpawningKeeps(h, p, newPid);
    case Recording(holder) => RecordingKeeps(h, p, newPid);
    case Closing(_) => GoneKeeps(h, p);
  }

  lemma TryingKeeps(h: Host, p: Pid, newPid: Pid)
    requires Inv(h) && p in h.procs && h.procs[p].Acquirer? && h.procs[p].acquire.Trying?
    ensures Inv(Advance(h, p, newPid))
  {
    var a := h.procs[p];
    if h.lockers == {} {
      TakingKeeps(h, p, Acquirer(a.op, a.token, a.terminal, Deciding));
    } else if !a.acquire.stopped && h.record.Some? && h.record.value.op in a.terminal {
      RecordedOnce(h);
      RelabelKeeps(h, p, Acquirer(a.op, a.token, a.terminal, Suspecting(h.record.value)));
    } else if !a.acquire.stopped {
      GoneKeeps(h, p);
    }
  }

  lemma RecordedOnce(h: Host)
    requires RecordOk(h) && h.record.Some?
    ensures HolderOnce(h, h.record.value)
  {
  }

  lemma SuspectingKeeps(h: Host, p: Pid, newPid: Pid)
    requires Inv(h) && p in h.procs && h.procs[p].Acquirer? && h.procs[p].acquire.Suspecting?
    ensures Inv(Advance(h, p, newPid))
  {
    var a := h.procs[p];
    assert Believes(h, a);
    if HolderAlive(h, a.acquire.seen) {
      RelabelKeeps(h, p, Acquirer(a.op, a.token, a.terminal, Stopping(a.acquire.seen.holder.value)));
    } else {
      GoneKeeps(h, p);
    }
  }

  /** A free lock means there is no living holder and no writer. */
  lemma TakingKeeps(h: Host, p: Pid, proc: Proc)
    requires Inv(h) && p in h.procs && h.lockers == {}
    requires LockHolding(proc) && !proc.Holder? && Spawned(proc) == None && Decided(h.record, proc) && Believes(h, proc)
    ensures Inv(Put(h, p, proc).(lockers := {p}))
  {
    assert forall q :: q in h.procs ==> !LockHolding(h.procs[q]);
    var h' := Put(h, p, proc).(lockers := {p});
    assert LockOk(h') && RecordOk(h') && DecisionsOk(h');
    forall q | q in h'.procs ensures Believes(h', h'.procs[q]) {
      if q != p { assert Believes(h, h.procs[q]); }
    }
  }

  /** A process with the lock, and no holder yet, that goes on with it. */
  lemma HolderMoves(h: Host, p: Pid, proc: Proc)
    requires Inv(h) && p in h.procs && Writer(h.procs[p]) && Spawned(h.procs[p]) == None
    requires LockHolding(proc) && !proc.Holder? && Spawned(proc) == None && Decided(h.record, proc) && Believes(h, proc)
    ensures Inv(Put(h, p, proc))
  {
    HolderMovesLock(h, p, proc);
    HolderMovesRecord(h, p, proc);
    PutBelieves(h, p, proc);
  }

  lemma HolderMovesLock(h: Host, p: Pid, proc: Proc)
    requires LockOk(h) && p in h.procs && LockHolding(h.procs[p]) && !h.procs[p].Holder? && Spawned(h.procs[p]) == None
    requires LockHolding(proc) && !proc.Holder? && Spawned(proc) == None
    ensures LockOk(Put(h, p, proc))
  {
  }

  lemma HolderMovesRecord(h: Host, p: Pid, proc: Proc)
    requires RecordOk(h) && DecisionsOk(h) && p in h.procs && Writer(h.procs[p]) && !h.procs[p].Holder?
    requires LockHolding(proc) && !proc.Holder? && Spawned(proc) == None && Decided(h.record, proc)
    ensures RecordOk(Put(h, p, proc)) && DecisionsOk(Put(h, p, proc))
  {
  }

  lemma PutBelieves(h: Host, p: Pid, proc: Proc)
    requires ChecksOk(h) && p in h.procs && !h.procs[p].Holder? && !proc.Holder? && Believes(h, proc)
    ensures ChecksOk(Put(h, p, proc))
  {
    var h' := Put(h, p, proc);
    forall q | q in h'.procs ensures Believes(h', h'.procs[q]) {
      if q != p { assert Believes(h, h.procs[q]); }
    }
  }

  function Spawn(h: Host, p: Pid, a: Proc, q: Pid): Host
    requires a.Acquirer?
  {
    Put(Put(h, p, Acquirer(a.op, a.token, a.terminal, Recording(q))), q, Holder(a.op, a.token))
      .(used := h.used + {q}, lockers := h.lockers + {q})
  }

  lemma SpawningLock(h: Host, p: Pid, a: Proc, q: Pid)
    requires LockOk(h) && p in h.procs && h.procs[p] == a && a.Acquirer? && a.acquire == Spawning && q !in h.used
    requires forall r :: r in h.lockers ==> r == p
    ensures LockOk(Spawn(h, p, a, q))
  {
  }

  lemma SpawningRecord(h: Host, p: Pid, a: Proc, q: Pid)
    requires LockOk(h) && RecordOk(h) && DecisionsOk(h)
    requires p in h.procs && h.procs[p] == a && a.Acquirer? && a.acquire == Spawning && q !in h.used
    ensures RecordOk(Spawn(h, p, a, q)) && DecisionsOk(Spawn(h, p, a, q))
  {
  }

  lemma SpawningBeliefs(h: Host, p: Pid, a: Proc, q: Pid)
    requires LockOk(h) && ChecksOk(h) && p in h.procs && h.procs[p] == a && a.Acquirer? && a.acquire == Spawning && q !in h.used
    ensures ChecksOk(Spawn(h, p, a, q))
  {
    var h' := Spawn(h, p, a, q);
    forall r | r in h'.procs ensures Believes(h', h'.procs[r]) {
      if r != p && r != q { assert Believes(h, h.procs[r]); }
    }
  }

  lemma SpawningKeeps(h: Host, p: Pid, newPid: Pid)
    requires Inv(h) && p in h.procs && h.procs[p].Acquirer? && h.procs[p].acquire == Spawning
    ensures Inv(Advance(h, p, newPid))
  {
    WriterIsAlone(h, p);
    if newPid !in h.used {
      SpawningLock(h, p, h.procs[p], newPid);
      SpawningRecord(h, p, h.procs[p], newPid);
      SpawningBeliefs(h, p, h.procs[p], newPid);
      assert Advance(h, p, newPid) == Spawn(h, p, h.procs[p], newPid);
    }
  }

  lemma RecordingKeeps(h: Host, p: Pid, newPid: Pid)
    requires Inv(h) && p in h.procs && h.procs[p].Acquirer? && h.procs[p].acquire.Recording?
    ensures Inv(Advance(h, p, newPid))
  {
    WriterIsAlone(h, p);
  }

  lemma FinalizeKeeps(h: Host, p: Pid, newPid: Pid)
    requires Inv(h) && p in h.procs && h.procs[p].Finalizer?
    ensures Inv(Advance(h, p, newPid))
  {
    var f := h.procs[p];
    match f.finalize
    case Opening =>
      if h.lockers != {} { GoneKeeps(h, p); } else { TakingKeeps(h, p, Finalizer(f.op, f.token, Judging)); }
    case Judging =>
      if Advance(h, p, newPid) == Gone(h, p) { GoneKeeps(h, p); }
      else { HolderMoves(h, p, Finalizer(f.op, f.token, Marking)); }
    case Marking => MarkingKeeps(h, p, newPid);
  }

  lemma MarkingKeeps(h: Host, p: Pid, newPid: Pid)
    requires Inv(h) && p in h.procs && h.procs[p].Finalizer? && h.procs[p].finalize == Marking
    ensures Inv(Advance(h, p, newPid))
  {
    WriterIsAlone(h, p);
  }

  lemma ReleaseKeeps(h: Host, p: Pid, newPid: Pid)
    requires Inv(h) && p in h.procs && h.procs[p].Releaser?
    ensures Inv(Advance(h, p, newPid))
  {
    var h', r := Advance(h, p, newPid), h.procs[p];
    assert Believes(h, r);
    if r.release == Finding && h' != Gone(h, p) {
      RecordedOnce(h);
      RelabelKeeps(h, p, Releaser(r.op, r.token, Watching(h.record.value)));
    } else if r.release.Watching? && h' != Gone(h, p) {
      RelabelKeeps(h, p, Releaser(r.op, r.token, Ending(r.release.seen.holder.value)));
    } else {
      GoneKeeps(h, p);
    }
  }

  lemma CheckKeeps(h: Host, p: Pid, newPid: Pid)
    requires Inv(h) && p in h.procs && h.procs[p].Checker?
    ensures Inv(Advance(h, p, newPid))
  {
    match h.procs[p].check
    case Reading => ReadingKeeps(h, p, newPid);
    case Looking(_) => LookingKeeps(h, p, newPid);
    case Probing(_) => ProbingKeeps(h, p, newPid);
    case Letting => GoneKeeps(h, p);
    case Passed => GoneKeeps(h, p);
  }

  lemma ReadingKeeps(h: Host, p: Pid, newPid: Pid)
    requires Inv(h) && p in h.procs && h.procs[p].Checker? && h.procs[p].check == Reading
    ensures Inv(Advance(h, p, newPid))
  {
    var c := h.procs[p];
    if Advance(h, p, newPid) == Gone(h, p) {
      GoneKeeps(h, p);
    } else {
      RelabelKeeps(h, p, Checker(c.op, c.token, Looking(h.record.value)));
    }
  }

  lemma LookingKeeps(h: Host, p: Pid, newPid: Pid)
    requires Inv(h) && p in h.procs && h.procs[p].Checker? && h.procs[p].check.Looking?
    ensures Inv(Advance(h, p, newPid))
  {
    var c := h.procs[p];
    if HolderAlive(h, c.check.seen) {
      RelabelKeeps(h, p, Checker(c.op, c.token, Probing(c.check.seen)));
    } else {
      GoneKeeps(h, p);
    }
  }

  lemma ProbingKeeps(h: Host, p: Pid, newPid: Pid)
    requires Inv(h) && p in h.procs && h.procs[p].Checker? && h.procs[p].check.Probing?
    ensures Inv(Advance(h, p, newPid))
  {
    var c := h.procs[p];
    if h.lockers == {} { TakingKeeps(h, p, Checker(c.op, c.token, Letting)); }
    else { RelabelKeeps(h, p, Checker(c.op, c.token, Passed)); }
  }

  lemma EventKeeps(h: Host, e: Event)
    requires Inv(h) && Possible(h, e)
    ensures Inv(Occurs(h, e))
  {
    match e
    case Launch(p, proc) => LaunchKeeps(h, p, proc);
    case Die(p) => GoneKeeps(h, p);
    case Go(p, newPid) =>
      match h.procs[p] {
        case Acquirer(_, _, _, _) => AcquireKeeps(h, p, newPid);
        case Finalizer(_, _, _) => FinalizeKeeps(h, p, newPid);
        case Releaser(_, _, _) => ReleaseKeeps(h, p, newPid);
        case Checker(_, _, _) => CheckKeeps(h, p, newPid);
        case Holder(_, _) => GoneKeeps(h, p);
      }
  }

  lemma {:induction false} RunInv(hosts: seq<Host>, events: seq<Event>, i: nat)
    requires Run(hosts, events) && i < |hosts|
    ensures Inv(hosts[i])
  {
    if i > 0 {
      RunInv(hosts, events, i - 1);
      EventKeeps(hosts[i - 1], events[i - 1]);
    }
  }

  // --- One owner ------------------------------------------------------------------------

  /** In every state of every run the fence lets at most one (operation, token)
      through; passing means that the holder recorded for it was spawned for it,
      is alive and holds the lock, and that nobody else holds the lock but the
      acquirer that spawned that holder. */
  lemma OneOwner(hosts: seq<Host>, events: seq<Event>, i: nat, op: OpId, token: nat)
    requires Run(hosts, events) && i < |hosts| && Fenced(hosts[i], op, token)
    ensures var h := hosts[i]; var holder := h.record.value.holder.value;
            && holder in h.lockers && h.procs[holder] == Holder(op, token)
            && (forall q :: q in h.lockers ==> q in h.procs && (q == holder || Spawned(h.procs[q]) == Some(holder)))
            && (forall o, t :: Fenced(h, o, t) ==> o == op && t == token)
  {
    RunInv(hosts, events, i);
  }

  /** A record is never overwritten while the holder it names is alive; in
      particular not by the holder of an acquisition still to be recorded. */
  lemma RecordStandsWhileHeld(hosts: seq<Host>, events: seq<Event>, i: nat)
    requires Run(hosts, events) && i < |events|
    requires hosts[i].record.Some? && HolderAlive(hosts[i], hosts[i].record.value)
    ensures hosts[i + 1].record == hosts[i].record
  {
    RunInv(hosts, events, i);
    var h, e := hosts[i], events[i];
    assert e.Go? ==> !Writer(h.procs[e.p]);
  }

  /** A release, and the takeover of a terminal operation's lock, signal nothing but
      a holder spawned for that very operation and token, or for an operation the
      caller named terminal; a live owner is never touched. */
  lemma SignalsItsOwn(hosts: seq<Host>, events: seq<Event>, i: nat, p: Pid)
    requires Run(hosts, events) && i < |hosts| && p in hosts[i].procs
    ensures var h := hosts[i];
            match h.procs[p] {
              case Releaser(op, token, Ending(pid)) => pid in h.procs ==> h.procs[pid] == Holder(op, token)
              case Acquirer(_, _, terminal, Stopping(pid)) =>
                pid in h.procs ==> h.procs[pid].Holder? && h.procs[pid].op in terminal
              case _ => true
            }
  {
    RunInv(hosts, events, i);
  }

  // --- The three observations are one ----------------------------------------------------

  /** When the second observation finds the holder alive, the whole fence holds at
      that instant. */
  lemma LookIsTheFence(h: Host, p: Pid, newPid: Pid)
    requires Inv(h) && p in h.procs && h.procs[p].Checker? && h.procs[p].check.Looking?
    requires p in Advance(h, p, newPid).procs
    ensures Fenced(h, h.procs[p].op, h.procs[p].token)
  {
    var seen := h.procs[p].check.seen;
    assert h.record == Some(seen);
    assert seen.holder.value in h.lockers;
  }

  ghost predicate PastLook(proc: Proc) {
    proc.Checker? && (proc.check.Probing? || proc.check == Passed)
  }

  /** Although check_fence reads the record, looks for the holder and probes the lock
      at three different times, a check that passed is as good as one taken at a
      single instant of its run. */
  lemma {:induction false} PassedWasFenced(hosts: seq<Host>, events: seq<Event>, i: nat, p: Pid)
    requires Run(hosts, events) && i < |hosts|
    requires p in hosts[i].procs && PastLook(hosts[i].procs[p])
    ensures exists j :: 0 <= j < i && Fenced(hosts[j], hosts[i].procs[p].op, hosts[i].procs[p].token)
                        && p in hosts[j].procs && hosts[j].procs[p].Checker? && hosts[j].procs[p].check.Looking?
  {
    var h, e := hosts[i - 1], events[i - 1];
    RunInv(hosts, events, i - 1);
    EarlierProc(h, e, p);
    if PastLook(h.procs[p]) {
      PassedWasFenced(hosts, events, i - 1, p);
    } else {
      LookIsTheFence(h, p, e.newPid);
      assert Fenced(hosts[i - 1], hosts[i].procs[p].op, hosts[i].procs[p].token);
    }
  }

  /** A checker past its look was the same checker one event earlier, looking or past it. */
  lemma EarlierProc(h: Host, e: Event, p: Pid)
    requires Possible(h, e) && p in Occurs(h, e).procs && PastLook(Occurs(h, e).procs[p])
    ensures p in h.procs && h.procs[p].Checker?
    ensures h.procs[p].op == Occurs(h, e).procs[p].op && h.procs[p].token == Occurs(h, e).procs[p].token
    ensures PastLook(h.procs[p]) || (h.procs[p].check.Looking? && e.Go? && e.p == p)
  {
  }

  // --- Tokens only go up -------------------------------------------------------------------

  /** While the record names one operation its token never decreases. */
  lemma TokenNeverDecreases(hosts: seq<Host>, events: seq<Event>, i: nat)
    requires Run(hosts, events) && i < |events|
    requires hosts[i].record.Some? && hosts[i + 1].record.Some?
    requires hosts[i].record.value.op == hosts[i + 1].record.value.op
    ensures hosts[i].record.value.token <= hosts[i + 1].record.value.token
  {
    RunInv(hosts, events, i);
    assert Follows(hosts[i], events[i], hosts[i + 1]);
  }

  /** The step records an acquisition. */
  ghost predicate Records(h: Host, e: Event) {
    e.Go? && e.p in h.procs && h.procs[e.p].Acquirer? && h.procs[e.p].acquire.Recording?
  }

  /** It does so with a token below the highest its operation ever acquired with. */
  ghost predicate Lowers(h: Host, e: Event) {
    && Records(h, e)
    && h.procs[e.p].op in h.highest && h.procs[e.p].token < h.highest[h.procs[e.p].op]
  }

  ghost predicate NeverLowers(hosts: seq<Host>, events: seq<Event>, n: nat)
    requires |hosts| == |events| + 1 && n < |hosts|
  {
    forall j :: 0 <= j < n ==> !Lowers(hosts[j], events[j])
  }

  ghost predicate AtHighest(h: Host) {
    h.record.Some? && h.record.value.state == Active ==>
      h.record.value.op in h.highest && h.record.value.token == h.highest[h.record.value.op]
  }

  /** An operation that was never displaced is still the recorded one. */
  ghost predicate HistoryOk(h: Host) {
    forall op :: op in h.highest && op !in h.retired ==>
      h.record.Some? && h.record.value.op == op && h.highest[op] <= h.record.value.token
  }

  lemma EventKeepsHistory(h: Host, e: Event)
    requires DecisionsOk(h) && HistoryOk(h) && Possible(h, e)
    ensures HistoryOk(Occurs(h, e))
  {
  }

  lemma {:induction false} RunHistory(hosts: seq<Host>, events: seq<Event>, i: nat)
    requires Run(hosts, events) && i < |hosts|
    ensures HistoryOk(hosts[i])
  {
    if i > 0 {
      RunHistory(hosts, events, i - 1);
      RunInv(hosts, events, i - 1);
      EventKeepsHistory(hosts[i - 1], events[i - 1]);
    }
  }

  /** Only an operation whose record another operation replaced can lower its token. */
  lemma OnlyDisplacedLower(hosts: seq<Host>, events: seq<Event>, i: nat)
    requires Run(hosts, events) && i < |events| && Lowers(hosts[i], events[i])
    ensures hosts[i].procs[events[i].p].op in hosts[i].retired
  {
    RunHistory(hosts, events, i);
    RunInv(hosts, events, i);
  }

  lemma EventAtHighest(h: Host, e: Event)
    requires Possible(h, e) && AtHighest(h)
    ensures AtHighest(Occurs(h, e)) <==> !Lowers(h, e)
  {
  }

  /** The active record carries its operation's highest token throughout a run exactly
      when no acquisition was recorded with a lower one. */
  lemma {:induction false} ExactlyUnlessLowered(hosts: seq<Host>, events: seq<Event>, n: nat)
    requires Run(hosts, events) && n < |hosts|
    ensures (forall i :: 0 <= i <= n ==> AtHighest(hosts[i])) <==> NeverLowers(hosts, events, n)
  {
    forall i | 0 <= i <= n && NeverLowers(hosts, events, n) ensures AtHighest(hosts[i]) {
      StaysAtHighest(hosts, events, i);
    }
    forall j | 0 <= j < n && AtHighest(hosts[j]) && AtHighest(hosts[j + 1]) ensures !Lowers(hosts[j], events[j]) {
      EventAtHighest(hosts[j], events[j]);
      assert Follows(hosts[j], events[j], hosts[j + 1]);
    }
  }

  lemma {:induction false} StaysAtHighest(hosts: seq<Host>, events: seq<Event>, i: nat)
    requires Run(hosts, events) && i < |hosts| && NeverLowers(hosts, events, i)
    ensures AtHighest(hosts[i])
  {
    if i > 0 {
      StaysAtHighest(hosts, events, i - 1);
      EventAtHighest(hosts[i - 1], events[i - 1]);
      assert Follows(hosts[i - 1], events[i - 1], hosts[i]);
    }
  }

  lemma HighestGrows(h: Host, e: Event, op: OpId)
    requires Possible(h, e) && op in h.highest
    ensures op in Occurs(h, e).highest && h.highest[op] <= Occurs(h, e).highest[op]
  {
  }

  lemma {:induction false} HighestStays(hosts: seq<Host>, events: seq<Event>, i: nat, j: nat, op: OpId)
    requires Run(hosts, events) && i <= j < |hosts| && op in hosts[i].highest
    ensures op in hosts[j].highest && hosts[i].highest[op] <= hosts[j].highest[op]
    decreases j - i
  {
    if i < j {
      HighestStays(hosts, events, i, j - 1, op);
      HighestGrows(hosts[j - 1], events[j - 1], op);
    }
  }

  lemma NoLowerUnlessLowered(hosts: seq<Host>, events: seq<Event>, i: nat, j: nat, op: OpId, high: nat, low: nat)
    requires Run(hosts, events) && i <= j < |hosts| && NeverLowers(hosts, events, j)
    requires Fenced(hosts[i], op, high) && low < high
    ensures !Fenced(hosts[j], op, low)
  {
    ExactlyUnlessLowered(hosts, events, j);
    assert AtHighest(hosts[i]) && AtHighest(hosts[j]);
    HighestStays(hosts, events, i, j, op);
  }

  /** No operation is acquired again once another one's record replaced its own. */
  ghost predicate NeverReacquires(hosts: seq<Host>, events: seq<Event>, n: nat)
    requires |hosts| == |events| + 1 && n < |hosts|
  {
    forall j :: 0 <= j < n && Records(hosts[j], events[j]) ==> hosts[j].procs[events[j].p].op !in hosts[j].retired
  }

  /** In every run in which no displaced operation is acquired again: once (op, high) has
      been fenced in, no lower token of op is fenced in ever again. */
  lemma LowerTokenNeverReturns(hosts: seq<Host>, events: seq<Event>, i: nat, j: nat, op: OpId, high: nat, low: nat)
    requires Run(hosts, events) && i <= j < |hosts| && NeverReacquires(hosts, events, j)
    requires Fenced(hosts[i], op, high) && low < high
    ensures !Fenced(hosts[j], op, low)
  {
    forall k | 0 <= k < j ensures !Lowers(hosts[k], events[k]) {
      if Lowers(hosts[k], events[k]) { OnlyDisplacedLower(hosts, events, k); }
    }
    NoLowerUnlessLowered(hosts, events, i, j, op, high, low);
  }

  // --- What callers know -------------------------------------------------------------------

  /** By then the operation had been finalized, or some acquirer named it terminal. */
  ghost predicate Ended(hosts: seq<Host>, j: nat, op: OpId)
    requires j < |hosts|
  {
    exists i :: 0 <= i <= j && EndedAt(hosts[i], op)
  }

  ghost predicate EndedAt(h: Host, op: OpId) {
    || (h.record.Some? && h.record.value.op == op && h.record.value.state == Finalized)
    || exists p :: p in h.procs && h.procs[p].Acquirer? && op in h.procs[p].terminal
  }

  lemma RetiresTheEnded(h: Host, e: Event, op: OpId)
    requires DecisionsOk(h) && Possible(h, e) && op in Occurs(h, e).retired && op !in h.retired
    ensures EndedAt(h, op)
  {
    assert Decided(h.record, h.procs[e.p]);
  }

  /** Only what was finalized or named terminal is ever displaced. */
  lemma {:induction false} DisplacedWasEnded(hosts: seq<Host>, events: seq<Event>, j: nat, op: OpId)
    requires Run(hosts, events) && j < |hosts| && op in hosts[j].retired
    ensures Ended(hosts, j, op)
  {
    assert Follows(hosts[j - 1], events[j - 1], hosts[j]);
    if op in hosts[j - 1].retired {
      DisplacedWasEnded(hosts, events, j - 1, op);
      var i :| 0 <= i <= j - 1 && EndedAt(hosts[i], op);
      assert EndedAt(hosts[i], op);
    } else {
      RunInv(hosts, events, j - 1);
      RetiresTheEnded(hosts[j - 1], events[j - 1], op);
    }
  }

  /** So it suffices that no operation is acquired that was finalized or named terminal. */
  lemma EndedForGood(hosts: seq<Host>, events: seq<Event>, n: nat)
    requires Run(hosts, events) && n < |hosts|
    requires forall j :: 0 <= j < n && Records(hosts[j], events[j]) ==> !Ended(hosts, j, hosts[j].procs[events[j].p].op)
    ensures NeverReacquires(hosts, events, n)
  {
    forall j | 0 <= j < n && Records(hosts[j], events[j])
      ensures hosts[j].procs[events[j].p].op !in hosts[j].retired
    {
      if hosts[j].procs[events[j].p].op in hosts[j].retired {
        DisplacedWasEnded(hosts, events, j, hosts[j].procs[events[j].p].op);
      }
    }
  }

  // --- Exactly when ------------------------------------------------------------------------

  /** A token passes the fence after a higher one of the same operation. */
  ghost predicate DropsAt(hosts: seq<Host>, j: nat, op: OpId, low: nat)
    requires j < |hosts|
  {
    Fenced(hosts[j], op, low) && FencedAbove(hosts, j, op, low)
  }

  ghost predicate FencedAbove(hosts: seq<Host>, j: nat, op: OpId, low: nat)
    requires j < |hosts|
  {
    exists i, high {:trigger Fenced(hosts[i], op, high)} :: 0 <= i <= j && low < high && Fenced(hosts[i], op, high)
  }

  /** An acquisition is recorded, its holder alive, with a token below one that the same
      operation passed the fence with before. */
  ghost predicate RecordsLower(hosts: seq<Host>, events: seq<Event>, k: nat)
    requires |hosts| == |events| + 1 && k < |events|
  {
    && Records(hosts[k], events[k])
    && var a := hosts[k].procs[events[k].p];
    && a.acquire.holder in hosts[k].procs && FencedAbove(hosts, k, a.op, a.token)
  }

  /** What passes the fence was recorded once, its holder alive, and stood since then. */
  lemma {:induction false} PassesSinceRecorded(hosts: seq<Host>, events: seq<Event>, j: nat, op: OpId, token: nat)
    returns (k: nat)
    requires Run(hosts, events) && j < |hosts| && Fenced(hosts[j], op, token)
    ensures k < j && Records(hosts[k], events[k])
    ensures var a := hosts[k].procs[events[k].p];
            a.op == op && a.token == token && a.acquire.holder in hosts[k].procs
    ensures forall i :: k < i <= j ==> hosts[i].record == hosts[j].record
  {
    var h, e := hosts[j - 1], events[j - 1];
    RunInv(hosts, events, j - 1);
    assert Follows(h, e, hosts[j]);
    PassedOneEarlier(h, e, op, token);
    if Records(h, e) {
      k := j - 1;
    } else {
      k := PassesSinceRecorded(hosts, events, j - 1, op, token);
    }
  }

  lemma PassedOneEarlier(h: Host, e: Event, op: OpId, token: nat)
    requires Inv(h) && Possible(h, e) && Fenced(Occurs(h, e), op, token)
    ensures if Records(h, e) then
              var a := h.procs[e.p]; a.op == op && a.token == token && a.acquire.holder in h.procs
            else Fenced(h, op, token) && Occurs(h, e).record == h.record
  {
  }

  lemma RecordingPasses(h: Host, e: Event)
    requires Inv(h) && Possible(h, e) && Records(h, e) && h.procs[e.p].acquire.holder in h.procs
    ensures Fenced(Occurs(h, e), h.procs[e.p].op, h.procs[e.p].token)
  {
  }

  /** In any run: no token ever passes the fence after a higher one of its operation
      exactly when no acquisition was recorded, its holder alive, below a token that its
      operation had passed the fence with. */
  lemma PassesLowerExactly(hosts: seq<Host>, events: seq<Event>)
    requires Run(hosts, events)
    ensures (forall j, op, low :: 0 <= j < |hosts| ==> !DropsAt(hosts, j, op, low))
        <==> forall k :: 0 <= k < |events| ==> !RecordsLower(hosts, events, k)
  {
    forall j: nat, op, low | j < |hosts| && DropsAt(hosts, j, op, low)
      ensures exists k :: 0 <= k < |events| && RecordsLower(hosts, events, k)
    {
      var k := PassesSinceRecorded(hosts, events, j, op, low);
      var i, high :| 0 <= i <= j && low < high && Fenced(hosts[i], op, high);
      assert i <= k;
      assert RecordsLower(hosts, events, k);
    }
    forall k: nat | k < |events| && RecordsLower(hosts, events, k)
      ensures exists j, op, low :: 0 <= j < |hosts| && DropsAt(hosts, j, op, low)
    {
      var a := hosts[k].procs[events[k].p];
      RunInv(hosts, events, k);
      RecordingPasses(hosts[k], events[k]);
      var i, high :| 0 <= i <= k && a.token < high && Fenced(hosts[i], a.op, high);
      assert Follows(hosts[k], events[k], hosts[k + 1]);
      assert DropsAt(hosts, k + 1, a.op, a.token);
    }
  }

  // --- Without the condition ---------------------------------------------------------------

  /** No acquirer names anything terminal. */
  predicate NoneTerminal(events: seq<Event>) {
    forall e | e in events :: e.Launch? && e.proc.Acquirer? ==> e.proc.terminal == {}
  }

  ghost predicate Path(h: Host, events: seq<Event>, h': Host)
    decreases |events|
  {
    if events == [] then h == h'
    else Possible(h, events[0]) && Path(Occurs(h, events[0]), events[1..], h')
  }

  lemma {:induction false} PathOneMore(h: Host, events: seq<Event>, h': Host, e: Event)
    requires Path(h, events, h') && Possible(h', e)
    ensures Path(h, events + [e], Occurs(h', e))
    decreases |events|
  {
    if events == [] {
      assert [e][1..] == [];
    } else {
      assert (events + [e])[0] == events[0] && (events + [e])[1..] == events[1..] + [e];
      PathOneMore(Occurs(h, events[0]), events[1..], h', e);
    }
  }

  /** The host right after an acquisition, its holder being the only process. */
  function Taken(h: Host, p: Pid, q: Pid, op: OpId, token: nat): Host {
    WriteRecord(h, Record(op, token, Active, Some(q)))
      .(procs := map[q := Holder(op, token)], used := h.used + {p} + {q}, lockers := {q})
  }

  ghost predicate Quiet(h: Host, p: Pid, q: Pid) {
    h.procs == map[] && h.lockers == {} && p !in h.used && q !in h.used && p != q
  }

  lemma OneMore(from: Host, before: seq<Event>, h: Host, e: Event, h': Host) returns (after: seq<Event>)
    requires Path(from, before, h) && Possible(h, e) && Occurs(h, e) == h'
    ensures Path(from, after, h') && after == before + [e]
  {
    PathOneMore(from, before, h, e);
    after := before + [e];
  }

  /** The host while p runs an acquisition, nothing else living but perhaps its holder. */
  function Midway(h: Host, p: Pid, a: Proc, lockers: set<Pid>): Host {
    h.(procs := map[p := a], used := h.used + {p}, lockers := lockers)
  }

  function WithHolder(h: Host, p: Pid, a: Proc, q: Pid, op: OpId, token: nat): Host {
    h.(procs := map[p := a, q := Holder(op, token)], used := h.used + {p} + {q}, lockers := {p, q})
  }

  lemma TakesLock(from: Host, before: seq<Event>, h: Host, p: Pid, q: Pid, op: OpId, token: nat, terminal: set<OpId>)
    returns (after: seq<Event>)
    requires Path(from, before, h) && Quiet(h, p, q)
    ensures Path(from, after, Midway(h, p, Acquirer(op, token, terminal, Deciding), {p}))
    ensures NoneTerminal(before) && terminal == {} ==> NoneTerminal(after)
  {
    var start := Acquirer(op, token, terminal, Trying(false));
    after := OneMore(from, before, h, Launch(p, start), Midway(h, p, start, {}));
    after := OneMore(from, after, Midway(h, p, start, {}), Go(p, q),
                     Midway(h, p, Acquirer(op, token, terminal, Deciding), {p}));
  }

  lemma TakesHolder(from: Host, before: seq<Event>, h: Host, p: Pid, q: Pid, op: OpId, token: nat, terminal: set<OpId>)
    returns (after: seq<Event>)
    requires Path(from, before, Midway(h, p, Acquirer(op, token, terminal, Deciding), {p})) && Quiet(h, p, q)
    requires TokenDecision(h.record, op, token, terminal) == None
    ensures Path(from, after, WithHolder(h, p, Acquirer(op, token, terminal, Recording(q)), q, op, token))
    ensures NoneTerminal(before) ==> NoneTerminal(after)
  {
    var decided := Midway(h, p, Acquirer(op, token, terminal, Spawning), {p});
    after := OneMore(from, before, Midway(h, p, Acquirer(op, token, terminal, Deciding), {p}), Go(p, q), decided);
    var spawned := WithHolder(h, p, Acquirer(op, token, terminal, Recording(q)), q, op, token);
    assert Occurs(decided, Go(p, q)).procs == spawned.procs;
    after := OneMore(from, after, decided, Go(p, q), spawned);
  }

  lemma TakesRecord(from: Host, before: seq<Event>, h: Host, p: Pid, q: Pid, op: OpId, token: nat, terminal: set<OpId>)
    returns (after: seq<Event>)
    requires Path(from, before, WithHolder(h, p, Acquirer(op, token, terminal, Recording(q)), q, op, token))
    requires Quiet(h, p, q)
    ensures Path(from, after, Taken(h, p, q, op, token))
    ensures NoneTerminal(before) ==> NoneTerminal(after)
  {
    var spawned := WithHolder(h, p, Acquirer(op, token, terminal, Recording(q)), q, op, token);
    var recorded := WithHolder(WriteRecord(h, Record(op, token, Active, Some(q))), p,
                               Acquirer(op, token, terminal, Closing(q)), q, op, token);
    assert Occurs(spawned, Go(p, q)).procs == recorded.procs;
    after := OneMore(from, before, spawned, Go(p, q), recorded);
    assert recorded.procs - {p} == map[q := Holder(op, token)] && recorded.lockers - {p} == {q};
    after := OneMore(from, after, recorded, Go(p, q), Taken(h, p, q, op, token));
  }

  /** On a quiet host an acquisition that the record allows goes through. */
  lemma Takes(from: Host, before: seq<Event>, h: Host, p: Pid, q: Pid, op: OpId, token: nat, terminal: set<OpId>)
    returns (after: seq<Event>)
    requires Path(from, before, h) && Quiet(h, p, q)
    requires TokenDecision(h.record, op, token, terminal) == None
    ensures Path(from, after, Taken(h, p, q, op, token))
    ensures NoneTerminal(before) && terminal == {} ==> NoneTerminal(after)
  {
    after := TakesLock(from, before, h, p, q, op, token, terminal);
    after := TakesHolder(from, after, h, p, q, op, token, terminal);
    after := TakesRecord(from, after, h, p, q, op, token, terminal);
  }

  function Lapsed(h: Host): Host {
    h.(procs := map[], lockers := {})
  }

  lemma Lapses(from: Host, before: seq<Event>, h: Host, p: Pid, q: Pid, op: OpId, token: nat)
    returns (after: seq<Event>)
    requires Path(from, before, Taken(h, p, q, op, token))
    ensures Path(from, after, Lapsed(Taken(h, p, q, op, token)))
    ensures NoneTerminal(before) ==> NoneTerminal(after)
  {
    var t := Taken(h, p, q, op, token);
    PathOneMore(from, before, t, Die(q));
    assert t.procs - {q} == map[] && t.lockers - {q} == {};
    assert Occurs(t, Die(q)) == Lapsed(t);
    after := before + [Die(q)];
  }

  /** An operation that was named terminal, displaced and then acquires again brings
      a lower token back through the fence. */
  lemma DisplacedOperationBreaksIt()
    ensures exists one, two, h1, h2 ::
              Path(FRESH, one, h1) && Fenced(h1, 1, 5) && Path(h1, two, h2) && Fenced(h2, 1, 3)
  {
    var one := Takes(FRESH, [], FRESH, 0, 1, 1, 5, {});
    var h1 := Taken(FRESH, 0, 1, 1, 5);
    assert Path(h1, [], h1);
    var two := Lapses(h1, [], FRESH, 0, 1, 1, 5);
    var l1 := Lapsed(h1);
    two := Takes(h1, two, l1, 2, 3, 2, 0, {1});
    two := Lapses(h1, two, l1, 2, 3, 2, 0);
    var l2 := Lapsed(Taken(l1, 2, 3, 2, 0));
    two := Takes(h1, two, l2, 4, 5, 1, 3, {2});
    assert Fenced(Taken(l2, 4, 5, 1, 3), 1, 3);
  }

  /** A lapsed operation's record marked as finalized. */
  function Closed(h: Host, p: Pid): Host
    requires h.record.Some?
  {
    WriteRecord(h, Record(h.record.value.op, h.record.value.token, Finalized, None)).(used := h.used + {p})
  }

  lemma Closes(from: Host, before: seq<Event>, h: Host, p: Pid) returns (after: seq<Event>)
    requires Path(from, before, h) && h.procs == map[] && h.lockers == {} && p !in h.used
    requires h.record.Some? && h.record.value.state == Active
    ensures Path(from, after, Closed(h, p))
    ensures NoneTerminal(before) ==> NoneTerminal(after)
  {
    var op, token := h.record.value.op, h.record.value.token;
    after := OneMore(from, before, h, Launch(p, Finalizer(op, token, Opening)), Midway(h, p, Finalizer(op, token, Opening), {}));
    after := OneMore(from, after, Midway(h, p, Finalizer(op, token, Opening), {}), Go(p, p),
                     Midway(h, p, Finalizer(op, token, Judging), {p}));
    after := OneMore(from, after, Midway(h, p, Finalizer(op, token, Judging), {p}), Go(p, p),
                     Midway(h, p, Finalizer(op, token, Marking), {p}));
    var marking := Midway(h, p, Finalizer(op, token, Marking), {p});
    assert marking.procs - {p} == map[] && marking.lockers - {p} == {};
    after := OneMore(from, after, marking, Go(p, p), Closed(h, p));
  }

  /** That no operation named terminal is ever acquired again is not enough: nobody names
      any, but an operation that was finalized and displaced comes back. */
  lemma FinalizedOperationBreaksItToo()
    ensures exists one, two, h1, h2 ::
              && Path(FRESH, one, h1) && Fenced(h1, 1, 5) && Path(h1, two, h2) && Fenced(h2, 1, 3)
              && NoneTerminal(one) && NoneTerminal(two)
  {
    var one := Takes(FRESH, [], FRESH, 0, 1, 1, 5, {});
    assert Fenced(Taken(FRESH, 0, 1, 1, 5), 1, 5);
    FinalizedLater(FRESH, 0);
  }

  lemma FinalizedLater(h: Host, p: Pid)
    requires Quiet(h, p, p + 1) && forall q :: p <= q < p + 8 ==> q !in h.used
    ensures exists two, h2 :: Path(Taken(h, p, p + 1, 1, 5), two, h2) && Fenced(h2, 1, 3) && NoneTerminal(two)
  {
    var h1 := Taken(h, p, p + 1, 1, 5);
    assert Path(h1, [], h1);
    var two := LapsesAndCloses(h1, [], h, p, p + 1, 1, 5, p + 2);
    IsDisplaced(h1, two, Closed(Lapsed(h1), p + 2), p + 3);
  }

  lemma Displaces(from: Host, before: seq<Event>, h: Host, p: Pid) returns (after: seq<Event>)
    requires Path(from, before, h) && Quiet(h, p, p + 1) && p + 2 !in h.used && NoneTerminal(before)
    requires h.record.Some? && h.record.value.state == Finalized && h.record.value.op != 2
    ensures Path(from, after, Closed(Lapsed(Taken(h, p, p + 1, 2, 0)), p + 2)) && NoneTerminal(after)
  {
    after := Takes(from, before, h, p, p + 1, 2, 0, {});
    after := LapsesAndCloses(from, after, h, p, p + 1, 2, 0, p + 2);
  }

  lemma IsDisplaced(from: Host, before: seq<Event>, h: Host, p: Pid)
    requires Path(from, before, h) && Quiet(h, p, p + 1) && NoneTerminal(before)
    requires forall q :: p <= q < p + 5 ==> q !in h.used
    requires h.record.Some? && h.record.value.state == Finalized && h.record.value.op != 2
    ensures exists after, h' :: Path(from, after, h') && Fenced(h', 1, 3) && NoneTerminal(after)
  {
    var after := Displaces(from, before, h, p);
    ComesBack(from, after, Closed(Lapsed(Taken(h, p, p + 1, 2, 0)), p + 2), p + 3, p + 4);
  }

  lemma LapsesAndCloses(from: Host, before: seq<Event>, h: Host, p: Pid, q: Pid, op: OpId, token: nat, r: Pid)
    returns (after: seq<Event>)
    requires Path(from, before, Taken(h, p, q, op, token)) && r !in h.used && r != p && r != q
    ensures Path(from, after, Closed(Lapsed(Taken(h, p, q, op, token)), r))
    ensures NoneTerminal(before) ==> NoneTerminal(after)
  {
    after := Lapses(from, before, h, p, q, op, token);
    after := Closes(from, after, Lapsed(Taken(h, p, q, op, token)), r);
  }

  lemma ComesBack(from: Host, before: seq<Event>, h: Host, p: Pid, q: Pid)
    requires Path(from, before, h) && Quiet(h, p, q) && NoneTerminal(before)
    requires h.record.Some? && h.record.value.op == 2 && h.record.value.state == Finalized
    ensures exists after, h' :: Path(from, after, h') && Fenced(h', 1, 3) && NoneTerminal(after)
  {
    var after := Takes(from, before, h, p, q, 1, 3, {});
    assert Fenced(Taken(h, p, q, 1, 3), 1, 3);
  }
}
