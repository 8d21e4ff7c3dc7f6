/** The invariants of the composed protocol, one predicate per mechanism, each over
    the parts of the state it speaks about. */
module RconInvariant {
  import opened Options
  import opened RconTypes
  import opened RconOwnership
  import opened FifoGate
  import opened SidLifecycle
  import opened RconProtocol
  import opened RconBody

  type Threads = map<Tid, Thread>

  // --- Program counters fit requests ------------------------------------------------

  ghost predicate JobFits(req: Request, job: Job) {
    match req
    case Join(key) => job == Job(Add, Individual, key)
    case Leave(key) => job == Job(Drop, Individual, key)
    case Command(key) => job == Job(Use, Individual, key)
    case Reconcile(_) => job.owner == Fleet && (job.kind == Add || job.kind == Drop)
    case FleetLeave => job.owner == Fleet && job.kind == Drop
    case Disconnect => job.kind == Clean
  }

  ghost predicate ThreadFits(th: Thread) {
    match th.pc
    case Start => true
    case Finished => true
    case Admitted => !th.req.Disconnect?
    case OpLeaving => !th.req.Disconnect?
    case FleetWaiting => IsFleet(th.req)
    case Planning => IsFleet(th.req)
    case Adding => th.req.Reconcile?
    case Dropping => IsFleet(th.req)
    case FleetLeaving(_) => IsFleet(th.req)
    case AtGate(job) => JobFits(th.req, job)
    case In(job, _) => JobFits(th.req, job)
    case Draining => th.req.Disconnect?
    case Following => th.req.Disconnect?
    case CleanPlanning => th.req.Disconnect?
    case CleaningUp => th.req.Disconnect?
    case CloseLeaving => th.req.Disconnect?
  }

  ghost predicate Fits(threads: Threads) {
    forall t :: t in threads ==> ThreadFits(threads[t])
  }

  // --- The gates ------------------------------------------------------------------------

  /** The target gate in whose queue the thread is. */
  function AtKey(th: Thread): Option<Key> {
    match th.pc
    case AtGate(job) => Some(job.key)
    case In(job, _) => Some(job.key)
    case _ => None
  }

  ghost predicate TargetGate(threads: Threads, q: map<Key, seq<Tid>>) {
    && GateOk(q)
    && (forall k, t :: t in QueueOf(q, k) <==> t in threads && AtKey(threads[t]) == Some(k))
    && (forall t :: t in threads && threads[t].pc.In? ==> IsHead(q, threads[t].pc.job.key, t))
  }

  ghost predicate InFleet(th: Thread) {
    && IsFleet(th.req)
    && th.pc != Start && th.pc != Admitted && th.pc != OpLeaving && th.pc != Finished
  }

  ghost predicate FleetGate(threads: Threads, q: map<Sid, seq<Tid>>) {
    && GateOk(q)
    && (forall sid, t :: t in QueueOf(q, sid) <==> t in threads && threads[t].sid == sid && InFleet(threads[t]))
    && (forall t :: t in threads && InFleet(threads[t]) && threads[t].pc != FleetWaiting
          ==> IsHead(q, threads[t].sid, t))
  }

  // --- The lifecycle ----------------------------------------------------------------------

  /** Registered as an operation of its session. */
  ghost predicate IsOp(th: Thread) {
    !th.req.Disconnect? && th.pc != Start && th.pc != Finished
  }

  /** The one disconnect handler with cleanup authority. */
  ghost predicate IsCloser(th: Thread) {
    th.req.Disconnect? && th.pc != Start && th.pc != Finished && th.pc != Following
  }

  ghost function Ops(threads: Threads, sid: Sid): set<Tid> {
    set t | t in threads && threads[t].sid == sid && IsOp(threads[t])
  }

  ghost predicate CloserOf(threads: Threads, t: Tid, sid: Sid) {
    t in threads && threads[t].sid == sid && IsCloser(threads[t])
  }

  /** Every operation is counted in its session's own record. */
  ghost predicate OpsCounted(threads: Threads, recs: Records) {
    && (forall t :: t in threads && IsOp(threads[t]) ==> Attached(recs, threads[t].sid, threads[t].rec))
    && (forall sid :: sid in recs ==> recs[sid].active == |Ops(threads, sid)|)
  }

  /** A record is closing exactly while it has its one closer, who has left the
      drain only with no operation registered. */
  ghost predicate OneCloser(threads: Threads, recs: Records) {
    && (forall t, sid :: CloserOf(threads, t, sid) ==>
          Attached(recs, sid, threads[t].rec) && recs[sid].closing
          && (threads[t].pc == Draining || recs[sid].active == 0))
    && (forall t, u, sid :: CloserOf(threads, t, sid) && CloserOf(threads, u, sid) ==> t == u)
    && (forall sid :: sid in recs && recs[sid].closing ==> exists t :: CloserOf(threads, t, sid))
  }

  ghost predicate Followers(threads: Threads, recs: Records, nextRec: nat) {
    forall t :: t in threads && threads[t].pc == Following ==>
      threads[t].rec < nextRec
      && (Attached(recs, threads[t].sid, threads[t].rec) ==> recs[threads[t].sid].closing)
  }

  ghost predicate Life(threads: Threads, recs: Records, nextRec: nat) {
    && RecordsOk(recs, nextRec)
    && OpsCounted(threads, recs)
    && OneCloser(threads, recs)
    && Followers(threads, recs, nextRec)
  }

  // --- Sleepers -----------------------------------------------------------------------------

  /** The guard of the wait loop this thread sleeps in is false. */
  ghost predicate MustSleep(t: Tid, th: Thread, targetQ: map<Key, seq<Tid>>, fleetQ: map<Sid, seq<Tid>>,
                            recs: Records) {
    match th.pc
    case AtGate(job) => !IsHead(targetQ, job.key, t)
    case FleetWaiting => !IsHead(fleetQ, th.sid, t)
    case Draining => Attached(recs, th.sid, th.rec) && recs[th.sid].active > 0
    case Following => Attached(recs, th.sid, th.rec)
    case _ => false
  }

  ghost predicate Sleep(threads: Threads, asleep: set<Tid>, targetQ: map<Key, seq<Tid>>,
                        fleetQ: map<Sid, seq<Tid>>, recs: Records) {
    forall t :: t in asleep ==> t in threads && MustSleep(t, threads[t], targetQ, fleetQ, recs)
  }

  // --- Ownership, rooms and publications ------------------------------------------------------

  ghost predicate WorksOn(threads: Threads, t: Tid, slot: Slot) {
    t in threads && threads[t].pc.In? && threads[t].pc.job.key == slot.key && threads[t].sid == slot.sid
  }

  ghost predicate Busy(threads: Threads, slot: Slot) {
    exists t :: WorksOn(threads, t, slot)
  }

  ghost predicate Own(threads: Threads, w: World) {
    && BookOk(w.book)
    && LogOk(w)
    && (forall t :: t in threads && threads[t].pc.In? ==>
          BodyOk(w, threads[t].sid, threads[t].pc.job, threads[t].pc.body))
    && (forall slot :: !Busy(threads, slot) ==> Calm(w, slot))
  }

  ghost predicate Inv(s: State) {
    && Fits(s.threads)
    && TargetGate(s.threads, s.targetQ)
    && FleetGate(s.threads, s.fleetQ)
    && Life(s.threads, s.recs, s.nextRec)
    && Sleep(s.threads, s.asleep, s.targetQ, s.fleetQ, s.recs)
    && Own(s.threads, s.world)
  }

  // --- Target gate: what a move of one thread keeps ------------------------------------------

  lemma TargetSame(threads: Threads, q: map<Key, seq<Tid>>, t: Tid, th: Thread)
    requires TargetGate(threads, q)
    requires t in threads ==> AtKey(th) == AtKey(threads[t])
    requires t !in threads ==> AtKey(th) == None
    requires th.pc.In? ==> IsHead(q, th.pc.job.key, t)
    ensures TargetGate(threads[t := th], q)
  {
  }

  lemma TargetArrive(threads: Threads, q: map<Key, seq<Tid>>, t: Tid, th: Thread, key: Key)
    requires TargetGate(threads, q) && t in threads && AtKey(threads[t]) == None
    requires AtKey(th) == Some(key)
    requires th.pc.In? ==> IsHead(Arrive(q, key, t), key, t)
    ensures TargetGate(threads[t := th], Arrive(q, key, t))
  {
    assert t !in QueueOf(q, key);
    ArriveKeeps(q, key, t);
    var threads' := threads[t := th];
    var q' := Arrive(q, key, t);
    forall u | u in threads' && threads'[u].pc.In? ensures IsHead(q', threads'[u].pc.job.key, u) {
      if u != t { assert IsHead(q, threads[u].pc.job.key, u); }
    }
    forall k, u ensures u in QueueOf(q', k) <==> u in threads' && AtKey(threads'[u]) == Some(k) {
      assert u in QueueOf(q', k) <==> u in QueueOf(q, k) || (k == key && u == t);
    }
  }

  lemma TargetDepart(threads: Threads, q: map<Key, seq<Tid>>, t: Tid, th: Thread, key: Key)
    requires TargetGate(threads, q) && t in threads && AtKey(threads[t]) == Some(key)
    requires AtKey(th) == None
    ensures TargetGate(threads[t := th], Depart(q, key, t))
  {
    assert t in QueueOf(q, key);
    DepartKeeps(q, key, t);
    var threads' := threads[t := th];
    var q' := Depart(q, key, t);
    forall u | u in threads' && threads'[u].pc.In? ensures IsHead(q', threads'[u].pc.job.key, u) {
      assert IsHead(q, threads[u].pc.job.key, u);
    }
  }

  // --- Fleet gate ------------------------------------------------------------------------------

  lemma FleetSame(threads: Threads, q: map<Sid, seq<Tid>>, t: Tid, th: Thread)
    requires FleetGate(threads, q)
    requires t in threads ==> th.sid == threads[t].sid && (InFleet(th) <==> InFleet(threads[t]))
    requires t !in threads ==> !InFleet(th)
    requires InFleet(th) && th.pc != FleetWaiting ==> IsHead(q, th.sid, t)
    ensures FleetGate(threads[t := th], q)
  {
  }

  lemma FleetArrive(threads: Threads, q: map<Sid, seq<Tid>>, t: Tid, th: Thread)
    requires FleetGate(threads, q) && t in threads && th.sid == threads[t].sid
    requires !InFleet(threads[t]) && InFleet(th)
    requires th.pc != FleetWaiting ==> IsHead(Arrive(q, th.sid, t), th.sid, t)
    ensures FleetGate(threads[t := th], Arrive(q, th.sid, t))
  {
    assert t !in QueueOf(q, th.sid);
    ArriveKeeps(q, th.sid, t);
  }

  lemma FleetDepart(threads: Threads, q: map<Sid, seq<Tid>>, t: Tid, th: Thread)
    requires FleetGate(threads, q) && t in threads && th.sid == threads[t].sid
    requires InFleet(threads[t]) && !InFleet(th)
    ensures FleetGate(threads[t := th], Depart(q, th.sid, t))
  {
    assert t in QueueOf(q, th.sid);
    DepartKeeps(q, th.sid, t);
    var threads' := threads[t := th];
    var q' := Depart(q, th.sid, t);
    forall u | u in threads' && InFleet(threads'[u]) && threads'[u].pc != FleetWaiting
      ensures IsHead(q', threads'[u].sid, u)
    {
      assert IsHead(q, threads[u].sid, u);
    }
  }

  // --- Lifecycle -------------------------------------------------------------------------------

  lemma ClosersSame(threads: Threads, recs: Records, t: Tid, th: Thread)
    requires OneCloser(threads, recs)
    requires t in threads ==> th.sid == threads[t].sid && (IsCloser(th) ==> th.rec == threads[t].rec)
                              && (IsCloser(th) <==> IsCloser(threads[t]))
    requires t !in threads ==> !IsCloser(th)
    requires IsCloser(th) ==> th.pc == Draining || threads[t].pc != Draining
                              || (th.sid in recs && recs[th.sid].active == 0)
    ensures OneCloser(threads[t := th], recs)
  {
    var threads' := threads[t := th];
    forall u, sid ensures CloserOf(threads', u, sid) <==> CloserOf(threads, u, sid) {}
    forall sid | sid in recs && recs[sid].closing ensures exists u :: CloserOf(threads', u, sid) {
      var u :| CloserOf(threads, u, sid);
      assert CloserOf(threads', u, sid);
    }
  }

  lemma LifeSame(threads: Threads, recs: Records, nextRec: nat, t: Tid, th: Thread)
    requires Life(threads, recs, nextRec)
    requires t in threads ==> th.sid == threads[t].sid && (IsOp(th) || IsCloser(th) ==> th.rec == threads[t].rec)
                              && (IsOp(th) <==> IsOp(threads[t])) && (IsCloser(th) <==> IsCloser(threads[t]))
    requires t !in threads ==> !IsOp(th) && !IsCloser(th)
    requires IsCloser(th) ==> th.pc == Draining || threads[t].pc != Draining
                              || (th.sid in recs && recs[th.sid].active == 0)
    requires th.pc != Following
    ensures Life(threads[t := th], recs, nextRec)
  {
    ClosersSame(threads, recs, t, th);
    forall sid ensures Ops(threads[t := th], sid) == Ops(threads, sid) {}
  }

  /** A thread that is no closer moves; the closing records stay as they are. */
  lemma ClosersKept(threads: Threads, recs: Records, recs': Records, t: Tid, th: Thread)
    requires OneCloser(threads, recs)
    requires !IsCloser(th) && t in threads && !IsCloser(threads[t])
    requires forall sid :: sid in recs && recs[sid].closing ==>
               sid in recs' && recs'[sid].closing && recs'[sid].id == recs[sid].id
               && recs'[sid].active <= recs[sid].active
    requires forall sid :: sid in recs' && recs'[sid].closing ==> sid in recs && recs[sid].closing
    ensures OneCloser(threads[t := th], recs')
  {
    var threads' := threads[t := th];
    forall u, sid ensures CloserOf(threads', u, sid) <==> CloserOf(threads, u, sid) {}
    forall sid | sid in recs' && recs'[sid].closing ensures exists u :: CloserOf(threads', u, sid) {
      var u :| CloserOf(threads, u, sid);
      assert CloserOf(threads', u, sid);
    }
  }

  lemma OpsPlus(threads: Threads, t: Tid, th: Thread)
    requires t in threads && !IsOp(threads[t]) && IsOp(th) && th.sid == threads[t].sid
    ensures |Ops(threads[t := th], th.sid)| == |Ops(threads, th.sid)| + 1
    ensures forall sid :: sid != th.sid ==> Ops(threads[t := th], sid) == Ops(threads, sid)
  {
    assert Ops(threads[t := th], th.sid) == Ops(threads, th.sid) + {t};
    assert t !in Ops(threads, th.sid);
  }

  lemma OpsMinus(threads: Threads, t: Tid, th: Thread)
    requires t in threads && IsOp(threads[t]) && !IsOp(th) && th.sid == threads[t].sid
    ensures |Ops(threads[t := th], th.sid)| == |Ops(threads, th.sid)| - 1
    ensures forall sid :: sid != th.sid ==> Ops(threads[t := th], sid) == Ops(threads, sid)
  {
    assert Ops(threads[t := th], th.sid) == Ops(threads, th.sid) - {t};
    assert t in Ops(threads, th.sid);
  }

  /** The number of operations of every session is unchanged. */
  lemma OpsKept(threads: Threads, recs: Records, recs': Records, t: Tid, th: Thread)
    requires OpsCounted(threads, recs)
    requires t in threads && th.sid == threads[t].sid && !IsOp(th) && !IsOp(threads[t])
    requires forall sid :: sid in recs && sid !in recs' ==> recs[sid].active == 0
    requires forall sid :: sid in recs && sid in recs' ==> recs'[sid].active == recs[sid].active
                                                           && recs'[sid].id == recs[sid].id
    requires forall sid :: sid in recs' && sid !in recs ==> recs'[sid].active == 0
    ensures OpsCounted(threads[t := th], recs')
  {
    var threads' := threads[t := th];
    forall sid ensures Ops(threads', sid) == Ops(threads, sid) {}
    forall u | u in threads' && IsOp(threads'[u]) ensures Attached(recs', threads'[u].sid, threads'[u].rec) {
      assert u in Ops(threads, threads[u].sid);
    }
    forall sid | sid in recs' ensures recs'[sid].active == |Ops(threads', sid)| {
      if sid !in recs {
        assert forall u :: u !in Ops(threads, sid);
      }
    }
  }

  lemma OpsRegister(threads: Threads, recs: Records, nextRec: nat, t: Tid, th: Thread)
    requires OpsCounted(threads, recs) && Accepts(recs, th.sid)
    requires t in threads && th.sid == threads[t].sid && IsOp(th) && !IsOp(threads[t])
    requires th.rec == Register(recs, th.sid, nextRec)[th.sid].id
    ensures OpsCounted(threads[t := th], Register(recs, th.sid, nextRec))
  {
    OpsPlus(threads, t, th);
    if th.sid !in recs {
      assert Ops(threads, th.sid) == {} by {
        assert forall u :: u !in Ops(threads, th.sid);
      }
    }
  }

  lemma OpsDeregister(threads: Threads, recs: Records, t: Tid, th: Thread)
    requires OpsCounted(threads, recs)
    requires t in threads && th.sid == threads[t].sid && IsOp(threads[t]) && !IsOp(th)
    ensures Attached(recs, th.sid, threads[t].rec) && recs[th.sid].active > 0
    ensures OpsCounted(threads[t := th], Deregister(recs, th.sid))
  {
    var threads' := threads[t := th];
    OpsMinus(threads, t, th);
    assert t in Ops(threads, th.sid);
    var recs' := Deregister(recs, th.sid);
    forall u | u in threads' && IsOp(threads'[u]) ensures Attached(recs', threads'[u].sid, threads'[u].rec) {
      assert u in Ops(threads', threads'[u].sid);
    }
  }

  lemma LifeRegister(threads: Threads, recs: Records, nextRec: nat, t: Tid, th: Thread)
    requires Life(threads, recs, nextRec) && t in threads && threads[t].pc == Start
    requires th.sid == threads[t].sid && IsOp(th) && Accepts(recs, th.sid)
    requires th.rec == Register(recs, th.sid, nextRec)[th.sid].id && th.pc != Following
    ensures Life(threads[t := th], Register(recs, th.sid, nextRec), nextRec + 1)
  {
    var recs' := Register(recs, th.sid, nextRec);
    OpsRegister(threads, recs, nextRec, t, th);
    ClosersKept(threads, recs, recs', t, th);
    RegisterOk(recs, th.sid, nextRec);
    FollowersKept(threads, recs, recs', nextRec, nextRec + 1, t, th);
  }

  lemma FollowersKept(threads: Threads, recs: Records, recs': Records, n: nat, n': nat, t: Tid, th: Thread)
    requires Followers(threads, recs, n) && n <= n' && th.pc != Following
    requires forall sid :: sid in recs' ==>
               recs'[sid].id >= n
               || (sid in recs && recs'[sid].id == recs[sid].id && (recs[sid].closing ==> recs'[sid].closing))
    ensures Followers(threads[t := th], recs', n')
  {
  }

  lemma RegisterOk(recs: Records, sid: Sid, nextRec: nat)
    requires RecordsOk(recs, nextRec) && Accepts(recs, sid)
    ensures RecordsOk(Register(recs, sid, nextRec), nextRec + 1)
  {
  }

  lemma DeregisterOk(recs: Records, sid: Sid, nextRec: nat)
    requires RecordsOk(recs, nextRec) && sid in recs && recs[sid].active > 0
    ensures RecordsOk(Deregister(recs, sid), nextRec)
  {
  }

  lemma MarkClosingOk(recs: Records, sid: Sid, nextRec: nat)
    requires RecordsOk(recs, nextRec)
    ensures RecordsOk(MarkClosing(recs, sid, nextRec), nextRec + 1)
  {
  }

  lemma LifeDeregister(threads: Threads, recs: Records, nextRec: nat, t: Tid, th: Thread)
    requires Life(threads, recs, nextRec) && t in threads && IsOp(threads[t])
    requires th.sid == threads[t].sid && th.req == threads[t].req && th.pc == Finished
    ensures Attached(recs, th.sid, threads[t].rec) && recs[th.sid].active > 0
    ensures Life(threads[t := th], Deregister(recs, th.sid), nextRec)
  {
    OpsDeregister(threads, recs, t, th);
    var recs' := Deregister(recs, th.sid);
    DeregisterClosers(threads, recs, t, th);
    DeregisterOk(recs, th.sid, nextRec);
    FollowersKept(threads, recs, recs', nextRec, nextRec, t, th);
  }

  lemma DeregisterClosers(threads: Threads, recs: Records, t: Tid, th: Thread)
    requires OneCloser(threads, recs) && t in threads && !IsCloser(th) && !IsCloser(threads[t])
    requires th.sid in recs && recs[th.sid].active > 0
    ensures OneCloser(threads[t := th], Deregister(recs, th.sid))
  {
    ClosersKept(threads, recs, Deregister(recs, th.sid), t, th);
  }

  lemma LifeClose(threads: Threads, recs: Records, nextRec: nat, t: Tid, th: Thread)
    requires Life(threads, recs, nextRec) && t in threads && threads[t].pc == Start
    requires th.sid == threads[t].sid && th.req == threads[t].req && th.req.Disconnect?
    requires th.rec == MarkClosing(recs, th.sid, nextRec)[th.sid].id
    requires Accepts(recs, th.sid) && IsCloser(th)
    requires th.pc == Draining || MarkClosing(recs, th.sid, nextRec)[th.sid].active == 0
    ensures Life(threads[t := th], MarkClosing(recs, th.sid, nextRec), nextRec + 1)
  {
    var recs' := MarkClosing(recs, th.sid, nextRec);
    OpsKept(threads, recs, recs', t, th);
    CloserAdded(threads, recs, recs', t, th);
    MarkClosingOk(recs, th.sid, nextRec);
    FollowersKept(threads, recs, recs', nextRec, nextRec + 1, t, th);
  }

  lemma CloserAdded(threads: Threads, recs: Records, recs': Records, t: Tid, th: Thread)
    requires OneCloser(threads, recs) && Accepts(recs, th.sid)
    requires t in threads && !IsCloser(threads[t]) && th.sid == threads[t].sid && IsCloser(th)
    requires Attached(recs', th.sid, th.rec) && recs'[th.sid].closing
    requires th.pc == Draining || recs'[th.sid].active == 0
    requires forall sid :: sid != th.sid ==> (sid in recs <==> sid in recs') && (sid in recs ==> recs[sid] == recs'[sid])
    ensures OneCloser(threads[t := th], recs')
  {
    var threads' := threads[t := th];
    assert forall u :: !CloserOf(threads, u, th.sid);
    forall u, sid ensures CloserOf(threads', u, sid) <==> CloserOf(threads, u, sid) || (u == t && sid == th.sid) {}
    forall sid | sid in recs' && recs'[sid].closing ensures exists u :: CloserOf(threads', u, sid) {
      if sid == th.sid {
        assert CloserOf(threads', t, sid);
      } else {
        var u :| CloserOf(threads, u, sid);
        assert CloserOf(threads', u, sid);
      }
    }
  }

  lemma LifeFollow(threads: Threads, recs: Records, nextRec: nat, t: Tid, th: Thread)
    requires Life(threads, recs, nextRec) && t in threads && threads[t].pc == Start
    requires th.sid == threads[t].sid && th.req == threads[t].req && th.req.Disconnect?
    requires !Accepts(recs, th.sid) && th.rec == recs[th.sid].id && th.pc == Following
    ensures MarkClosing(recs, th.sid, nextRec) == recs
    ensures Life(threads[t := th], recs, nextRec + 1)
  {
    assert MarkClosing(recs, th.sid, nextRec) == recs;
    OpsKept(threads, recs, recs, t, th);
    ClosersKept(threads, recs, recs, t, th);
  }

  lemma LifeForget(threads: Threads, recs: Records, nextRec: nat, t: Tid, th: Thread)
    requires Life(threads, recs, nextRec) && t in threads && threads[t].pc == CloseLeaving
    requires threads[t].req.Disconnect? && th.req == threads[t].req
    requires th.sid == threads[t].sid && th.pc == Finished
    ensures Attached(recs, th.sid, threads[t].rec)
    ensures Life(threads[t := th], Forget(recs, th.sid, threads[t].rec), nextRec)
  {
    assert CloserOf(threads, t, th.sid);
    var recs' := Forget(recs, th.sid, threads[t].rec);
    assert recs' == recs - {th.sid};
    OpsKept(threads, recs, recs', t, th);
    CloserRemoved(threads, recs, t, th);
    assert RecordsOk(recs', nextRec);
    FollowersKept(threads, recs, recs', nextRec, nextRec, t, th);
  }

  lemma CloserRemoved(threads: Threads, recs: Records, t: Tid, th: Thread)
    requires OneCloser(threads, recs) && CloserOf(threads, t, th.sid) && !IsCloser(th)
    ensures OneCloser(threads[t := th], recs - {th.sid})
  {
    var threads' := threads[t := th];
    assert forall u :: CloserOf(threads, u, th.sid) ==> u == t;
    forall u, sid ensures CloserOf(threads', u, sid) <==> CloserOf(threads, u, sid) && sid != th.sid {
      if CloserOf(threads', u, sid) { assert CloserOf(threads, u, sid) && u != t; }
      if CloserOf(threads, u, sid) && sid != th.sid { assert u != t; }
    }
    var recs' := recs - {th.sid};
    forall sid | sid in recs' && recs'[sid].closing ensures exists u :: CloserOf(threads', u, sid) {
      var u :| CloserOf(threads, u, sid);
      assert CloserOf(threads', u, sid);
    }
  }

  // --- Ownership -----------------------------------------------------------------------------

  /** Thread t is the only one that can be in the body of its target's gate. */
  lemma Alone(threads: Threads, q: map<Key, seq<Tid>>, t: Tid, u: Tid, key: Key)
    requires TargetGate(threads, q) && IsHead(q, key, t)
    requires u in threads && threads[u].pc.In? && threads[u].pc.job.key == key
    ensures u == t
  {
  }

  /** Neither before nor after is the thread in a body. */
  lemma OwnOutside(threads: Threads, w: World, t: Tid, th: Thread)
    requires Own(threads, w)
    requires t in threads ==> !threads[t].pc.In?
    requires !th.pc.In?
    ensures Own(threads[t := th], w)
  {
    var threads' := threads[t := th];
    forall slot | !Busy(threads', slot) ensures Calm(w, slot) {
      if Busy(threads, slot) {
        var u :| WorksOn(threads, u, slot);
        assert WorksOn(threads', u, slot);
      }
    }
  }

  lemma OwnEnter(threads: Threads, q: map<Key, seq<Tid>>, w: World, t: Tid, th: Thread, job: Job)
    requires Own(threads, w) && TargetGate(threads, q)
    requires t in threads ==> !threads[t].pc.In?
    requires QueueOf(q, job.key) == [] || IsHead(q, job.key, t)
    requires th.pc == In(job, First(job))
    ensures Own(threads[t := th], w)
  {
    var threads' := threads[t := th];
    var slot := Slot(th.sid, job.key);
    assert forall u :: u in threads && threads[u].pc.In? && threads[u].pc.job.key == job.key ==> u == t;
    FirstBodyOk(w, th.sid, job);
    forall x | !Busy(threads', x) ensures Calm(w, x) {
      if Busy(threads, x) {
        var u :| WorksOn(threads, u, x);
        assert WorksOn(threads', u, x);
      }
    }
  }

  lemma OwnExit(threads: Threads, w: World, t: Tid, th: Thread)
    requires Own(threads, w)
    requires t in threads && threads[t].pc.In? && threads[t].pc.body.Leaving?
    requires !th.pc.In?
    ensures Own(threads[t := th], w)
  {
    var threads' := threads[t := th];
    forall x | !Busy(threads', x) ensures Calm(w, x) {
      if Busy(threads, x) {
        var u :| WorksOn(threads, u, x);
        if u == t {
          assert x == Slot(threads[t].sid, threads[t].pc.job.key);
          assert BodyOk(w, threads[t].sid, threads[t].pc.job, threads[t].pc.body);
        } else {
          assert WorksOn(threads', u, x);
        }
      }
    }
  }

  lemma BodyKeepsBook(w: World, sid: Sid, job: Job, body: Body, ok: bool)
    requires BookOk(w.book)
    ensures BookOk(BodyNext(w, sid, job, body, ok).0.book)
  {
    BodyBook(w, sid, job, body, ok);
    var op := BookOp(w, sid, job, body);
    if op.Some? && Callable(op.value) { OpKeepsBook(w.book, op.value); }
  }

  lemma OwnBody(threads: Threads, q: map<Key, seq<Tid>>, w: World, t: Tid, th: Thread, ok: bool)
    requires Own(threads, w) && TargetGate(threads, q) && t in threads && threads[t].pc.In?
    requires var (w', body') := BodyNext(w, threads[t].sid, threads[t].pc.job, threads[t].pc.body, ok);
             th.sid == threads[t].sid && th.pc == In(threads[t].pc.job, body')
    ensures Own(threads[t := th], BodyNext(w, threads[t].sid, threads[t].pc.job, threads[t].pc.body, ok).0)
  {
    var job, body, sid := threads[t].pc.job, threads[t].pc.body, th.sid;
    var w' := BodyNext(w, sid, job, body, ok).0;
    var slot := Slot(sid, job.key);
    var threads' := threads[t := th];
    BodyLocal(w, sid, job, body, ok);
    BodyOwn(w, sid, job, body, ok);
    BodyKeepsBook(w, sid, job, body, ok);
    BodyLog(w, sid, job, body, ok);
    forall u | u in threads' && threads'[u].pc.In?
      ensures BodyOk(w', threads'[u].sid, threads'[u].pc.job, threads'[u].pc.body)
    {
      if u != t {
        if threads[u].pc.job.key == job.key { Alone(threads, q, t, u, job.key); }
        BodyOkElsewhere(w, w', slot, threads[u].sid, threads[u].pc.job, threads[u].pc.body);
      }
    }
    forall x | !Busy(threads', x) ensures Calm(w', x) {
      assert WorksOn(threads', t, slot);
      assert x != slot;
      if Busy(threads, x) {
        var u :| WorksOn(threads, u, x);
        assert WorksOn(threads', u, x);
      }
      CalmElsewhere(w, w', slot, x);
    }
  }

  lemma OwnForgetRooms(threads: Threads, w: World, sid: Sid)
    requires Own(threads, w)
    requires forall t :: t in threads && threads[t].pc.In? ==> threads[t].sid != sid
    ensures Own(threads, WithoutRooms(w, sid))
  {
    var w' := WithoutRooms(w, sid);
    assert forall slot :: Live(w', slot) <==> Live(w, slot);
    assert forall key :: LastIsConnect(w', key) <==> LastIsConnect(w, key);
    assert forall slot :: Calm(w, slot) ==> Calm(w', slot);
    forall t | t in threads && threads[t].pc.In?
      ensures BodyOk(w', threads[t].sid, threads[t].pc.job, threads[t].pc.body)
    {
      var slot := Slot(threads[t].sid, threads[t].pc.job.key);
      assert BodyOk(w, threads[t].sid, threads[t].pc.job, threads[t].pc.body);
      assert SameAt(w, w', slot);
    }
  }
}
