/** Every event of the composed protocol keeps the invariants. */
module RconSteps {
  import opened Options
  import opened RconTypes
  import opened RconOwnership
  import opened FifoGate
  import opened SidLifecycle
  import opened RconProtocol
  import opened RconBody
  import opened RconInvariant

  /** A move that stays outside every gate, wait loop and registration change. */
  ghost predicate PlainMove(th: Thread, th': Thread) {
    && th'.sid == th.sid && th'.req == th.req && th'.rec == th.rec
    && ThreadFits(th')
    && AtKey(th') == None && AtKey(th) == None
    && (InFleet(th') <==> InFleet(th))
    && (IsOp(th') <==> IsOp(th))
    && (IsCloser(th') <==> IsCloser(th))
    && th'.pc != FleetWaiting && th'.pc != Following && th'.pc != Draining
  }

  lemma FitsOne(threads: Threads, t: Tid, th: Thread)
    requires Fits(threads) && ThreadFits(th)
    ensures Fits(threads[t := th])
  {
  }

  // --- Sleepers: each lemma speaks about the parts it needs ---------------------------

  lemma SleepOther(threads: Threads, asleep: set<Tid>, targetQ: map<Key, seq<Tid>>, fleetQ: map<Sid, seq<Tid>>,
                   recs: Records, t: Tid, th: Thread)
    requires Sleep(threads, asleep, targetQ, fleetQ, recs) && t !in asleep
    ensures Sleep(threads[t := th], asleep, targetQ, fleetQ, recs)
  {
  }

  lemma SleepArriveTarget(threads: Threads, asleep: set<Tid>, targetQ: map<Key, seq<Tid>>,
                          fleetQ: map<Sid, seq<Tid>>, recs: Records, key: Key, t: Tid)
    requires Sleep(threads, asleep, targetQ, fleetQ, recs) && TargetGate(threads, targetQ)
    requires t !in QueueOf(targetQ, key)
    ensures Sleep(threads, asleep, Arrive(targetQ, key, t), fleetQ, recs)
  {
    ArriveKeeps(targetQ, key, t);
    forall u | u in asleep
      ensures u in threads && MustSleep(u, threads[u], Arrive(targetQ, key, t), fleetQ, recs)
    {
      assert MustSleep(u, threads[u], targetQ, fleetQ, recs);
      if threads[u].pc.AtGate? {
        assert AtKey(threads[u]) == Some(threads[u].pc.job.key);
        assert u in QueueOf(targetQ, threads[u].pc.job.key);
      }
    }
  }

  lemma SleepArriveFleet(threads: Threads, asleep: set<Tid>, targetQ: map<Key, seq<Tid>>,
                         fleetQ: map<Sid, seq<Tid>>, recs: Records, sid: Sid, t: Tid)
    requires Sleep(threads, asleep, targetQ, fleetQ, recs) && FleetGate(threads, fleetQ) && Fits(threads)
    requires t !in QueueOf(fleetQ, sid)
    ensures Sleep(threads, asleep, targetQ, Arrive(fleetQ, sid, t), recs)
  {
    ArriveKeeps(fleetQ, sid, t);
    forall u | u in asleep
      ensures u in threads && MustSleep(u, threads[u], targetQ, Arrive(fleetQ, sid, t), recs)
    {
      assert MustSleep(u, threads[u], targetQ, fleetQ, recs);
      if threads[u].pc == FleetWaiting {
        assert InFleet(threads[u]);
        assert u in QueueOf(fleetQ, threads[u].sid);
      }
    }
  }

  /** A thread that joins the sleepers at a wait loop whose guard is false. */
  lemma SleepMore(threads: Threads, asleep: set<Tid>, targetQ: map<Key, seq<Tid>>, fleetQ: map<Sid, seq<Tid>>,
                  recs: Records, t: Tid, th: Thread)
    requires Sleep(threads, asleep, targetQ, fleetQ, recs) && t !in asleep
    requires MustSleep(t, th, targetQ, fleetQ, recs)
    ensures Sleep(threads[t := th], asleep + {t}, targetQ, fleetQ, recs)
  {
  }

  /** Registering and marking closing wake nobody and leave every sleeper's guard false. */
  lemma SleepRecs(threads: Threads, asleep: set<Tid>, targetQ: map<Key, seq<Tid>>, fleetQ: map<Sid, seq<Tid>>,
                  recs: Records, recs': Records)
    requires Sleep(threads, asleep, targetQ, fleetQ, recs)
    requires forall sid :: sid in recs ==> sid in recs' && recs'[sid].id == recs[sid].id
                                           && recs'[sid].active >= recs[sid].active
    ensures Sleep(threads, asleep, targetQ, fleetQ, recs')
  {
    forall u | u in asleep ensures u in threads && MustSleep(u, threads[u], targetQ, fleetQ, recs') {
      assert MustSleep(u, threads[u], targetQ, fleetQ, recs);
    }
  }

  /** A plain move of thread t, by who has the right to make it. */
  ghost predicate PlainStep(s: State, t: Tid, th': Thread) {
    && Awake(s, t) && PlainMove(s.threads[t], th')
    && (InFleet(th') ==> IsHead(s.fleetQ, th'.sid, t))
    && (IsCloser(th') ==> th'.sid in s.recs && s.recs[th'.sid].active == 0)
  }

  /** A closer past its drain moves on. */
  lemma CloserStep(s: State, t: Tid, th': Thread)
    requires Awake(s, t) && ThreadFits(s.threads[t]) && OneCloser(s.threads, s.recs)
    requires s.threads[t].pc in {Draining, CleanPlanning, CleaningUp}
    requires s.threads[t].pc == Draining ==> s.threads[t].sid in s.recs && s.recs[s.threads[t].sid].active == 0
    requires th' == s.threads[t].(pc := th'.pc, keys := th'.keys) && th'.pc in {CleanPlanning, CleaningUp, CloseLeaving}
    ensures PlainStep(s, t, th')
  {
    CloserRecord(s.threads, s.recs, t);
  }

  lemma PlainKeeps(s: State, t: Tid, th': Thread)
    requires Inv(s) && PlainStep(s, t, th')
    ensures Inv(Goto(s, t, th'))
  {
    TargetSame(s.threads, s.targetQ, t, th');
    FleetSame(s.threads, s.fleetQ, t, th');
    LifeSame(s.threads, s.recs, s.nextRec, t, th');
    OwnOutside(s.threads, s.world, t, th');
    SleepOther(s.threads, s.asleep, s.targetQ, s.fleetQ, s.recs, t, th');
  }

  lemma ArriveTargetShape(s: State, t: Tid, th: Thread, th': Thread, job: Job)
    requires var q := Arrive(s.targetQ, job.key, t);
             th' == th.(pc := if IsHead(q, job.key, t) then In(job, First(job)) else AtGate(job))
    ensures ArriveTarget(s, t, th, job)
            == s.(threads := s.threads[t := th'], targetQ := Arrive(s.targetQ, job.key, t),
                  asleep := if th'.pc.AtGate? then s.asleep + {t} else s.asleep)
  {
  }

  lemma ArriveTargetKeeps(s: State, t: Tid, th: Thread, job: Job)
    requires Inv(s) && Awake(s, t)
    requires th.sid == s.threads[t].sid && th.req == s.threads[t].req && th.rec == s.threads[t].rec
             && th.pc == s.threads[t].pc
    requires AtKey(th) == None && JobFits(th.req, job)
    requires InFleet(th) ==> IsHead(s.fleetQ, th.sid, t)
    requires IsFleet(th.req) ==> InFleet(th)
    requires IsOp(th) || IsCloser(th)
    requires IsCloser(th) ==> th.pc != Draining
    ensures Inv(ArriveTarget(s, t, th, job))
  {
    var q := Arrive(s.targetQ, job.key, t);
    var th' := th.(pc := if IsHead(q, job.key, t) then In(job, First(job)) else AtGate(job));
    assert ThreadFits(s.threads[t]);
    ArrivingMoves(s.threads[t], th, th', job);
    Arrived(s, t, th', job);
    ArriveTargetShape(s, t, th, th', job);
  }

  /** From outside the gate to its queue or body; nothing else about the thread changes. */
  ghost predicate ArrivingMove(th: Thread, th': Thread, job: Job) {
    && th'.sid == th.sid && th'.req == th.req && th'.rec == th.rec && ThreadFits(th')
    && AtKey(th) == None && AtKey(th') == Some(job.key)
    && (th'.pc.In? || (th'.pc.AtGate? && th'.pc.job.key == job.key))
    && (InFleet(th') <==> InFleet(th)) && (IsOp(th') <==> IsOp(th)) && (IsCloser(th') <==> IsCloser(th))
    && th.pc != Draining
  }

  lemma ArrivingMoves(th0: Thread, th: Thread, th': Thread, job: Job)
    requires th.sid == th0.sid && th.req == th0.req && th.rec == th0.rec && th.pc == th0.pc && ThreadFits(th0)
    requires AtKey(th) == None && JobFits(th.req, job) && (IsFleet(th.req) ==> InFleet(th))
    requires (IsOp(th) || IsCloser(th)) && (IsCloser(th) ==> th.pc != Draining)
    requires th' == th.(pc := th'.pc) && (th'.pc == In(job, First(job)) || th'.pc == AtGate(job))
    ensures ArrivingMove(th0, th', job)
  {
  }

  lemma Arrived(s: State, t: Tid, th': Thread, job: Job)
    requires Inv(s) && Awake(s, t) && ArrivingMove(s.threads[t], th', job)
    requires InFleet(th') ==> IsHead(s.fleetQ, th'.sid, t)
    requires th'.pc == if IsHead(Arrive(s.targetQ, job.key, t), job.key, t) then In(job, First(job)) else AtGate(job)
    ensures Inv(s.(threads := s.threads[t := th'], targetQ := Arrive(s.targetQ, job.key, t),
                   asleep := if th'.pc.AtGate? then s.asleep + {t} else s.asleep))
  {
    ArriveTargetGates(s, t, th', job.key);
    ArriveTargetLife(s, t, th');
    ArriveTargetSleep(s, t, th', job.key);
    ArriveTargetOwn(s, t, th', job);
    FitsOne(s.threads, t, th');
  }

  lemma ArriveTargetGates(s: State, t: Tid, th': Thread, key: Key)
    requires TargetGate(s.threads, s.targetQ) && FleetGate(s.threads, s.fleetQ) && t in s.threads
    requires AtKey(s.threads[t]) == None && AtKey(th') == Some(key)
    requires th'.pc.In? ==> IsHead(Arrive(s.targetQ, key, t), key, t)
    requires th'.sid == s.threads[t].sid && (InFleet(th') <==> InFleet(s.threads[t]))
    requires InFleet(th') ==> IsHead(s.fleetQ, th'.sid, t)
    ensures TargetGate(s.threads[t := th'], Arrive(s.targetQ, key, t))
    ensures FleetGate(s.threads[t := th'], s.fleetQ)
    ensures t !in QueueOf(s.targetQ, key)
  {
    TargetArrive(s.threads, s.targetQ, t, th', key);
    FleetSame(s.threads, s.fleetQ, t, th');
  }

  lemma ArriveTargetLife(s: State, t: Tid, th': Thread)
    requires Life(s.threads, s.recs, s.nextRec) && t in s.threads
    requires th'.sid == s.threads[t].sid && th'.req == s.threads[t].req && th'.rec == s.threads[t].rec
    requires (IsOp(th') <==> IsOp(s.threads[t])) && (IsCloser(th') <==> IsCloser(s.threads[t]))
    requires th'.pc != Following && s.threads[t].pc != Draining
    ensures Life(s.threads[t := th'], s.recs, s.nextRec)
  {
    LifeSame(s.threads, s.recs, s.nextRec, t, th');
  }

  lemma ArriveTargetSleep(s: State, t: Tid, th': Thread, key: Key)
    requires Sleep(s.threads, s.asleep, s.targetQ, s.fleetQ, s.recs) && TargetGate(s.threads, s.targetQ)
    requires t !in s.asleep && t !in QueueOf(s.targetQ, key)
    requires th'.pc.In? || (th'.pc.AtGate? && !IsHead(Arrive(s.targetQ, key, t), key, t) && th'.pc.job.key == key)
    ensures Sleep(s.threads[t := th'], if th'.pc.AtGate? then s.asleep + {t} else s.asleep,
                  Arrive(s.targetQ, key, t), s.fleetQ, s.recs)
  {
    var q := Arrive(s.targetQ, key, t);
    SleepArriveTarget(s.threads, s.asleep, s.targetQ, s.fleetQ, s.recs, key, t);
    if th'.pc.AtGate? { SleepMore(s.threads, s.asleep, q, s.fleetQ, s.recs, t, th'); }
    else { SleepOther(s.threads, s.asleep, q, s.fleetQ, s.recs, t, th'); }
  }

  lemma ArriveTargetOwn(s: State, t: Tid, th': Thread, job: Job)
    requires Own(s.threads, s.world) && TargetGate(s.threads, s.targetQ) && t in s.threads
    requires AtKey(s.threads[t]) == None && t !in QueueOf(s.targetQ, job.key)
    requires th'.pc == if IsHead(Arrive(s.targetQ, job.key, t), job.key, t) then In(job, First(job)) else AtGate(job)
    ensures Own(s.threads[t := th'], s.world)
  {
    if th'.pc.In? { OwnEnter(s.threads, s.targetQ, s.world, t, th', job); }
    else { OwnOutside(s.threads, s.world, t, th'); }
  }

  /** Whoever slept at the target is awake now; the others still have to sleep. */
  lemma DepartTargetSleep(s: State, t: Tid, th: Thread, key: Key)
    requires Inv(s) && t in s.threads && AtKey(s.threads[t]) == Some(key)
    ensures Sleep(s.threads[t := th], (set u | u in s.asleep && u !in QueueOf(s.targetQ, key)),
                  Depart(s.targetQ, key, t), s.fleetQ, s.recs)
  {
    assert t in QueueOf(s.targetQ, key);
    DepartKeeps(s.targetQ, key, t);
    forall u | u in s.asleep && u !in QueueOf(s.targetQ, key)
      ensures u in s.threads[t := th]
              && MustSleep(u, s.threads[t := th][u], Depart(s.targetQ, key, t), s.fleetQ, s.recs)
    {
      assert u != t;
      assert MustSleep(u, s.threads[u], s.targetQ, s.fleetQ, s.recs);
    }
  }

  lemma DepartTargetKeeps(s: State, t: Tid, th: Thread, key: Key)
    requires Inv(s) && t in s.threads && AtKey(s.threads[t]) == Some(key)
    requires s.threads[t].pc.In? ==> s.threads[t].pc.body.Leaving?
    requires th.sid == s.threads[t].sid && th.req == s.threads[t].req && th.rec == s.threads[t].rec
    requires ThreadFits(th) && AtKey(th) == None
    requires (InFleet(th) <==> InFleet(s.threads[t])) && th.pc != FleetWaiting
    requires (IsOp(th) <==> IsOp(s.threads[t])) && (IsCloser(th) <==> IsCloser(s.threads[t]))
    requires th.pc != Following && th.pc != Draining
    ensures Inv(DepartTarget(s, t, th, key))
  {
    TargetDepart(s.threads, s.targetQ, t, th, key);
    FleetSame(s.threads, s.fleetQ, t, th);
    if IsCloser(th) { assert CloserOf(s.threads, t, th.sid); }
    LifeSame(s.threads, s.recs, s.nextRec, t, th);
    if s.threads[t].pc.In? { OwnExit(s.threads, s.world, t, th); } else { OwnOutside(s.threads, s.world, t, th); }
    DepartTargetSleep(s, t, th, key);
  }

  lemma ArriveFleetSleep(s: State, t: Tid, th': Thread)
    requires Sleep(s.threads, s.asleep, s.targetQ, s.fleetQ, s.recs) && t in s.threads && t !in s.asleep
    requires FleetGate(s.threads, s.fleetQ) && Fits(s.threads) && s.threads[t].pc == Admitted && th'.sid == s.threads[t].sid
    requires t !in QueueOf(s.fleetQ, th'.sid)
    requires var q := Arrive(s.fleetQ, th'.sid, t);
             th'.pc == if IsHead(q, th'.sid, t) then Planning else FleetWaiting
    ensures var q := Arrive(s.fleetQ, th'.sid, t);
            Sleep(s.threads[t := th'], if th'.pc == FleetWaiting then s.asleep + {t} else s.asleep, s.targetQ, q, s.recs)
  {
    var q := Arrive(s.fleetQ, th'.sid, t);
    SleepArriveFleet(s.threads, s.asleep, s.targetQ, s.fleetQ, s.recs, th'.sid, t);
    if th'.pc == FleetWaiting { SleepMore(s.threads, s.asleep, s.targetQ, q, s.recs, t, th'); }
    else { SleepOther(s.threads, s.asleep, s.targetQ, q, s.recs, t, th'); }
  }

  lemma ArriveFleetKeeps(s: State, t: Tid, th: Thread)
    requires Inv(s) && Awake(s, t) && th == s.threads[t] && th.pc == Admitted && IsFleet(th.req)
    ensures Inv(ArriveFleet(s, t, th))
  {
    var th' := th.(pc := if IsHead(Arrive(s.fleetQ, th.sid, t), th.sid, t) then Planning else FleetWaiting);
    assert t !in QueueOf(s.fleetQ, th.sid);
    ArriveFleetGates(s, t, th');
    ArriveTargetLife(s, t, th');
    OwnOutside(s.threads, s.world, t, th');
    ArriveFleetSleep(s, t, th');
    FitsOne(s.threads, t, th');
    ArriveFleetShape(s, t, th, th');
  }

  lemma ArriveFleetGates(s: State, t: Tid, th': Thread)
    requires TargetGate(s.threads, s.targetQ) && FleetGate(s.threads, s.fleetQ) && t in s.threads
    requires s.threads[t].pc == Admitted && IsFleet(th'.req) && th'.sid == s.threads[t].sid
    requires th'.pc == if IsHead(Arrive(s.fleetQ, th'.sid, t), th'.sid, t) then Planning else FleetWaiting
    ensures TargetGate(s.threads[t := th'], s.targetQ)
    ensures FleetGate(s.threads[t := th'], Arrive(s.fleetQ, th'.sid, t))
  {
    TargetSame(s.threads, s.targetQ, t, th');
    FleetArrive(s.threads, s.fleetQ, t, th');
  }

  lemma ArriveFleetShape(s: State, t: Tid, th: Thread, th': Thread)
    requires var q := Arrive(s.fleetQ, th.sid, t);
             th' == th.(pc := if IsHead(q, th.sid, t) then Planning else FleetWaiting)
    ensures ArriveFleet(s, t, th)
            == s.(threads := s.threads[t := th'], fleetQ := Arrive(s.fleetQ, th.sid, t),
                  asleep := if th'.pc == FleetWaiting then s.asleep + {t} else s.asleep)
  {
  }

  lemma SleepDepartFleet(s: State, t: Tid, th': Thread)
    requires Sleep(s.threads, s.asleep, s.targetQ, s.fleetQ, s.recs) && FleetGate(s.threads, s.fleetQ)
    requires t in QueueOf(s.fleetQ, th'.sid)
    ensures Sleep(s.threads[t := th'], (set u | u in s.asleep && u !in QueueOf(s.fleetQ, th'.sid)),
                  s.targetQ, Depart(s.fleetQ, th'.sid, t), s.recs)
  {
    DepartKeeps(s.fleetQ, th'.sid, t);
    forall u | u in s.asleep && u !in QueueOf(s.fleetQ, th'.sid)
      ensures u in s.threads[t := th']
              && MustSleep(u, s.threads[t := th'][u], s.targetQ, Depart(s.fleetQ, th'.sid, t), s.recs)
    {
      assert u != t;
      assert MustSleep(u, s.threads[u], s.targetQ, s.fleetQ, s.recs);
    }
  }

  lemma DepartFleetKeeps(s: State, t: Tid, th: Thread)
    requires Inv(s) && t in s.threads && th == s.threads[t] && InFleet(th) && AtKey(th) == None
    ensures Inv(DepartFleet(s, t, th))
  {
    var th' := th.(pc := OpLeaving);
    assert t in QueueOf(s.fleetQ, th.sid);
    TargetSame(s.threads, s.targetQ, t, th');
    FleetDepart(s.threads, s.fleetQ, t, th');
    ArriveTargetLife(s, t, th');
    OwnOutside(s.threads, s.world, t, th');
    SleepDepartFleet(s, t, th');
    FitsOne(s.threads, t, th');
  }

  lemma StartKeeps(s: State, t: Tid)
    requires Inv(s) && Awake(s, t) && s.threads[t].pc == Start
    ensures Inv(StartNext(s, t, s.threads[t]))
  {
    StartShape(s, t);
    OutsideGates(s, t, StartNext(s, t, s.threads[t]).threads[t]);
    StartLife(s, t);
    StartSleep(s, t);
  }

  lemma StartShape(s: State, t: Tid)
    requires t in s.threads && s.threads[t].pc == Start
    ensures StartsOutside(s, t, StartNext(s, t, s.threads[t]))
  {
    if s.threads[t].req.Disconnect? { CloserStartShape(s, t); } else { OperationStartShape(s, t); }
  }

  /** The thread moved and is at no gate. */
  ghost predicate StartsOutside(s: State, t: Tid, s': State)
    requires t in s.threads
  {
    && t in s'.threads && s'.threads == s.threads[t := s'.threads[t]]
    && s'.targetQ == s.targetQ && s'.fleetQ == s.fleetQ && s'.world == s.world
    && s'.threads[t].sid == s.threads[t].sid && ThreadFits(s'.threads[t])
    && AtKey(s'.threads[t]) == None && !InFleet(s'.threads[t])
  }

  lemma CloserStartShape(s: State, t: Tid)
    requires t in s.threads && s.threads[t].pc == Start && s.threads[t].req.Disconnect?
    ensures StartsOutside(s, t, StartNext(s, t, s.threads[t]))
  {
  }

  lemma OperationStartShape(s: State, t: Tid)
    requires t in s.threads && s.threads[t].pc == Start && !s.threads[t].req.Disconnect?
    ensures StartsOutside(s, t, StartNext(s, t, s.threads[t]))
  {
  }

  /** A move that has to do with neither gate. */
  lemma OutsideGates(s: State, t: Tid, th': Thread)
    requires Fits(s.threads) && TargetGate(s.threads, s.targetQ) && FleetGate(s.threads, s.fleetQ)
    requires Own(s.threads, s.world) && t in s.threads && th'.sid == s.threads[t].sid && ThreadFits(th')
    requires AtKey(s.threads[t]) == None && AtKey(th') == None
    requires !InFleet(s.threads[t]) && !InFleet(th')
    ensures Fits(s.threads[t := th']) && TargetGate(s.threads[t := th'], s.targetQ)
    ensures FleetGate(s.threads[t := th'], s.fleetQ) && Own(s.threads[t := th'], s.world)
  {
    TargetSame(s.threads, s.targetQ, t, th');
    FleetSame(s.threads, s.fleetQ, t, th');
    OwnOutside(s.threads, s.world, t, th');
    FitsOne(s.threads, t, th');
  }

  lemma StartLife(s: State, t: Tid)
    requires Life(s.threads, s.recs, s.nextRec) && t in s.threads && s.threads[t].pc == Start
    ensures var s' := StartNext(s, t, s.threads[t]); Life(s'.threads, s'.recs, s'.nextRec)
  {
    var th := s.threads[t];
    var th' := StartNext(s, t, th).threads[t];
    if th.req.Disconnect? {
      if Accepts(s.recs, th.sid) { LifeClose(s.threads, s.recs, s.nextRec, t, th'); }
      else { LifeFollow(s.threads, s.recs, s.nextRec, t, th'); }
    } else if Accepts(s.recs, th.sid) {
      LifeRegister(s.threads, s.recs, s.nextRec, t, th');
    } else {
      LifeSame(s.threads, s.recs, s.nextRec, t, th');
    }
  }

  lemma StartSleep(s: State, t: Tid)
    requires Sleep(s.threads, s.asleep, s.targetQ, s.fleetQ, s.recs)
    requires t in s.threads && t !in s.asleep && s.threads[t].pc == Start
    ensures var s' := StartNext(s, t, s.threads[t]); Sleep(s'.threads, s'.asleep, s'.targetQ, s'.fleetQ, s'.recs)
  {
    var th := s.threads[t];
    var s' := StartNext(s, t, th);
    var th' := s'.threads[t];
    StartRecs(s, t);
    StartAsleep(s, t);
    SleepRecs(s.threads, s.asleep, s.targetQ, s.fleetQ, s.recs, s'.recs);
    if s'.asleep == s.asleep {
      SleepOther(s.threads, s.asleep, s.targetQ, s.fleetQ, s'.recs, t, th');
    } else {
      SleepMore(s.threads, s.asleep, s.targetQ, s.fleetQ, s'.recs, t, th');
    }
  }

  /** Records only gain operations when a handler starts. */
  lemma StartRecs(s: State, t: Tid)
    requires t in s.threads && s.threads[t].pc == Start
    ensures var recs' := StartNext(s, t, s.threads[t]).recs;
            forall sid :: sid in s.recs ==> sid in recs' && recs'[sid].id == s.recs[sid].id
                                            && recs'[sid].active >= s.recs[sid].active
  {
  }

  lemma StartAsleep(s: State, t: Tid)
    requires t in s.threads && s.threads[t].pc == Start
    ensures var s' := StartNext(s, t, s.threads[t]);
            && (s'.asleep == s.asleep || s'.asleep == s.asleep + {t})
            && (s'.asleep == s.asleep + {t} ==>
                  t in s.asleep || MustSleep(t, s'.threads[t], s.targetQ, s.fleetQ, s'.recs))
  {
  }

  lemma OpLeavingKeeps(s: State, t: Tid)
    requires Inv(s) && Awake(s, t) && s.threads[t].pc == OpLeaving
    ensures Inv(OpLeavingNext(s, t, s.threads[t]))
  {
    var th := s.threads[t];
    assert ThreadFits(th);
    OutsideGates(s, t, th.(pc := Finished));
    OpLeavingLife(s, t);
  }

  lemma OpLeavingLife(s: State, t: Tid)
    requires Life(s.threads, s.recs, s.nextRec) && Awake(s, t) && s.threads[t].pc == OpLeaving
    requires Sleep(s.threads, s.asleep, s.targetQ, s.fleetQ, s.recs) && ThreadFits(s.threads[t])
    ensures var s' := OpLeavingNext(s, t, s.threads[t]);
            Life(s'.threads, s'.recs, s'.nextRec) && Sleep(s'.threads, s'.asleep, s'.targetQ, s'.fleetQ, s'.recs)
  {
    var th := s.threads[t];
    LifeDeregister(s.threads, s.recs, s.nextRec, t, th.(pc := Finished));
    LifecycleSleep(s, t, th.(pc := Finished), Deregister(s.recs, th.sid));
  }

  /** After notify_all on a session's lifecycle condition only others sleep there. */
  lemma LifecycleSleep(s: State, t: Tid, th: Thread, recs: Records)
    requires Sleep(s.threads, s.asleep, s.targetQ, s.fleetQ, s.recs) && Awake(s, t)
    requires forall sid :: sid != th.sid ==> (sid in recs <==> sid in s.recs) && (sid in recs ==> recs[sid] == s.recs[sid])
    ensures Sleep(s.threads[t := th], s.asleep - LifecycleWaiters(s, th.sid), s.targetQ, s.fleetQ, recs)
  {
    forall u | u in s.asleep - LifecycleWaiters(s, th.sid)
      ensures u in s.threads[t := th] && MustSleep(u, s.threads[t := th][u], s.targetQ, s.fleetQ, recs)
    {
      assert u != t;
      assert MustSleep(u, s.threads[u], s.targetQ, s.fleetQ, s.recs);
    }
  }

  lemma CloseLeavingKeeps(s: State, t: Tid, c: Choice)
    requires Inv(s) && Awake(s, t) && s.threads[t].pc == CloseLeaving
    ensures Inv(Next(s, t, c))
  {
    var th := s.threads[t];
    assert ThreadFits(th);
    var th' := th.(pc := Finished);
    OutsideGates(s, t, th');
    LifeForget(s.threads, s.recs, s.nextRec, t, th');
    LifecycleSleep(s, t, th', Forget(s.recs, th.sid, th.rec));
  }

  /** What the invariant says of a thread inside a gate. */
  lemma InFacts(s: State, t: Tid)
    requires Inv(s) && t in s.threads && s.threads[t].pc.In?
    ensures var th := s.threads[t];
            BodyOk(s.world, th.sid, th.pc.job, th.pc.body) && !Blocks(s.world, th.pc.body) && ThreadFits(th)
  {
    var th := s.threads[t];
    assert BodyOk(s.world, th.sid, th.pc.job, th.pc.body);
    NeverStaleNeverBlocked(s.world, th.sid, th.pc.job, th.pc.body);
  }

  lemma InKeeps(s: State, t: Tid, ok: bool)
    requires Inv(s) && Awake(s, t) && s.threads[t].pc.In?
    ensures Inv(InNext(s, t, s.threads[t], ok))
  {
    InFacts(s, t);
    if s.threads[t].pc.body.Leaving? { LeavingKeeps(s, t, ok); } else { InBodyKeeps(s, t, ok); }
  }

  lemma LeavingKeeps(s: State, t: Tid, ok: bool)
    requires Inv(s) && Awake(s, t) && s.threads[t].pc.In? && s.threads[t].pc.body.Leaving? && ThreadFits(s.threads[t])
    ensures Inv(InNext(s, t, s.threads[t], ok))
  {
    var th := s.threads[t];
    var pc := After(th, th.pc.job, th.pc.body.outcome);
    LeavesFor(th, pc);
    var out := th.pc.body.outcome;
    DepartTargetKeeps(s, t, th.(pc := pc, results := if IsFleet(th.req) && out != Nothing then th.results + [out] else th.results),
                      th.pc.job.key);
  }

  lemma LeavesFor(th: Thread, pc: Pc)
    requires th.pc.In? && th.pc.body.Leaving? && ThreadFits(th) && pc == After(th, th.pc.job, th.pc.body.outcome)
    ensures forall results :: var th' := th.(pc := pc, results := results);
              ThreadFits(th') && AtKey(th') == None && (InFleet(th') <==> InFleet(th))
              && (IsOp(th') <==> IsOp(th)) && (IsCloser(th') <==> IsCloser(th))
    ensures pc != FleetWaiting && pc != Following && pc != Draining
  {
  }

  lemma InBodyKeeps(s: State, t: Tid, ok: bool)
    requires Inv(s) && Awake(s, t) && s.threads[t].pc.In? && ThreadFits(s.threads[t])
    requires !s.threads[t].pc.body.Leaving? && !Blocks(s.world, s.threads[t].pc.body)
    ensures Inv(InNext(s, t, s.threads[t], ok))
  {
    var th := s.threads[t];
    var (w, body') := BodyNext(s.world, th.sid, th.pc.job, th.pc.body, ok);
    var th' := th.(pc := In(th.pc.job, body'));
    InBodyMoves(th, th');
    InBodyOthers(s, t, th');
    OwnBody(s.threads, s.targetQ, s.world, t, th', ok);
  }

  /** Only where in the body the thread stands changes. */
  ghost predicate InBodyMove(th: Thread, th': Thread) {
    && th.pc.In? && th'.pc.In? && th'.pc.job == th.pc.job && ThreadFits(th')
    && th'.sid == th.sid && th'.req == th.req && th'.rec == th.rec && AtKey(th') == AtKey(th)
    && (InFleet(th') <==> InFleet(th)) && (IsOp(th') <==> IsOp(th)) && (IsCloser(th') <==> IsCloser(th))
  }

  lemma InBodyMoves(th: Thread, th': Thread)
    requires th.pc.In? && th'.pc.In? && th' == th.(pc := In(th.pc.job, th'.pc.body)) && ThreadFits(th)
    ensures InBodyMove(th, th')
  {
  }

  lemma InBodyOthers(s: State, t: Tid, th': Thread)
    requires Inv(s) && Awake(s, t) && InBodyMove(s.threads[t], th')
    ensures Fits(s.threads[t := th']) && TargetGate(s.threads[t := th'], s.targetQ) && FleetGate(s.threads[t := th'], s.fleetQ)
    ensures Life(s.threads[t := th'], s.recs, s.nextRec) && Sleep(s.threads[t := th'], s.asleep, s.targetQ, s.fleetQ, s.recs)
  {
    TargetSame(s.threads, s.targetQ, t, th');
    FleetSame(s.threads, s.fleetQ, t, th');
    ArriveTargetLife(s, t, th');
    SleepOther(s.threads, s.asleep, s.targetQ, s.fleetQ, s.recs, t, th');
    FitsOne(s.threads, t, th');
  }

  /** Going back to sleep for good reason. */
  lemma SleepsOn(s: State, t: Tid)
    requires Inv(s) && t in s.threads && MustSleep(t, s.threads[t], s.targetQ, s.fleetQ, s.recs)
    ensures Inv(s.(asleep := s.asleep + {t}))
  {
    assert Sleep(s.threads, s.asleep + {t}, s.targetQ, s.fleetQ, s.recs);
  }

  lemma CloserRecord(threads: Threads, recs: Records, t: Tid)
    requires OneCloser(threads, recs) && t in threads && IsCloser(threads[t])
    ensures Attached(recs, threads[t].sid, threads[t].rec)
    ensures threads[t].pc == Draining || recs[threads[t].sid].active == 0
  {
    assert CloserOf(threads, t, threads[t].sid);
  }

  lemma EntersBody(s: State, t: Tid, th': Thread, job: Job)
    requires Inv(s) && Awake(s, t) && s.threads[t].pc == AtGate(job) && IsHead(s.targetQ, job.key, t)
    requires th' == s.threads[t].(pc := In(job, First(job)))
    ensures Inv(Goto(s, t, th'))
  {
    assert ThreadFits(s.threads[t]);
    TargetSame(s.threads, s.targetQ, t, th');
    FleetSame(s.threads, s.fleetQ, t, th');
    if IsCloser(s.threads[t]) { CloserRecord(s.threads, s.recs, t); }
    LifeSame(s.threads, s.recs, s.nextRec, t, th');
    OwnEnter(s.threads, s.targetQ, s.world, t, th', job);
  }

  lemma AtGateKeeps(s: State, t: Tid, c: Choice)
    requires Inv(s) && Awake(s, t) && s.threads[t].pc.AtGate?
    ensures Inv(Next(s, t, c))
  {
    var th := s.threads[t];
    if IsHead(s.targetQ, th.pc.job.key, t) {
      EntersBody(s, t, th.(pc := In(th.pc.job, First(th.pc.job))), th.pc.job);
    } else {
      SleepsOn(s, t);
    }
  }

  lemma DrainedKeeps(s: State, t: Tid)
    requires Inv(s) && Awake(s, t) && s.threads[t].pc == Draining
    requires Attached(s.recs, s.threads[t].sid, s.threads[t].rec) && s.recs[s.threads[t].sid].active == 0
    ensures Inv(Goto(s, t, s.threads[t].(pc := CleanPlanning)))
  {
    CloserStep(s, t, s.threads[t].(pc := CleanPlanning));
    PlainKeeps(s, t, s.threads[t].(pc := CleanPlanning));
  }

  lemma DrainingKeeps(s: State, t: Tid, c: Choice)
    requires Inv(s) && Awake(s, t) && s.threads[t].pc == Draining
    ensures Inv(Next(s, t, c))
  {
    assert ThreadFits(s.threads[t]);
    CloserRecord(s.threads, s.recs, t);
    if s.recs[s.threads[t].sid].active == 0 { DrainedKeeps(s, t); } else { SleepsOn(s, t); }
  }

  lemma FollowingKeeps(s: State, t: Tid, c: Choice)
    requires Inv(s) && Awake(s, t) && s.threads[t].pc == Following
    ensures Inv(Next(s, t, c))
  {
    var th := s.threads[t];
    assert ThreadFits(th);
    if !Attached(s.recs, th.sid, th.rec) { PlainKeeps(s, t, th.(pc := Finished)); }
  }

  lemma CleanPlanningKeeps(s: State, t: Tid, c: Choice)
    requires Inv(s) && Awake(s, t) && s.threads[t].pc == CleanPlanning
    ensures Inv(Next(s, t, c))
  {
    var owned := SnapshotOwned(s.world.book, s.threads[t].sid);
    CleanPlanned(s, t, if Lists(c.order, owned) then c.order else SortKeys(owned));
  }

  lemma CleanPlanned(s: State, t: Tid, keys: seq<Key>)
    requires Inv(s) && Awake(s, t) && s.threads[t].pc == CleanPlanning
    ensures Inv(Goto(s, t, s.threads[t].(pc := CleaningUp, keys := keys)))
  {
    CloserStep(s, t, s.threads[t].(pc := CleaningUp, keys := keys));
    PlainKeeps(s, t, s.threads[t].(pc := CleaningUp, keys := keys));
  }

  lemma CleaningUpKeeps(s: State, t: Tid)
    requires Inv(s) && Awake(s, t) && s.threads[t].pc == CleaningUp
    ensures Inv(CleaningNext(s, t, s.threads[t]))
  {
    var th := s.threads[t];
    assert ThreadFits(th);
    if th.keys == [] { CleanedKeeps(s, t); }
    else { ArriveTargetKeeps(s, t, th.(keys := th.keys[1..]), Job(Clean, Individual, th.keys[0])); }
  }

  lemma CleanedKeeps(s: State, t: Tid)
    requires Inv(s) && Awake(s, t) && s.threads[t].pc == CleaningUp && ThreadFits(s.threads[t])
    requires s.threads[t].keys == []
    ensures Inv(CleaningNext(s, t, s.threads[t]))
  {
    CloserStep(s, t, s.threads[t].(pc := CloseLeaving));
    assert CleanupResidual(s.world.book, s.threads[t].sid).conn == s.world.book.conn;
    PlainKeeps(s, t, s.threads[t].(pc := CloseLeaving));
  }

  lemma HeadInFleet(s: State, t: Tid)
    requires Inv(s) && t in s.threads
    requires s.threads[t].pc in {FleetWaiting, Planning, Adding, Dropping} || s.threads[t].pc.FleetLeaving?
    ensures InFleet(s.threads[t]) && ThreadFits(s.threads[t])
    ensures s.threads[t].pc != FleetWaiting ==> IsHead(s.fleetQ, s.threads[t].sid, t)
  {
    assert ThreadFits(s.threads[t]);
  }

  lemma FleetWaitingKeeps(s: State, t: Tid, c: Choice)
    requires Inv(s) && Awake(s, t) && s.threads[t].pc == FleetWaiting
    ensures Inv(Next(s, t, c))
  {
    HeadInFleet(s, t);
    if IsHead(s.fleetQ, s.threads[t].sid, t) { PlainKeeps(s, t, s.threads[t].(pc := Planning)); }
  }

  lemma PlanningMove(s: State, t: Tid)
    requires t in s.threads && s.threads[t].pc == Planning && ThreadFits(s.threads[t])
    ensures var s' := PlanningNext(s, t, s.threads[t]);
            s' == Goto(s, t, s'.threads[t]) && PlainMove(s.threads[t], s'.threads[t])
  {
  }

  lemma PlanningKeeps(s: State, t: Tid)
    requires Inv(s) && Awake(s, t) && s.threads[t].pc == Planning
    ensures Inv(PlanningNext(s, t, s.threads[t]))
  {
    HeadInFleet(s, t);
    PlanningMove(s, t);
    PlainKeeps(s, t, PlanningNext(s, t, s.threads[t]).threads[t]);
  }

  lemma AddingKeeps(s: State, t: Tid, ok: bool)
    requires Inv(s) && Awake(s, t) && s.threads[t].pc == Adding
    ensures Inv(AddingNext(s, t, s.threads[t], ok))
  {
    var th := s.threads[t];
    HeadInFleet(s, t);
    if th.entries != [] && th.entries[0].Usable? && ok {
      var key := th.entries[0].key;
      ArriveTargetKeeps(s, t, th.(entries := th.entries[1..], accepted := th.accepted + {key}), Job(Add, Fleet, key));
    } else {
      PlainKeeps(s, t, AddingNext(s, t, th, ok).threads[t]);
    }
  }

  lemma DroppingKeeps(s: State, t: Tid)
    requires Inv(s) && Awake(s, t) && s.threads[t].pc == Dropping
    ensures Inv(DroppingNext(s, t, s.threads[t]))
  {
    var th := s.threads[t];
    HeadInFleet(s, t);
    if th.keys == [] { PlainKeeps(s, t, th.(pc := FleetLeaving(true))); }
    else { ArriveTargetKeeps(s, t, th.(keys := th.keys[1..]), Job(Drop, Fleet, th.keys[0])); }
  }

  lemma AdmittedKeeps(s: State, t: Tid, ok: bool)
    requires Inv(s) && Awake(s, t) && s.threads[t].pc == Admitted
    ensures Inv(AdmittedNext(s, t, s.threads[t], ok))
  {
    var th := s.threads[t];
    assert ThreadFits(th);
    if !ok || (th.sid in s.recs && s.recs[th.sid].closing) {
      AdmittedStops(s, t);
    } else {
      match th.req
      case Join(key) => AdmittedArrives(s, t, Job(Add, Individual, key));
      case Leave(key) => AdmittedArrives(s, t, Job(Drop, Individual, key));
      case Command(key) => AdmittedArrives(s, t, Job(Use, Individual, key));
      case _ => ArriveFleetKeeps(s, t, th);
    }
  }

  lemma AdmittedStops(s: State, t: Tid)
    requires Inv(s) && Awake(s, t) && s.threads[t].pc == Admitted && ThreadFits(s.threads[t])
    ensures Inv(Goto(s, t, s.threads[t].(pc := OpLeaving)))
  {
    StopsPlainly(s, t);
    PlainKeeps(s, t, s.threads[t].(pc := OpLeaving));
  }

  lemma StopsPlainly(s: State, t: Tid)
    requires Awake(s, t) && s.threads[t].pc == Admitted && ThreadFits(s.threads[t])
    ensures PlainStep(s, t, s.threads[t].(pc := OpLeaving))
  {
  }

  lemma AdmittedArrives(s: State, t: Tid, job: Job)
    requires Inv(s) && Awake(s, t) && s.threads[t].pc == Admitted && ThreadFits(s.threads[t])
    requires JobFits(s.threads[t].req, job) && !IsFleet(s.threads[t].req)
    ensures Inv(ArriveTarget(s, t, s.threads[t], job))
  {
    ArriveTargetKeeps(s, t, s.threads[t], job);
  }

  lemma StepKeeps(s: State, t: Tid, c: Choice)
    requires Inv(s) && Awake(s, t)
    ensures Inv(Next(s, t, c))
  {
    match s.threads[t].pc
    case Start => StartKeeps(s, t);
    case Admitted => AdmittedKeeps(s, t, c.ok);
    case OpLeaving => OpLeavingKeeps(s, t);
    case CloseLeaving => CloseLeavingKeeps(s, t, c);
    case AtGate(_) => AtGateKeeps(s, t, c);
    case In(_, _) => InKeeps(s, t, c.ok);
    case FleetWaiting => FleetWaitingKeeps(s, t, c);
    case Planning => PlanningKeeps(s, t);
    case Adding => AddingKeeps(s, t, c.ok);
    case Dropping => DroppingKeeps(s, t);
    case FleetLeaving(_) => HeadInFleet(s, t); DepartFleetKeeps(s, t, s.threads[t]);
    case Draining => DrainingKeeps(s, t, c);
    case Following => FollowingKeeps(s, t, c);
    case CleanPlanning => CleanPlanningKeeps(s, t, c);
    case CleaningUp => CleaningUpKeeps(s, t);
    case Finished =>
  }

  lemma SpawnKeeps(s: State, t: Tid, sid: Sid, req: Request)
    requires Inv(s) && Possible(s, Spawn(t, sid, req))
    ensures Inv(Occurs(s, Spawn(t, sid, req)))
  {
    var th := Thread(sid, req, Start, 0, [], {}, {}, [], []);
    TargetSame(s.threads, s.targetQ, t, th);
    FleetSame(s.threads, s.fleetQ, t, th);
    LifeSame(s.threads, s.recs, s.nextRec, t, th);
    OwnOutside(s.threads, s.world, t, th);
  }

  lemma InHasRecord(s: State, t: Tid)
    requires Inv(s) && t in s.threads && s.threads[t].pc.In?
    ensures s.threads[t].sid in s.recs
  {
    assert ThreadFits(s.threads[t]);
    assert IsOp(s.threads[t]) || CloserOf(s.threads, t, s.threads[t].sid);
  }

  lemma ForgetRoomsKeeps(s: State, sid: Sid)
    requires Inv(s) && Possible(s, ForgetRooms(sid))
    ensures Inv(Occurs(s, ForgetRooms(sid)))
  {
    forall t | t in s.threads && s.threads[t].pc.In? ensures s.threads[t].sid != sid {
      InHasRecord(s, t);
    }
    OwnForgetRooms(s.threads, s.world, sid);
  }

  lemma EventKeeps(s: State, e: Event)
    requires Inv(s) && Possible(s, e)
    ensures Inv(Occurs(s, e))
  {
    match e
    case Spawn(t, sid, req) => SpawnKeeps(s, t, sid, req);
    case Step(t, c) => StepKeeps(s, t, c);
    case Stir(t) =>
    case Interrupt(t) =>
      var th := s.threads[t];
      assert ThreadFits(th);
      if th.pc.AtGate? {
        DepartTargetKeeps(s, t, th.(pc := if IsFleet(th.req) then FleetLeaving(false) else OpLeaving), th.pc.job.key);
      } else {
        DepartFleetKeeps(s, t, th);
      }
    case ForgetRooms(sid) => ForgetRoomsKeeps(s, sid);
  }

  lemma InitialInv()
    ensures Inv(INITIAL)
  {
    assert forall slot :: !Live(INITIAL.world, slot);
  }

  lemma {:induction false} RunInv(states: seq<State>, events: seq<Event>, i: nat)
    requires Run(states, events) && i < |states|
    ensures Inv(states[i])
  {
    if i == 0 {
      InitialInv();
    } else {
      RunInv(states, events, i - 1);
      EventKeeps(states[i - 1], events[i - 1]);
    }
  }
}
