/** No handler waits for ever: the composed gates, claims and lifecycle never lock up. */
module RconProgress {
  import opened Options
  import opened RconTypes
  import opened RconOwnership
  import opened FifoGate
  import opened SidLifecycle
  import opened RconProtocol
  import opened RconBody
  import opened RconInvariant
  import opened RconSteps
  import opened RconFrames

  ghost predicate Waits(s: State, t: Tid) {
    t in s.threads && MustSleep(t, s.threads[t], s.targetQ, s.fleetQ, s.recs)
  }

  /** The thread is awake and its next step is not a return to sleep. */
  ghost predicate Runs(s: State, t: Tid) {
    Awake(s, t) && !Waits(s, t)
  }

  // --- Somebody can always run ---------------------------------------------------

  lemma NotWaitingRuns(s: State, t: Tid)
    requires Inv(s) && t in s.threads && s.threads[t].pc != Finished && !Waits(s, t)
    ensures Runs(s, t)
  {
  }

  lemma TargetQueueMoves(s: State, t: Tid) returns (u: Tid)
    requires Inv(s) && t in s.threads && s.threads[t].pc.AtGate?
    ensures Runs(s, u)
  {
    var key := s.threads[t].pc.job.key;
    assert AtKey(s.threads[t]) == Some(key);
    assert t in QueueOf(s.targetQ, key);
    u := QueueOf(s.targetQ, key)[0];
    assert u in QueueOf(s.targetQ, key);
    NotWaitingRuns(s, u);
  }

  lemma FleetQueueMoves(s: State, t: Tid) returns (u: Tid)
    requires Inv(s) && t in s.threads && s.threads[t].pc == FleetWaiting
    ensures Runs(s, u)
  {
    assert ThreadFits(s.threads[t]) && InFleet(s.threads[t]);
    assert t in QueueOf(s.fleetQ, s.threads[t].sid);
    u := QueueOf(s.fleetQ, s.threads[t].sid)[0];
    assert u in QueueOf(s.fleetQ, s.threads[t].sid);
    assert ThreadFits(s.threads[u]);
    if s.threads[u].pc.AtGate? { u := TargetQueueMoves(s, u); }
    else { NotWaitingRuns(s, u); }
  }

  lemma OperationMoves(s: State, t: Tid) returns (u: Tid)
    requires Inv(s) && t in s.threads && IsOp(s.threads[t])
    ensures Runs(s, u)
  {
    assert ThreadFits(s.threads[t]);
    if s.threads[t].pc.AtGate? { u := TargetQueueMoves(s, t); }
    else if s.threads[t].pc == FleetWaiting { u := FleetQueueMoves(s, t); }
    else { u := t; NotWaitingRuns(s, t); }
  }

  lemma CloserMoves(s: State, t: Tid) returns (u: Tid)
    requires Inv(s) && t in s.threads && IsCloser(s.threads[t])
    ensures Runs(s, u)
  {
    var th := s.threads[t];
    assert ThreadFits(th);
    assert CloserOf(s.threads, t, th.sid);
    if th.pc.AtGate? { u := TargetQueueMoves(s, t); }
    else if th.pc == Draining && s.recs[th.sid].active > 0 {
      assert Ops(s.threads, th.sid) != {};
      var o :| o in Ops(s.threads, th.sid);
      u := OperationMoves(s, o);
    }
    else { u := t; NotWaitingRuns(s, t); }
  }

  /** In every reachable state with an unfinished handler, some handler can take a
      step that is not a return to sleep. */
  lemma SomebodyRuns(s: State, t: Tid) returns (u: Tid)
    requires Inv(s) && t in s.threads && s.threads[t].pc != Finished
    ensures Runs(s, u)
  {
    var th := s.threads[t];
    assert ThreadFits(th);
    if th.pc == Start {
      u := t;
      NotWaitingRuns(s, t);
    } else if th.pc == Following {
      if Attached(s.recs, th.sid, th.rec) {
        var c :| CloserOf(s.threads, c, th.sid);
        u := CloserMoves(s, c);
      } else {
        u := t;
        NotWaitingRuns(s, t);
      }
    } else if th.req.Disconnect? {
      u := CloserMoves(s, t);
    } else {
      u := OperationMoves(s, t);
    }
  }

  // --- And it gets somewhere --------------------------------------------------------

  function BodyRank(body: Body): nat {
    match body
    case Acquiring => 12
    case JoiningRoom(_) => 11
    case RollingBack(_) => 9
    case Beginning(_) => 10
    case Publishing(_, _) => 9
    case Completing(_, _, _) => 8
    case LeavingAfterFailure => 5
    case CheckingRoom => 12
    case CheckingOwner => 11
    case Releasing => 10
    case Clearing => 10
    case LeavingRoom => 7
    case Restoring(_) => 3
    case Counting(_, _) => 4
    case Disconnecting(_) => 3
    case Leaving(_) => 1
  }

  /** Stage of the request, items left in that stage, position in the current trip. */
  datatype Rank = Rank(stage: nat, items: nat, place: nat)

  function JobRank(th: Thread, job: Job, place: nat): Rank {
    match th.req
    case Reconcile(_) => if job.kind == Add then Rank(5, |th.entries|, place) else Rank(4, |th.keys|, place)
    case FleetLeave => Rank(4, |th.keys|, place)
    case Disconnect => Rank(4, |th.keys|, place)
    case _ => Rank(3, 0, place)
  }

  function RankOf(th: Thread): Rank {
    match th.pc
    case Start => Rank(9, 0, 0)
    case Admitted => Rank(8, 0, 0)
    case FleetWaiting => Rank(7, 0, 0)
    case Draining => Rank(7, 0, 0)
    case Following => Rank(7, 0, 0)
    case Planning => Rank(6, 0, 0)
    case CleanPlanning => Rank(6, 0, 0)
    case Adding => Rank(5, |th.entries|, 0)
    case Dropping => Rank(4, |th.keys|, 0)
    case CleaningUp => Rank(4, |th.keys|, 0)
    case AtGate(job) => JobRank(th, job, 13)
    case In(job, body) => JobRank(th, job, BodyRank(body))
    case FleetLeaving(_) => Rank(2, 0, 0)
    case CloseLeaving => Rank(2, 0, 0)
    case OpLeaving => Rank(1, 0, 0)
    case Finished => Rank(0, 0, 0)
  }

  function StageOf(r: Rank): nat { r.stage }
  function ItemsOf(r: Rank): nat { r.items }
  function PlaceOf(r: Rank): nat { r.place }

  ghost predicate Below(a: Rank, b: Rank) {
    || a.stage < b.stage
    || (a.stage == b.stage && a.items < b.items)
    || (a.stage == b.stage && a.items == b.items && a.place < b.place)
  }

  lemma BodyAdvances(w: World, sid: Sid, job: Job, body: Body, ok: bool)
    requires BodyOk(w, sid, job, body) && !body.Leaving?
    ensures BodyRank(BodyNext(w, sid, job, body, ok).1) < BodyRank(body)
  {
  }

  lemma FirstRank(job: Job)
    ensures BodyRank(First(job)) < 13
  {
  }

  lemma InAdvances(s: State, t: Tid, ok: bool)
    requires Inv(s) && Runs(s, t) && s.threads[t].pc.In?
    ensures Below(RankOf(InNext(s, t, s.threads[t], ok).threads[t]), RankOf(s.threads[t]))
  {
    var th := s.threads[t];
    var job, body := th.pc.job, th.pc.body;
    assert ThreadFits(th) && BodyOk(s.world, th.sid, job, body);
    NeverStaleNeverBlocked(s.world, th.sid, job, body);
    if body.Leaving? { LeavingAdvances(th, job, InNext(s, t, th, ok).threads[t]); }
    else {
      BodyAdvances(s.world, th.sid, job, body, ok);
      PlaceAdvances(th, job, body, InNext(s, t, th, ok).threads[t]);
    }
  }

  lemma LeavingAdvances(th: Thread, job: Job, th': Thread)
    requires th.pc.In? && th.pc.job == job && th.pc.body.Leaving? && JobFits(th.req, job)
    requires th' == th.(pc := After(th, job, th.pc.body.outcome), results := th'.results)
    ensures Below(RankOf(th'), RankOf(th))
  {
  }

  lemma PlaceAdvances(th: Thread, job: Job, body: Body, th': Thread)
    requires th.pc == In(job, body) && th'.pc.In? && th' == th.(pc := In(job, th'.pc.body))
    requires BodyRank(th'.pc.body) < BodyRank(body)
    ensures Below(RankOf(th'), RankOf(th))
  {
  }

  /** A running step strictly lowers its own thread's rank, whatever the outside
      world answers; no step raises another thread's. */
  lemma RunAdvances(s: State, t: Tid, c: Choice)
    requires Inv(s) && Runs(s, t)
    ensures Below(RankOf(Next(s, t, c).threads[t]), RankOf(s.threads[t]))
  {
    var th := s.threads[t];
    match th.pc
    case In(_, _) => InAdvances(s, t, c.ok);
    case Admitted => AdmittedAdvances(s, t, c.ok);
    case AtGate(job) => GateAdvances(s, t, c);
    case Adding => AddingAdvances(s, t, c.ok);
    case Dropping => DroppingAdvances(s, t);
    case CleaningUp => CleaningAdvances(s, t);
    case Start => StartAdvances(s, t);
    case Planning => PlanningAdvances(s, t);
    case Finished =>
    case _ => OtherAdvances(s, t, c);
  }

  lemma GateAdvances(s: State, t: Tid, c: Choice)
    requires Runs(s, t) && s.threads[t].pc.AtGate?
    ensures Below(RankOf(Next(s, t, c).threads[t]), RankOf(s.threads[t]))
  {
    FirstRank(s.threads[t].pc.job);
  }

  lemma JobStage(th: Thread, job: Job, pc: Pc)
    requires pc == AtGate(job) || (pc.In? && pc.job == job)
    ensures RankOf(th.(pc := pc)).stage <= 5
  {
  }

  lemma AdmittedAdvances(s: State, t: Tid, ok: bool)
    requires t in s.threads && s.threads[t].pc == Admitted
    ensures Below(RankOf(AdmittedNext(s, t, s.threads[t], ok).threads[t]), RankOf(s.threads[t]))
  {
    var th := s.threads[t];
    var th' := AdmittedNext(s, t, th, ok).threads[t];
    if th'.pc.AtGate? || th'.pc.In? { JobStage(th', th'.pc.job, th'.pc); }
  }

  lemma AddingAdvances(s: State, t: Tid, ok: bool)
    requires t in s.threads && s.threads[t].pc == Adding && s.threads[t].req.Reconcile?
    ensures Below(RankOf(AddingNext(s, t, s.threads[t], ok).threads[t]), RankOf(s.threads[t]))
  {
    var th := s.threads[t];
    if th.entries != [] && th.entries[0].Usable? && ok {
      var job := Job(Add, Fleet, th.entries[0].key);
      var th' := ArriveTarget(s, t, th.(entries := th.entries[1..], accepted := th.accepted + {job.key}), job).threads[t];
      assert th'.entries == th.entries[1..] && th'.req == th.req;
      assert RankOf(th').items == |th.entries| - 1;
    }
  }

  lemma DroppingAdvances(s: State, t: Tid)
    requires t in s.threads && s.threads[t].pc == Dropping && IsFleet(s.threads[t].req)
    ensures Below(RankOf(DroppingNext(s, t, s.threads[t]).threads[t]), RankOf(s.threads[t]))
  {
  }

  lemma CleaningAdvances(s: State, t: Tid)
    requires t in s.threads && s.threads[t].pc == CleaningUp && s.threads[t].req.Disconnect?
    ensures Below(RankOf(CleaningNext(s, t, s.threads[t]).threads[t]), RankOf(s.threads[t]))
  {
  }

  lemma StartAdvances(s: State, t: Tid)
    requires t in s.threads && s.threads[t].pc == Start
    ensures Below(RankOf(StartNext(s, t, s.threads[t]).threads[t]), RankOf(s.threads[t]))
  {
    StartLeads(s, t);
  }

  lemma StartLeads(s: State, t: Tid)
    requires t in s.threads && s.threads[t].pc == Start
    ensures StartNext(s, t, s.threads[t]).threads[t].pc in {Following, CleanPlanning, Draining, Admitted, Finished}
  {
  }

  lemma PlanningAdvances(s: State, t: Tid)
    requires t in s.threads && s.threads[t].pc == Planning
    ensures Below(RankOf(PlanningNext(s, t, s.threads[t]).threads[t]), RankOf(s.threads[t]))
  {
  }

  lemma OtherAdvances(s: State, t: Tid, c: Choice)
    requires Runs(s, t)
    requires s.threads[t].pc in {FleetWaiting, OpLeaving, Draining, Following, CleanPlanning, CloseLeaving}
             || s.threads[t].pc.FleetLeaving?
    ensures Below(RankOf(Next(s, t, c).threads[t]), RankOf(s.threads[t]))
  {
  }

  // --- So every set of handlers can be run to completion ---------------------------

  ghost function Sum(tids: set<Tid>, threads: Threads, part: Rank -> nat): nat
    requires tids <= threads.Keys
  {
    if tids == {} then 0
    else
      var t :| t in tids;
      part(RankOf(threads[t])) + Sum(tids - {t}, threads, part)
  }

  lemma {:induction false} SumTake(tids: set<Tid>, threads: Threads, part: Rank -> nat, t: Tid)
    requires tids <= threads.Keys && t in tids
    ensures Sum(tids, threads, part) == part(RankOf(threads[t])) + Sum(tids - {t}, threads, part)
    decreases |tids|
  {
    var u :| u in tids && Sum(tids, threads, part) == part(RankOf(threads[u])) + Sum(tids - {u}, threads, part);
    if u != t {
      SumTake(tids - {u}, threads, part, t);
      SumTake(tids - {t}, threads, part, u);
      assert tids - {u} - {t} == tids - {t} - {u};
    }
  }

  lemma {:induction false} SumSame(tids: set<Tid>, threads: Threads, threads': Threads, part: Rank -> nat)
    requires tids <= threads.Keys && tids <= threads'.Keys
    requires forall t :: t in tids ==> threads[t] == threads'[t]
    ensures Sum(tids, threads, part) == Sum(tids, threads', part)
    decreases |tids|
  {
    if tids != {} {
      var t :| t in tids;
      SumTake(tids, threads, part, t);
      SumTake(tids, threads', part, t);
      SumSame(tids - {t}, threads, threads', part);
    }
  }

  ghost function Total(s: State, part: Rank -> nat): nat {
    Sum(s.threads.Keys, s.threads, part)
  }

  lemma TotalStep(s: State, t: Tid, c: Choice, part: Rank -> nat)
    requires Awake(s, t)
    ensures Total(Next(s, t, c), part) - Total(s, part)
            == part(RankOf(Next(s, t, c).threads[t])) - part(RankOf(s.threads[t]))
  {
    var s' := Next(s, t, c);
    assert s'.threads.Keys == s.threads.Keys;
    SumTake(s.threads.Keys, s.threads, part, t);
    SumTake(s'.threads.Keys, s'.threads, part, t);
    SumSame(s.threads.Keys - {t}, s.threads, s'.threads, part);
  }

  ghost predicate Idle(s: State) {
    forall t :: t in s.threads ==> s.threads[t].pc == Finished
  }

  /** Some finite schedule of steps, under this oracle for the outside calls, ends
      with every handler finished. */
  ghost predicate CanDrain(s: State, oracle: (State, Tid) -> Choice, steps: nat)
    decreases steps
  {
    Idle(s) || (steps > 0 && exists t :: Awake(s, t) && CanDrain(Next(s, t, oracle(s, t)), oracle, steps - 1))
  }

  /** While somebody is unfinished, somebody's step lowers the total. */
  lemma SomebodyAdvances(s: State, oracle: (State, Tid) -> Choice) returns (t: Tid)
    requires Inv(s) && !Idle(s)
    ensures Awake(s, t) && Inv(Next(s, t, oracle(s, t)))
    ensures Lower(Next(s, t, oracle(s, t)), s)
  {
    var t0 :| t0 in s.threads && s.threads[t0].pc != Finished;
    t := SomebodyRuns(s, t0);
    var c := oracle(s, t);
    StepKeeps(s, t, c);
    RunAdvances(s, t, c);
    TotalStep(s, t, c, StageOf);
    TotalStep(s, t, c, ItemsOf);
    TotalStep(s, t, c, PlaceOf);
  }

  ghost predicate Lower(s': State, s: State) {
    || Total(s', StageOf) < Total(s, StageOf)
    || (Total(s', StageOf) == Total(s, StageOf)
        && (Total(s', ItemsOf) < Total(s, ItemsOf)
            || (Total(s', ItemsOf) == Total(s, ItemsOf) && Total(s', PlaceOf) < Total(s, PlaceOf))))
  }

  lemma {:induction false} Drains(s: State, oracle: (State, Tid) -> Choice) returns (steps: nat)
    requires Inv(s)
    ensures CanDrain(s, oracle, steps)
    decreases Total(s, StageOf), Total(s, ItemsOf), Total(s, PlaceOf)
  {
    if Idle(s) { return 0; }
    var t := SomebodyAdvances(s, oracle);
    var n := Drains(Next(s, t, oracle(s, t)), oracle);
    steps := n + 1;
  }

  /** In every run, at every point: whatever the outside calls answer from then on,
      all handlers present can run to completion. */
  lemma NoDeadlock(states: seq<State>, events: seq<Event>, i: nat, oracle: (State, Tid) -> Choice)
    requires Run(states, events) && i < |states|
    ensures exists steps :: CanDrain(states[i], oracle, steps)
  {
    RunInv(states, events, i);
    var steps := Drains(states[i], oracle);
  }

  // --- Whatever the schedule ------------------------------------------------------------

  /** However the handlers are scheduled and whatever the outside answers: the steps come to
      an end, and then every handler is finished. */
  least predicate EverySchedule(s: State) {
    && ((forall t :: !Awake(s, t)) ==> Idle(s))
    && forall t, c :: Awake(s, t) ==> EverySchedule(Next(s, t, c))
  }

  ghost function AwakeOnes(s: State): set<Tid> {
    set t | t in s.threads && Awake(s, t)
  }

  /** A step of a thread whose guard is false puts it to sleep and does nothing else. */
  lemma WaitSleeps(s: State, t: Tid, c: Choice)
    requires Inv(s) && Awake(s, t) && Waits(s, t)
    ensures Next(s, t, c) == s.(asleep := s.asleep + {t})
  {
  }

  lemma SleepLowers(s: State, t: Tid, c: Choice)
    requires Inv(s) && Awake(s, t) && Waits(s, t)
    ensures Total(Next(s, t, c), StageOf) == Total(s, StageOf) && Total(Next(s, t, c), ItemsOf) == Total(s, ItemsOf)
    ensures Total(Next(s, t, c), PlaceOf) == Total(s, PlaceOf) && |AwakeOnes(Next(s, t, c))| < |AwakeOnes(s)|
  {
    WaitSleeps(s, t, c);
    assert AwakeOnes(s) == AwakeOnes(Next(s, t, c)) + {t};
  }

  lemma RunLowers(s: State, t: Tid, c: Choice)
    requires Inv(s) && Runs(s, t)
    ensures Lower(Next(s, t, c), s)
  {
    RunAdvances(s, t, c);
    TotalStep(s, t, c, StageOf);
    TotalStep(s, t, c, ItemsOf);
    TotalStep(s, t, c, PlaceOf);
  }

  lemma NobodyAwake(s: State)
    requires Inv(s) && forall t :: !Awake(s, t)
    ensures Idle(s)
  {
    if !Idle(s) {
      var t0 :| t0 in s.threads && s.threads[t0].pc != Finished;
      var t := SomebodyRuns(s, t0);
      assert false;
    }
  }

  lemma {:induction false} SchedulesEnd(s: State)
    requires Inv(s)
    ensures EverySchedule(s)
    decreases Total(s, StageOf), Total(s, ItemsOf), Total(s, PlaceOf), |AwakeOnes(s)|
  {
    if forall t :: !Awake(s, t) { NobodyAwake(s); }
    forall t, c | Awake(s, t) ensures EverySchedule(Next(s, t, c)) {
      StepKeeps(s, t, c);
      if Waits(s, t) { SleepLowers(s, t, c); } else { RunLowers(s, t, c); }
      SchedulesEnd(Next(s, t, c));
    }
  }

  /** In every run, at every point: every way to go on scheduling the handlers present comes
      to an end, with all of them finished. */
  lemma EveryScheduleEnds(states: seq<State>, events: seq<Event>, i: nat)
    requires Run(states, events) && i < |states|
    ensures EverySchedule(states[i])
  {
    RunInv(states, events, i);
    SchedulesEnd(states[i]);
  }
}
