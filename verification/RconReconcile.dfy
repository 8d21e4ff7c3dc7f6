/** What a fleet acknowledgement promises, with individual handlers and other
    sessions running all the while. */
module RconReconcile {
  import opened Options
  import opened RconTypes
  import opened RconOwnership
  import opened FifoGate
  import opened SidLifecycle
  import opened RconProtocol
  import opened RconBody
  import opened RconInvariant
  import opened RconSteps
  import opened RconFrames
  import opened RconCleanup

  /** The normalized entries of the request. */
  function Entries(req: Request): seq<Entry> {
    if req.Reconcile? && Validate(req.payload).Some? then Validate(req.payload).value else []
  }

  ghost predicate Rejected(req: Request) {
    req.Reconcile? && Validate(req.payload).None?
  }

  lemma EntriesDistinct(req: Request)
    ensures DistinctKeys(Entries(req))
  {
    if req.Reconcile? && req.payload.Items? { NormalizeDistinct(req.payload.items, {}); }
  }

  /** The acknowledgement `out` answers `entry`. */
  ghost predicate Answers(entry: Entry, out: Outcome, accepted: set<Key>) {
    match entry
    case Unusable => out == Blank
    case Usable(key) => out == Refused(key) || (out == Connecting(key) && key in accepted)
  }

  ghost predicate AnswersAll(th: Thread, n: nat) {
    && n <= |th.results| && n <= |Entries(th.req)|
    && forall i :: 0 <= i < n ==> Answers(Entries(th.req)[i], th.results[i], th.accepted)
  }

  /** The removals of the request, in the order they are reported. */
  ghost function Removals(th: Thread): seq<Key> {
    SortKeys(th.current - th.accepted)
  }

  /** After the entries' results come those of the first n removals. */
  ghost predicate ReportsRemovals(th: Thread, n: nat) {
    var m := |Entries(th.req)|;
    && n <= |Removals(th)| && |th.results| == m + n
    && forall i :: 0 <= i < n ==> th.results[m + i] in {Removed(Removals(th)[i]), Stuck(Removals(th)[i])}
  }

  ghost predicate AddJobShape(th: Thread, job: Job) {
    var es, n := Entries(th.req), |th.results|;
    n < |es| && es[n] == Usable(job.key) && job.key in th.accepted
    && th.entries == es[n + 1..] && AnswersAll(th, n)
  }

  ghost predicate DropJobShape(th: Thread, job: Job) {
    var n := |th.results| - |Entries(th.req)|;
    && 0 <= n < |Removals(th)| && AnswersAll(th, |Entries(th.req)|) && ReportsRemovals(th, n)
    && job.key == Removals(th)[n] && th.keys == Removals(th)[n + 1..]
  }

  ghost predicate JobShape(th: Thread, job: Job) {
    if job.kind == Add then AddJobShape(th, job) else DropJobShape(th, job)
  }

  /** Every removal is done. */
  ghost predicate AllReported(th: Thread) {
    AnswersAll(th, |Entries(th.req)|) && ReportsRemovals(th, |Removals(th)|) && th.keys == []
  }

  ghost predicate DroppingShape(th: Thread) {
    var n := |th.results| - |Entries(th.req)|;
    && 0 <= n <= |Removals(th)| && AnswersAll(th, |Entries(th.req)|) && ReportsRemovals(th, n)
    && th.keys == Removals(th)[n..]
  }

  /** How far the results have come. */
  ghost predicate Shape(th: Thread) {
    && (th.req.FleetLeave? ==> th.accepted == {})
    && match th.pc
       case Start => th.results == [] && th.accepted == {}
       case Admitted => th.results == [] && th.accepted == {}
       case FleetWaiting => th.results == [] && th.accepted == {}
       case Planning => th.results == [] && th.accepted == {}
       case Adding =>
         !Rejected(th.req) && AnswersAll(th, |th.results|) && th.entries == Entries(th.req)[|th.results|..]
       case AtGate(job) => !Rejected(th.req) && JobShape(th, job)
       case In(job, _) => !Rejected(th.req) && JobShape(th, job)
       case Dropping => !Rejected(th.req) && DroppingShape(th)
       case FleetLeaving(done) =>
         done ==> if Rejected(th.req) then th.results == [Blank] else AllReported(th)
       case _ => true
  }

  ghost predicate FleetHolds(w: World, th: Thread, key: Key) {
    Holds(w, Slot(th.sid, key), Fleet)
  }

  /** Every target reported as connecting is fleet-owned, its connection established. */
  ghost predicate PromisesKept(w: World, th: Thread) {
    forall key :: Connecting(key) in th.results ==> FleetHolds(w, th, key) && Live(w, Slot(th.sid, key))
  }

  ghost predicate AddPhaseOwned(w: World, th: Thread) {
    && (forall key :: FleetHolds(w, th, key) ==> key in th.accepted || key in th.current)
    && (forall key :: key in th.current && key !in th.accepted ==> FleetHolds(w, th, key))
  }

  ghost predicate DropPhaseOwned(w: World, th: Thread, extra: set<Key>) {
    && (forall key :: FleetHolds(w, th, key) ==>
          key in th.accepted || key in th.keys || key in extra || Stuck(key) in th.results)
    && (forall key :: key in th.keys ==> FleetHolds(w, th, key))
  }

  ghost predicate DropBodyOwned(w: World, th: Thread, job: Job, body: Body) {
    && (body == Releasing ==> FleetHolds(w, th, job.key))
    && (body.Leaving? ==> body.outcome != Nothing)
  }

  ghost predicate Owned(w: World, th: Thread) {
    match th.pc
    case Adding => PromisesKept(w, th) && AddPhaseOwned(w, th)
    case AtGate(job) =>
      PromisesKept(w, th)
      && (if job.kind == Add then AddPhaseOwned(w, th)
          else DropPhaseOwned(w, th, {job.key}) && FleetHolds(w, th, job.key))
    case In(job, body) =>
      PromisesKept(w, th)
      && (if job.kind == Add then AddPhaseOwned(w, th)
          else DropPhaseOwned(w, th, {job.key}) && DropBodyOwned(w, th, job, body))
    case Dropping => PromisesKept(w, th) && DropPhaseOwned(w, th, {})
    case FleetLeaving(done) => done && !Rejected(th.req) ==> PromisesKept(w, th) && DropPhaseOwned(w, th, {})
    case _ => true
  }

  ghost predicate RecOk(w: World, th: Thread) {
    IsFleet(th.req) ==> Shape(th) && Owned(w, th)
  }

  ghost predicate RecInv(s: State) {
    forall t :: t in s.threads ==> RecOk(s.world, s.threads[t])
  }

  // --- Other threads -----------------------------------------------------------------

  ghost predicate FleetViewKept(w: World, w': World, slot: Slot) {
    && (Holds(w, slot, Fleet) <==> Holds(w', slot, Fleet))
    && (Holds(w, slot, Fleet) && Live(w, slot) ==> Live(w', slot))
  }

  /** An individual handler never takes or gives fleet ownership, and cannot undo a
      connection the fleet owns. */
  lemma IndividualKeepsFleet(w: World, sid: Sid, job: Job, body: Body, ok: bool)
    requires BodyOk(w, sid, job, body) && job.owner == Individual && job.kind != Clean
    ensures FleetViewKept(w, BodyNext(w, sid, job, body, ok).0, Slot(sid, job.key))
  {
  }

  /** While a fleet request of a session runs, whoever else works on a slot of
      that session is an individual handler. */
  lemma OthersAreIndividual(s: State, t: Tid, u: Tid, slot: Slot)
    requires Inv(s) && t in s.threads && InFleet(s.threads[t]) && s.threads[t].pc != FleetWaiting
    requires WorksOn(s.threads, u, slot) && slot.sid == s.threads[t].sid && u != t
    ensures s.threads[u].pc.job.owner == Individual && s.threads[u].pc.job.kind != Clean
  {
    assert ThreadFits(s.threads[u]);
    assert IsHead(s.fleetQ, slot.sid, t) && t in Ops(s.threads, slot.sid);
    assert InFleet(s.threads[u]) ==> IsHead(s.fleetQ, slot.sid, u);
    if s.threads[u].req.Disconnect? {
      assert CloserOf(s.threads, u, slot.sid);
      NoOpsPastDrain(s.threads, s.recs, u, slot.sid);
    }
  }

  lemma IndividualInView(s: State, u: Tid, c: Choice, slot: Slot)
    requires Awake(s, u) && WorksOn(s.threads, u, slot) && !Blocks(s.world, s.threads[u].pc.body)
    requires BodyOk(s.world, s.threads[u].sid, s.threads[u].pc.job, s.threads[u].pc.body)
    requires s.threads[u].pc.job.owner == Individual && s.threads[u].pc.job.kind != Clean
    ensures FleetViewKept(s.world, Next(s, u, c).world, slot)
  {
    var th := s.threads[u];
    if !th.pc.body.Leaving? {
      IndividualKeepsFleet(s.world, th.sid, th.pc.job, th.pc.body, c.ok);
    }
  }

  lemma IndividualStepView(s: State, u: Tid, c: Choice, slot: Slot)
    requires Inv(s) && Awake(s, u) && WorksOn(s.threads, u, slot)
    requires s.threads[u].pc.job.owner == Individual && s.threads[u].pc.job.kind != Clean
    ensures FleetViewKept(s.world, Next(s, u, c).world, slot)
  {
    InFacts(s, u);
    IndividualInView(s, u, c, slot);
  }

  lemma FleetViewStable(s: State, e: Event, t: Tid, key: Key)
    requires Inv(s) && Possible(s, e) && !ActedBy(e, t)
    requires t in s.threads && InFleet(s.threads[t]) && s.threads[t].pc != FleetWaiting
    ensures FleetViewKept(s.world, Occurs(s, e).world, Slot(s.threads[t].sid, key))
  {
    var slot := Slot(s.threads[t].sid, key);
    if e.Step? && WorksOn(s.threads, e.t, slot) {
      OthersAreIndividual(s, t, e.t, slot);
      IndividualStepView(s, e.t, e.c, slot);
    } else {
      SlotChange(s, e, slot);
    }
  }

  lemma OthersKeepRec(s: State, e: Event, t: Tid)
    requires Inv(s) && RecInv(s) && Possible(s, e) && !ActedBy(e, t) && t in s.threads
    ensures RecOk(Occurs(s, e).world, s.threads[t])
  {
    var th := s.threads[t];
    assert RecOk(s.world, th);
    if InFleet(th) && th.pc != FleetWaiting {
      forall key ensures FleetViewKept(s.world, Occurs(s, e).world, Slot(th.sid, key)) {
        FleetViewStable(s, e, t, key);
      }
      OwnedStable(s.world, Occurs(s, e).world, th);
    }
  }

  lemma OwnedStable(w: World, w': World, th: Thread)
    requires Owned(w, th)
    requires forall key :: FleetViewKept(w, w', Slot(th.sid, key))
    ensures Owned(w', th)
  {
    assert forall key :: FleetHolds(w, th, key) <==> FleetHolds(w', th, key) by {
      forall key ensures FleetHolds(w, th, key) <==> FleetHolds(w', th, key) {
        assert FleetViewKept(w, w', Slot(th.sid, key));
      }
    }
    assert PromisesKept(w, th) ==> PromisesKept(w', th) by {
      forall key | Connecting(key) in th.results && PromisesKept(w, th)
        ensures FleetHolds(w', th, key) && Live(w', Slot(th.sid, key))
      {
        assert FleetViewKept(w, w', Slot(th.sid, key));
      }
    }
  }

  // --- The thread's own steps ----------------------------------------------------------

  lemma PlanningRec(s: State, t: Tid)
    requires t in s.threads && RecOk(s.world, s.threads[t]) && IsFleet(s.threads[t].req)
    requires s.threads[t].pc == Planning
    ensures var s' := PlanningNext(s, t, s.threads[t]); RecOk(s'.world, s'.threads[t])
  {
    var th := s.threads[t];
    var th' := PlanningNext(s, t, th).threads[t];
    assert forall key :: FleetHolds(s.world, th, key) <==> key in SnapshotOwnedBy(s.world.book, th.sid, Fleet);
    if th'.pc == Dropping {
      assert th'.current - th'.accepted == th'.current;
    }
  }

  lemma AddingEndRec(w: World, th: Thread)
    requires RecOk(w, th) && th.req.Reconcile? && th.pc == Adding && th.entries == []
    ensures RecOk(w, th.(pc := Dropping, keys := SortKeys(th.current - th.accepted)))
  {
    var th' := th.(pc := Dropping, keys := SortKeys(th.current - th.accepted));
    assert |th.results| == |Entries(th.req)|;
    assert Removals(th') == th'.keys;
    assert forall key :: key in th'.keys <==> key in th.current && key !in th.accepted;
    assert forall key :: FleetHolds(w, th', key) <==> FleetHolds(w, th, key);
    assert ReportsRemovals(th', 0);
  }

  /** An entry that never gets to the gate is answered on the spot. */
  lemma AddingAnswerRec(w: World, th: Thread, out: Outcome)
    requires RecOk(w, th) && th.req.Reconcile? && th.pc == Adding && th.entries != []
    requires Answers(th.entries[0], out, th.accepted) && !out.Connecting?
    ensures RecOk(w, th.(entries := th.entries[1..], results := th.results + [out]))
  {
    var th' := th.(entries := th.entries[1..], results := th.results + [out]);
    var es := Entries(th.req);
    assert th.entries[0] == es[|th.results|] && th'.entries == es[|th'.results|..];
    assert forall key :: FleetHolds(w, th', key) <==> FleetHolds(w, th, key);
    assert forall key :: Connecting(key) in th'.results ==> Connecting(key) in th.results;
  }

  lemma AddingGateRec(w: World, th: Thread, key: Key, pc: Pc)
    requires RecOk(w, th) && th.req.Reconcile? && th.pc == Adding && th.entries != []
    requires th.entries[0] == Usable(key)
    requires pc == AtGate(Job(Add, Fleet, key)) || pc == In(Job(Add, Fleet, key), Acquiring)
    ensures RecOk(w, th.(entries := th.entries[1..], accepted := th.accepted + {key}, pc := pc))
  {
    var th' := th.(entries := th.entries[1..], accepted := th.accepted + {key}, pc := pc);
    var es := Entries(th.req);
    assert th.entries[0] == es[|th.results|] && th'.entries == es[|th.results| + 1..];
    assert AnswersAll(th', |th.results|);
    assert forall k :: FleetHolds(w, th', k) <==> FleetHolds(w, th, k);
  }

  lemma AddingRec(s: State, t: Tid, ok: bool)
    requires t in s.threads && RecOk(s.world, s.threads[t]) && s.threads[t].req.Reconcile?
    requires s.threads[t].pc == Adding
    ensures var s' := AddingNext(s, t, s.threads[t], ok); RecOk(s'.world, s'.threads[t])
  {
    var th := s.threads[t];
    var th' := AddingNext(s, t, th, ok).threads[t];
    if th.entries == [] {
      AddingEndRec(s.world, th);
    } else if th.entries[0] == Unusable {
      AddingAnswerRec(s.world, th, Blank);
    } else if ok {
      AddingGateRec(s.world, th, th.entries[0].key, th'.pc);
    } else {
      AddingAnswerRec(s.world, th, Refused(th.entries[0].key));
    }
  }

  lemma DroppingEndRec(w: World, th: Thread)
    requires RecOk(w, th) && IsFleet(th.req) && th.pc == Dropping && th.keys == []
    ensures RecOk(w, th.(pc := FleetLeaving(true)))
  {
    var th' := th.(pc := FleetLeaving(true));
    var n := |th.results| - |Entries(th.req)|;
    assert Removals(th') == Removals(th) && n == |Removals(th)|;
    assert forall key :: FleetHolds(w, th', key) <==> FleetHolds(w, th, key);
    assert AnswersAll(th', |Entries(th.req)|) && ReportsRemovals(th', n);
  }

  lemma DroppingJobShape(th: Thread, th': Thread, job: Job)
    requires th.pc == Dropping && DroppingShape(th) && th.keys != []
    requires th' == th.(keys := th.keys[1..], pc := th'.pc) && job == Job(Drop, Fleet, th.keys[0])
    ensures DropJobShape(th', job)
  {
    var n := |th.results| - |Entries(th.req)|;
    assert th.keys[0] == Removals(th)[n] && th.keys[1..] == Removals(th)[n + 1..];
    assert Removals(th') == Removals(th);
    assert AnswersAll(th', |Entries(th.req)|) && ReportsRemovals(th', n);
  }

  lemma DroppingJobRec(w: World, th: Thread, pc: Pc)
    requires RecOk(w, th) && IsFleet(th.req) && th.pc == Dropping && th.keys != []
    requires var job := Job(Drop, Fleet, th.keys[0]); pc == AtGate(job) || pc == In(job, Releasing)
    ensures RecOk(w, th.(keys := th.keys[1..], pc := pc))
  {
    var job := Job(Drop, Fleet, th.keys[0]);
    var th' := th.(keys := th.keys[1..], pc := pc);
    DroppingJobShape(th, th', job);
    assert forall key :: key in th.keys <==> key == job.key || key in th'.keys;
    assert forall key :: FleetHolds(w, th', key) <==> FleetHolds(w, th, key);
    assert PromisesKept(w, th') && DropPhaseOwned(w, th', {job.key});
  }

  lemma DroppingRec(s: State, t: Tid)
    requires t in s.threads && RecOk(s.world, s.threads[t]) && IsFleet(s.threads[t].req)
    requires s.threads[t].pc == Dropping
    ensures var s' := DroppingNext(s, t, s.threads[t]); RecOk(s'.world, s'.threads[t])
  {
    var th := s.threads[t];
    if th.keys == [] { DroppingEndRec(s.world, th); }
    else { DroppingJobRec(s.world, th, DroppingNext(s, t, th).threads[t].pc); }
  }

  /** The key a drop job works on is not among those still to come, nor accepted. */
  lemma DropKeyFresh(th: Thread, job: Job)
    requires DropJobShape(th, job)
    ensures job.key !in th.keys && job.key !in th.accepted
    ensures forall key :: Connecting(key) in th.results ==> key in th.accepted
  {
    var n := |th.results| - |Entries(th.req)|;
    assert Removals(th)[n] in Removals(th);
    forall key | Connecting(key) in th.results ensures key in th.accepted {
      var i :| 0 <= i < |th.results| && th.results[i] == Connecting(key);
      if i < |Entries(th.req)| { assert Answers(Entries(th.req)[i], th.results[i], th.accepted); }
      else { RemovalsDoNotConnect(th, n, i); }
    }
  }

  lemma RemovalsDoNotConnect(th: Thread, n: nat, i: nat)
    requires ReportsRemovals(th, n) && |Entries(th.req)| <= i < |th.results|
    ensures !th.results[i].Connecting?
  {
    var j := i - |Entries(th.req)|;
    assert th.results[|Entries(th.req)| + j] in {Removed(Removals(th)[j]), Stuck(Removals(th)[j])};
  }

  lemma AddKeyFresh(th: Thread, job: Job)
    requires AddJobShape(th, job)
    ensures Connecting(job.key) !in th.results
  {
    EntriesDistinct(th.req);
    var es := Entries(th.req);
    forall i | 0 <= i < |th.results| ensures th.results[i] != Connecting(job.key) {
      assert Answers(es[i], th.results[i], th.accepted);
      assert es[|th.results|] == Usable(job.key);
    }
  }

  /** A step on another slot shows nothing of it here. */
  lemma ElsewhereKept(w: World, w': World, slot: Slot, x: Slot)
    requires OnlySlot(w, w', slot) && x != slot
    ensures FleetViewKept(w, w', x)
  {
    assert SameAt(w, w', x);
  }

  lemma AddBodyRec(w: World, th: Thread, ok: bool)
    requires th.pc.In? && th.pc.job.kind == Add && th.pc.job.owner == Fleet && !th.pc.body.Leaving?
    requires BodyOk(w, th.sid, th.pc.job, th.pc.body) && IsFleet(th.req) && RecOk(w, th)
    ensures var (w', body') := BodyNext(w, th.sid, th.pc.job, th.pc.body, ok);
            RecOk(w', th.(pc := In(th.pc.job, body')))
  {
    var job := th.pc.job;
    var (w', body') := BodyNext(w, th.sid, job, th.pc.body, ok);
    var slot := Slot(th.sid, job.key);
    BodyLocal(w, th.sid, job, th.pc.body, ok);
    AddKeyFresh(th, job);
    forall key | key != job.key ensures FleetViewKept(w, w', Slot(th.sid, key)) {
      ElsewhereKept(w, w', slot, Slot(th.sid, key));
    }
    var th' := th.(pc := In(job, body'));
    assert PromisesKept(w', th') by {
      forall key | Connecting(key) in th.results
        ensures FleetHolds(w', th, key) && Live(w', Slot(th.sid, key))
      {
        assert key != job.key && FleetViewKept(w, w', Slot(th.sid, key));
        assert FleetHolds(w, th, key);
      }
    }
    forall key | key != job.key ensures FleetHolds(w', th', key) <==> FleetHolds(w, th, key) {
      assert FleetViewKept(w, w', Slot(th.sid, key));
    }
  }

  lemma DropBodyStep(w: World, sid: Sid, job: Job, body: Body, ok: bool)
    requires BodyOk(w, sid, job, body) && job.kind == Drop && job.owner == Fleet && !body.Leaving?
    requires body == Releasing ==> Holds(w, Slot(sid, job.key), Fleet)
    ensures var (w', body') := BodyNext(w, sid, job, body, ok);
            body' != Releasing && (body'.Leaving? ==> body'.outcome != Nothing)
  {
  }

  lemma DropBodyRec(w: World, th: Thread, ok: bool)
    requires th.pc.In? && th.pc.job.kind == Drop && th.pc.job.owner == Fleet && !th.pc.body.Leaving?
    requires BodyOk(w, th.sid, th.pc.job, th.pc.body) && IsFleet(th.req) && RecOk(w, th)
    ensures var (w', body') := BodyNext(w, th.sid, th.pc.job, th.pc.body, ok);
            RecOk(w', th.(pc := In(th.pc.job, body')))
  {
    var job := th.pc.job;
    var (w', body') := BodyNext(w, th.sid, job, th.pc.body, ok);
    var slot := Slot(th.sid, job.key);
    BodyLocal(w, th.sid, job, th.pc.body, ok);
    DropBodyStep(w, th.sid, job, th.pc.body, ok);
    DropKeyFresh(th, job);
    var th' := th.(pc := In(job, body'));
    forall key | key != job.key ensures FleetViewKept(w, w', Slot(th.sid, key)) {
      ElsewhereKept(w, w', slot, Slot(th.sid, key));
    }
    assert PromisesKept(w', th') by {
      forall key | Connecting(key) in th.results
        ensures FleetHolds(w', th, key) && Live(w', Slot(th.sid, key))
      {
        assert key != job.key && FleetViewKept(w, w', Slot(th.sid, key));
        assert FleetHolds(w, th, key);
      }
    }
    forall key | key != job.key ensures FleetHolds(w', th', key) <==> FleetHolds(w, th, key) {
      assert FleetViewKept(w, w', Slot(th.sid, key));
    }
  }

  /** Giving the gate back files the outcome. */
  lemma AddLeavingRec(w: World, th: Thread)
    requires th.pc.In? && th.pc.job.kind == Add && th.pc.job.owner == Fleet && th.pc.body.Leaving?
    requires BodyOk(w, th.sid, th.pc.job, th.pc.body) && th.req.Reconcile? && RecOk(w, th)
    ensures th.pc.body.outcome != Nothing
    ensures RecOk(w, th.(pc := Adding, results := th.results + [th.pc.body.outcome]))
  {
    var out := th.pc.body.outcome;
    var th' := th.(pc := Adding, results := th.results + [out]);
    assert th'.entries == Entries(th.req)[|th'.results|..];
    forall key | Connecting(key) in th'.results
      ensures FleetHolds(w, th', key) && Live(w, Slot(th'.sid, key))
    {
      assert Connecting(key) in th.results || Connecting(key) == out;
    }
  }

  lemma DropLeavingShape(th: Thread, job: Job, out: Outcome)
    requires DropJobShape(th, job) && (out == Removed(job.key) || out == Stuck(job.key))
    ensures DroppingShape(th.(pc := Dropping, results := th.results + [out]))
  {
    var th' := th.(pc := Dropping, results := th.results + [out]);
    var m := |Entries(th.req)|;
    var n := |th.results| - m;
    assert Removals(th') == Removals(th);
    forall i | 0 <= i < n + 1 ensures th'.results[m + i] in {Removed(Removals(th)[i]), Stuck(Removals(th)[i])} {
      if i < n { assert th'.results[m + i] == th.results[m + i]; }
    }
    assert AnswersAll(th', m);
  }

  lemma DropLeavingRec(w: World, th: Thread)
    requires th.pc.In? && th.pc.job.kind == Drop && th.pc.job.owner == Fleet && th.pc.body.Leaving?
    requires BodyOk(w, th.sid, th.pc.job, th.pc.body) && IsFleet(th.req) && RecOk(w, th)
    ensures th.pc.body.outcome != Nothing
    ensures RecOk(w, th.(pc := Dropping, results := th.results + [th.pc.body.outcome]))
  {
    var out, job := th.pc.body.outcome, th.pc.job;
    var th' := th.(pc := Dropping, results := th.results + [out]);
    DropLeavingShape(th, job, out);
    assert forall o :: o in th'.results <==> o in th.results || o == out;
    forall key | FleetHolds(w, th', key)
      ensures key in th'.accepted || key in th'.keys || Stuck(key) in th'.results
    {
      assert FleetHolds(w, th, key);
      if key == job.key { assert out == Stuck(key); }
    }
    assert PromisesKept(w, th') && DropPhaseOwned(w, th', {});
  }

  lemma InRec(s: State, t: Tid, ok: bool)
    requires Inv(s) && Awake(s, t) && RecOk(s.world, s.threads[t]) && IsFleet(s.threads[t].req)
    requires s.threads[t].pc.In?
    ensures var s' := InNext(s, t, s.threads[t], ok); RecOk(s'.world, s'.threads[t])
  {
    var th := s.threads[t];
    var job, body := th.pc.job, th.pc.body;
    assert ThreadFits(th) && BodyOk(s.world, th.sid, job, body);
    NeverStaleNeverBlocked(s.world, th.sid, job, body);
    if job.kind == Add {
      if body.Leaving? { AddLeavingRec(s.world, th); } else { AddBodyRec(s.world, th, ok); }
    } else {
      if body.Leaving? { DropLeavingRec(s.world, th); } else { DropBodyRec(s.world, th, ok); }
    }
  }

  /** Steps that leave results, plans and the registry alone. */
  lemma EarlyRec(s: State, t: Tid, c: Choice)
    requires Awake(s, t) && RecOk(s.world, s.threads[t]) && IsFleet(s.threads[t].req)
    requires s.threads[t].pc in {Start, Admitted, FleetWaiting}
    ensures RecOk(Next(s, t, c).world, Next(s, t, c).threads[t])
  {
    var th' := Next(s, t, c).threads[t];
    assert th'.results == [] && th'.accepted == {};
  }

  lemma QuietRec(s: State, t: Tid, c: Choice)
    requires Awake(s, t) && RecOk(s.world, s.threads[t]) && IsFleet(s.threads[t].req) && ThreadFits(s.threads[t])
    requires s.threads[t].pc in {Start, Admitted, FleetWaiting, OpLeaving, Finished}
             || s.threads[t].pc.FleetLeaving?
    ensures RecOk(Next(s, t, c).world, Next(s, t, c).threads[t])
  {
    if s.threads[t].pc in {Start, Admitted, FleetWaiting} { EarlyRec(s, t, c); }
  }

  lemma EnteringRec(w: World, th: Thread, th': Thread)
    requires RecOk(w, th) && IsFleet(th.req) && ThreadFits(th) && th.pc.AtGate?
    requires th' == th.(pc := In(th.pc.job, First(th.pc.job)))
    ensures RecOk(w, th')
  {
    assert forall key :: FleetHolds(w, th', key) <==> FleetHolds(w, th, key);
  }

  lemma AtGateRec(s: State, t: Tid, c: Choice)
    requires Awake(s, t) && RecOk(s.world, s.threads[t]) && IsFleet(s.threads[t].req) && ThreadFits(s.threads[t])
    requires s.threads[t].pc.AtGate?
    ensures RecOk(Next(s, t, c).world, Next(s, t, c).threads[t])
  {
    var th := s.threads[t];
    EnteringRec(s.world, th, th.(pc := In(th.pc.job, First(th.pc.job))));
  }

  lemma StepRec(s: State, t: Tid, c: Choice)
    requires Inv(s) && Awake(s, t) && RecOk(s.world, s.threads[t]) && IsFleet(s.threads[t].req)
    ensures RecOk(Next(s, t, c).world, Next(s, t, c).threads[t])
  {
    var th := s.threads[t];
    assert ThreadFits(th);
    if th.pc == Planning { PlanningRec(s, t); }
    else if th.pc == Adding { AddingRec(s, t, c.ok); }
    else if th.pc == Dropping { DroppingRec(s, t); }
    else if th.pc.In? { InRec(s, t, c.ok); }
    else if th.pc.AtGate? { AtGateRec(s, t, c); }
    else { QuietRec(s, t, c); }
  }

  lemma EventKeepsRec(s: State, e: Event)
    requires Inv(s) && RecInv(s) && Possible(s, e)
    ensures RecInv(Occurs(s, e))
  {
    var s' := Occurs(s, e);
    forall t | t in s'.threads ensures RecOk(s'.world, s'.threads[t]) {
      if ActedBy(e, t) {
        match e
        case Step(_, c) =>
          StepShape(s, t, c);
          if IsFleet(s.threads[t].req) { StepRec(s, t, c); }
        case _ =>
      } else {
        OtherThreadsKept(s, e, t);
        OthersKeepRec(s, e, t);
      }
    }
  }

  lemma {:induction false} RunRec(states: seq<State>, events: seq<Event>, i: nat)
    requires Run(states, events) && i < |states|
    ensures RecInv(states[i])
  {
    if i > 0 {
      RunRec(states, events, i - 1);
      RunInv(states, events, i - 1);
      EventKeepsRec(states[i - 1], events[i - 1]);
    }
  }

  lemma RecAt(states: seq<State>, events: seq<Event>, i: nat, t: Tid)
    requires Run(states, events) && i < |states| && t in states[i].threads
    ensures RecOk(states[i].world, states[i].threads[t])
  {
    RunRec(states, events, i);
  }

  /** In every run, when a reconcile is about to acknowledge: one result per
      normalized entry, in order, then the removals in ascending order; whatever
      is reported as connecting is fleet-owned with an established connection; and
      what is fleet-owned is accepted or reported as stuck. */
  lemma ReconcileAcknowledges(states: seq<State>, events: seq<Event>, i: nat, t: Tid)
    requires Run(states, events) && i < |states| && t in states[i].threads
    requires states[i].threads[t].pc == FleetLeaving(true)
    requires states[i].threads[t].req.Reconcile? && !Rejected(states[i].threads[t].req)
    ensures var th, w := states[i].threads[t], states[i].world;
            var es, gone := Entries(th.req), Removals(th);
            && |th.results| == |es| + |gone| && Ascending(gone)
            && (forall k :: k in gone <==> k in th.current && k !in th.accepted)
            && (forall j :: 0 <= j < |es| ==> Answers(es[j], th.results[j], th.accepted))
            && (forall j :: 0 <= j < |gone| ==> th.results[|es| + j] in {Removed(gone[j]), Stuck(gone[j])})
            && (forall key :: Connecting(key) in th.results ==> FleetHolds(w, th, key) && Live(w, Slot(th.sid, key)))
            && (forall key :: FleetHolds(w, th, key) ==> key in th.accepted || Stuck(key) in th.results)
  {
    RecAt(states, events, i, t);
    var th := states[i].threads[t];
    assert forall k :: k in Removals(th) <==> k in th.current - th.accepted;
  }

  /** A fleet leave releases everything but what it reports. */
  lemma FleetLeaveReleases(states: seq<State>, events: seq<Event>, i: nat, t: Tid, key: Key)
    requires Run(states, events) && i < |states| && t in states[i].threads
    requires states[i].threads[t].req == FleetLeave && states[i].threads[t].pc == FleetLeaving(true)
    requires FleetHolds(states[i].world, states[i].threads[t], key)
    ensures Stuck(key) in states[i].threads[t].results
  {
    RecAt(states, events, i, t);
    assert !Rejected(states[i].threads[t].req);
  }
}
