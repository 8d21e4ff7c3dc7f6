/** Exactly when an owner outside its room does harm, and what a disconnect whose
    leave_room raises leaves behind. */
module RconRooms {
  import opened Options
  import opened RconTypes
  import opened RconOwnership
  import opened FifoGate
  import opened SidLifecycle
  import opened RconProtocol
  import opened RconBody
  import opened RconInvariant
  import opened RconSteps
  import opened RconFrames
  import opened RconCleanup
  import opened RconProgress
  import opened RconTheorems
  import opened RconVisits

  /** Whoever has an established connection, the last publication is a connect. */
  ghost predicate Safe(w: World) {
    forall slot :: Live(w, slot) ==> LastIsConnect(w, slot.key)
  }

  /** Every owner that may still act is in its room, and a session whose disconnect failed
      left no established connection. */
  ghost predicate Sheltered(w: World) {
    forall slot :: slot in w.book.own ==> if slot.sid in w.stranded then !Live(w, slot) else slot in w.rooms
  }

  lemma IdleIsQuiet(s: State)
    requires Inv(s) && Idle(s)
    ensures s.recs == map[] && s.targetQ == map[] && s.asleep == {}
    ensures forall slot :: Calm(s.world, slot)
  {
    forall sid ensures sid !in s.recs {
      assert Ops(s.threads, sid) == {};
    }
    NobodyQueues(s.threads, s.targetQ);
    forall slot ensures !Busy(s.threads, slot) {
    }
  }

  lemma NobodyQueues(threads: Threads, q: map<Key, seq<Tid>>)
    requires TargetGate(threads, q) && forall t :: t in threads ==> AtKey(threads[t]) == None
    ensures q == map[]
  {
    forall k ensures k !in q {
      forall t ensures t !in QueueOf(q, k) {
        if t in threads { assert AtKey(threads[t]) == None; }
      }
      SomebodyFirst(QueueOf(q, k));
    }
  }

  lemma SomebodyFirst(line: seq<Tid>)
    ensures line != [] ==> exists t :: t in line
  {
    if line != [] { assert line[0] in line; }
  }

  // --- Sheltered is enough -----------------------------------------------------------------

  /** The same world with the history of strays kept only for the stranded. */
  function Cleaned(w: World): World {
    w.(strays := set x | x in w.strays && x.sid in w.stranded)
  }

  function Tidied(s: State): State {
    s.(world := Cleaned(s.world))
  }

  lemma BodyCommutes(w: World, sid: Sid, job: Job, body: Body, ok: bool)
    requires !ok ==> !(body.JoiningRoom? && job.owner == Individual) && !(body.LeavingRoom? && job.kind == Clean)
    ensures var (w', body') := BodyNext(w, sid, job, body, ok);
            BodyNext(Cleaned(w), sid, job, body, ok) == (Cleaned(w'), body')
    ensures Blocks(Cleaned(w), body) == Blocks(w, body)
    ensures BodyNext(w, sid, job, body, ok).0.stranded == w.stranded
  {
    var slot := Slot(sid, job.key);
    assert Cleaned(w.(strays := w.strays - {slot})).strays == Cleaned(w).strays - {slot};
  }

  lemma StepCommutes(s: State, t: Tid, c: Choice)
    requires Awake(s, t) && !Failure(s, Step(t, c))
    ensures Next(Tidied(s), t, c) == Tidied(Next(s, t, c))
    ensures Next(s, t, c).world.stranded == s.world.stranded
  {
    var th := s.threads[t];
    match th.pc
    case In(job, body) => InCommutes(s, t, c);
    case Start => StartCommutes(s, t, th);
    case Admitted => AdmittedCommutes(s, t, th, c.ok);
    case Adding => AddingCommutes(s, t, th, c.ok);
    case Dropping => DroppingCommutes(s, t, th);
    case CleaningUp => CleaningCommutes(s, t, th);
    case Planning => OtherCommutes(s, t, c);
    case CleanPlanning => OtherCommutes(s, t, c);
    case _ => WaitingCommutes(s, t, c);
  }

  lemma ArriveCommutes(s: State, t: Tid, th: Thread, job: Job)
    ensures ArriveTarget(Tidied(s), t, th, job) == Tidied(ArriveTarget(s, t, th, job))
  {
  }

  lemma DroppingCommutes(s: State, t: Tid, th: Thread)
    ensures DroppingNext(Tidied(s), t, th) == Tidied(DroppingNext(s, t, th))
  {
    if th.keys != [] { ArriveCommutes(s, t, th.(keys := th.keys[1..]), Job(Drop, Fleet, th.keys[0])); }
  }

  lemma CleaningCommutes(s: State, t: Tid, th: Thread)
    ensures CleaningNext(Tidied(s), t, th) == Tidied(CleaningNext(s, t, th))
    ensures CleaningNext(s, t, th).world.stranded == s.world.stranded
  {
    if th.keys != [] { ArriveCommutes(s, t, th.(keys := th.keys[1..]), Job(Clean, Individual, th.keys[0])); }
  }

  lemma InCommutes(s: State, t: Tid, c: Choice)
    requires Awake(s, t) && s.threads[t].pc.In? && !Failure(s, Step(t, c))
    ensures InNext(Tidied(s), t, s.threads[t], c.ok) == Tidied(InNext(s, t, s.threads[t], c.ok))
    ensures InNext(s, t, s.threads[t], c.ok).world.stranded == s.world.stranded
  {
    var th := s.threads[t];
    BodyCommutes(s.world, th.sid, th.pc.job, th.pc.body, c.ok);
  }

  lemma StartCommutes(s: State, t: Tid, th: Thread)
    ensures StartNext(Tidied(s), t, th) == Tidied(StartNext(s, t, th))
  {
    if th.req.Disconnect? { CloserCommutes(s, t, th); } else { OperationCommutes(s, t, th); }
  }

  lemma CloserCommutes(s: State, t: Tid, th: Thread)
    requires th.req.Disconnect?
    ensures StartNext(Tidied(s), t, th) == Tidied(StartNext(s, t, th))
  {
  }

  lemma OperationCommutes(s: State, t: Tid, th: Thread)
    requires !th.req.Disconnect?
    ensures StartNext(Tidied(s), t, th) == Tidied(StartNext(s, t, th))
  {
  }

  lemma AdmittedCommutes(s: State, t: Tid, th: Thread, ok: bool)
    ensures AdmittedNext(Tidied(s), t, th, ok) == Tidied(AdmittedNext(s, t, th, ok))
  {
    if ok && !(th.sid in s.recs && s.recs[th.sid].closing) { AcceptedCommutes(s, t, th); }
  }

  lemma AcceptedCommutes(s: State, t: Tid, th: Thread)
    requires !(th.sid in s.recs && s.recs[th.sid].closing)
    ensures AdmittedNext(Tidied(s), t, th, true) == Tidied(AdmittedNext(s, t, th, true))
  {
    match th.req
    case Join(key) => ArriveCommutes(s, t, th, Job(Add, Individual, key));
    case Leave(key) => ArriveCommutes(s, t, th, Job(Drop, Individual, key));
    case Command(key) => ArriveCommutes(s, t, th, Job(Use, Individual, key));
    case _ => FleetCommutes(s, t, th);
  }

  lemma FleetCommutes(s: State, t: Tid, th: Thread)
    ensures ArriveFleet(Tidied(s), t, th) == Tidied(ArriveFleet(s, t, th))
  {
  }

  lemma AddingCommutes(s: State, t: Tid, th: Thread, ok: bool)
    ensures AddingNext(Tidied(s), t, th, ok) == Tidied(AddingNext(s, t, th, ok))
  {
    if th.entries != [] && th.entries[0].Usable? {
      var key := th.entries[0].key;
      ArriveCommutes(s, t, th.(entries := th.entries[1..], accepted := th.accepted + {key}), Job(Add, Fleet, key));
    }
  }

  lemma OtherCommutes(s: State, t: Tid, c: Choice)
    requires Awake(s, t) && s.threads[t].pc in {Planning, CleanPlanning}
    ensures Next(Tidied(s), t, c) == Tidied(Next(s, t, c))
    ensures Next(s, t, c).world == s.world
  {
  }

  lemma WaitingCommutes(s: State, t: Tid, c: Choice)
    requires Awake(s, t)
    requires s.threads[t].pc in {FleetWaiting, Draining, Following, CloseLeaving, OpLeaving} || s.threads[t].pc.AtGate?
             || s.threads[t].pc.FleetLeaving?
    ensures Next(Tidied(s), t, c) == Tidied(Next(s, t, c))
    ensures Next(s, t, c).world == s.world
  {
  }

  lemma EventCommutes(s: State, e: Event)
    requires Possible(s, e) && !Failure(s, e)
    ensures Possible(Tidied(s), e) && Occurs(Tidied(s), e) == Tidied(Occurs(s, e))
    ensures Occurs(s, e).world.stranded == s.world.stranded
  {
    match e
    case Step(t, c) => StepCommutes(s, t, c);
    case ForgetRooms(sid) =>
      forall x | x in s.world.book.own && x.sid == sid ensures sid in s.world.stranded {
        assert x == Slot(x.sid, x.key);
        assert x.key in SnapshotOwned(s.world.book, sid);
      }
      assert Occurs(Tidied(s), e).world.strays == Tidied(Occurs(s, e)).world.strays;
    case _ =>
  }

  /** What a continuation without a failure keeps. */
  ghost predicate Guarded(s: State, stranded: set<Sid>) {
    && Inv(s) && Inv(Tidied(s)) && s.world.stranded == stranded
    && (forall t :: t in s.threads && s.threads[t].sid in stranded ==> s.threads[t].pc == Finished)
    && (forall slot: Slot :: slot.sid in stranded ==> !Live(s.world, slot))
  }

  lemma GuardedFirst(s: State)
    requires Inv(s) && Idle(s) && Sheltered(s.world)
    ensures Guarded(s, s.world.stranded)
  {
    IdleIsQuiet(s);
    var w := Cleaned(s.world);
    forall slot ensures Calm(w, slot) {
      assert Calm(s.world, slot);
    }
    assert Own(s.threads, w);
    forall slot: Slot | slot.sid in s.world.stranded ensures !Live(s.world, slot) {
      assert Calm(s.world, slot);
    }
  }

  /** Who acts was not finished, and keeps its session. */
  lemma StaysOut(s: State, e: Event, t: Tid)
    requires Possible(s, e) && ActedBy(e, t) && !e.Spawn?
    ensures t in s.threads && s.threads[t].pc != Finished
    ensures t in Occurs(s, e).threads && Occurs(s, e).threads[t].sid == s.threads[t].sid
  {
  }

  lemma EventGuards(s: State, e: Event, stranded: set<Sid>)
    requires Guarded(s, stranded) && Possible(s, e) && !Failure(s, e)
    ensures Guarded(Occurs(s, e), stranded)
  {
    EventCommutes(s, e);
    EventKeeps(s, e);
    EventKeeps(Tidied(s), e);
    var s' := Occurs(s, e);
    forall t | t in s'.threads && s'.threads[t].sid in stranded ensures s'.threads[t].pc == Finished {
      if !ActedBy(e, t) { OtherThreadsKept(s, e, t); } else if !e.Spawn? { StaysOut(s, e, t); }
    }
    forall slot: Slot | slot.sid in stranded ensures !Live(s'.world, slot) {
      SlotChange(s, e, slot);
    }
  }

  lemma GuardedIsSafe(s: State, stranded: set<Sid>)
    requires Guarded(s, stranded)
    ensures Safe(s.world)
  {
    forall slot | Live(s.world, slot) ensures LastIsConnect(s.world, slot.key) {
      assert Live(Tidied(s).world, slot);
      LiveIsPresent(Tidied(s), slot);
    }
  }

  ghost predicate GuardedOn(s: State, e: Event, s': State, stranded: set<Sid>) {
    Guarded(s, stranded) ==> Guarded(s', stranded)
  }

  lemma {:induction false} StaysGuarded(states: seq<State>, events: seq<Event>, i: nat, stranded: set<Sid>)
    requires |states| == |events| + 1 && i < |states| && Guarded(states[0], stranded)
    requires forall j :: 0 <= j < |events| ==> GuardedOn(states[j], events[j], states[j + 1], stranded)
    ensures Guarded(states[i], stranded)
  {
    if i > 0 {
      StaysGuarded(states, events, i - 1, stranded);
      assert GuardedOn(states[i - 1], events[i - 1], states[i - 1 + 1], stranded);
    }
  }

  lemma LeadsToSafe(s: State, to: State)
    requires Inv(s) && Idle(s) && Sheltered(s.world) && Leads(s, to, true)
    ensures Safe(to.world)
  {
    var states, events :| Continues(s, states, events) && FailureFree(states, events) && states[|states| - 1] == to;
    GuardedFirst(s);
    var stranded := s.world.stranded;
    forall j | 0 <= j < |events| ensures GuardedOn(states[j], events[j], states[j + 1], stranded) {
      assert Follows(states[j], events[j], states[j + 1]);
      if Guarded(states[j], stranded) { EventGuards(states[j], events[j], stranded); }
    }
    StaysGuarded(states, events, |states| - 1, stranded);
    GuardedIsSafe(to, s.world.stranded);
  }

  // --- Everybody else leaves the room ------------------------------------------------------

  lemma {:induction false} AboveAll(used: set<nat>) returns (n: nat)
    ensures forall m :: m in used ==> m < n
  {
    if used == {} { return 0; }
    var k :| k in used;
    n := AboveAll(used - {k});
    n := if n <= k then k + 1 else n;
    assert forall m :: m in used ==> m == k || m in used - {k};
  }

  /** The owner x is outside its room, and its connection is or can still be established. */
  ghost predicate Outside(from: State, s: State, x: Slot) {
    && Leads(from, s, true) && Inv(s) && Idle(s)
    && x in s.world.book.own && x !in s.world.rooms
    && (Live(s.world, x) || x.sid !in s.world.stranded)
  }

  /** Nothing of another session's changed. */
  ghost predicate OthersKept(w: World, w': World, sid: Sid) {
    && w'.stranded == w.stranded
    && forall x: Slot :: x.sid != sid ==> SameAt(w, w', x)
  }

  /** The disconnect of one session, running alone without a failure. */
  ghost predicate Departing(from: State, base: World, s: State, t: Tid, sid: Sid) {
    && Leads(from, s, true) && Inv(s) && OthersKept(base, s.world, sid)
    && t in s.threads && s.threads[t].sid == sid && s.threads[t].req.Disconnect?
    && (forall u :: u in s.threads && u != t ==> s.threads[u].pc == Finished)
    && CleanupOk(s.threads[t], s.world.book) && Unfailed(s, t)
  }

  /** Where it can be, and that its list is empty at the end. */
  ghost predicate Unfailed(s: State, t: Tid)
    requires t in s.threads
  {
    match s.threads[t].pc
    case Start => s.recs == map[]
    case Following => false
    case In(_, body) => body != Leaving(Aborted)
    case CloseLeaving => s.threads[t].keys == []
    case Finished => forall key :: Slot(s.threads[t].sid, key) !in s.world.book.own
    case _ => true
  }

  lemma StepUnfailed(s: State, t: Tid, c: Choice)
    requires Inv(s) && Awake(s, t) && s.threads[t].req.Disconnect? && c.ok
    requires CleanupOk(s.threads[t], s.world.book) && Unfailed(s, t)
    ensures Unfailed(Next(s, t, c), t)
  {
    assert ThreadFits(s.threads[t]);
    if s.threads[t].pc.In? { InFacts(s, t); InUnfailed(s, t, c); } else { OutsideUnfailed(s, t, c); }
  }

  lemma OutsideUnfailed(s: State, t: Tid, c: Choice)
    requires Awake(s, t) && ThreadFits(s.threads[t]) && s.threads[t].req.Disconnect? && !s.threads[t].pc.In?
    requires CleanupOk(s.threads[t], s.world.book) && Unfailed(s, t)
    ensures Unfailed(Next(s, t, c), t)
  {
  }

  lemma InUnfailed(s: State, t: Tid, c: Choice)
    requires Awake(s, t) && s.threads[t].req.Disconnect? && c.ok && s.threads[t].pc.In?
    requires BodyOk(s.world, s.threads[t].sid, s.threads[t].pc.job, s.threads[t].pc.body) && !Blocks(s.world, s.threads[t].pc.body)
    requires s.threads[t].pc.body != Leaving(Aborted) && s.threads[t].pc.job.kind == Clean
    ensures Unfailed(Next(s, t, c), t)
  {
  }

  lemma StepKeepsOthers(s: State, t: Tid, c: Choice)
    requires Inv(s) && Awake(s, t) && !Failure(s, Step(t, c))
    ensures OthersKept(s.world, Next(s, t, c).world, s.threads[t].sid)
  {
    var th := s.threads[t];
    StepCommutes(s, t, c);
    if th.pc.In? {
      InFacts(s, t);
      if !th.pc.body.Leaving? {
        BodyLocal(s.world, th.sid, th.pc.job, th.pc.body, c.ok);
        assert forall x: Slot :: x.sid != th.sid ==> x != Slot(th.sid, th.pc.job.key);
      }
    } else if th.pc == CleaningUp {
      assert CleanupResidual(s.world.book, th.sid).conn == s.world.book.conn;
    } else {
      StepShape(s, t, c);
    }
  }

  lemma DisconnectGoesOn(from: State, base: World, s: State, t: Tid, sid: Sid)
    requires Departing(from, base, s, t, sid) && s.threads[t].pc != Finished
    ensures Runs(s, t)
    ensures var s' := Next(s, t, Choice(true, []));
            Departing(from, base, s', t, sid) && Below(RankOf(s'.threads[t]), RankOf(s.threads[t]))
  {
    var u := SomebodyRuns(s, t);
    assert u == t;
    var c := Choice(true, []);
    var s' := Next(s, t, c);
    LeadStep(from, true, s, Step(t, c));
    StepKeeps(s, t, c);
    StepShape(s, t, c);
    RunAdvances(s, t, c);
    CloserStepSound(s, t, c);
    StepUnfailed(s, t, c);
    StepKeepsOthers(s, t, c);
    KeptOn(base, s.world, s'.world, sid);
  }

  lemma KeptOn(w: World, w1: World, w2: World, sid: Sid)
    requires OthersKept(w, w1, sid) && OthersKept(w1, w2, sid)
    ensures OthersKept(w, w2, sid)
  {
    forall x: Slot | x.sid != sid ensures SameAt(w, w2, x) {
      assert SameAt(w, w1, x) && SameAt(w1, w2, x);
    }
  }

  lemma {:induction false} DisconnectEnds(from: State, base: World, s: State, t: Tid, sid: Sid) returns (end: State)
    requires Departing(from, base, s, t, sid)
    ensures Departing(from, base, end, t, sid) && end.threads[t].pc == Finished
    decreases RankOf(s.threads[t]).stage, RankOf(s.threads[t]).items, RankOf(s.threads[t]).place
  {
    if s.threads[t].pc == Finished { return s; }
    DisconnectGoesOn(from, base, s, t, sid);
    end := DisconnectEnds(from, base, Next(s, t, Choice(true, [])), t, sid);
  }

  /** A session disconnects and the server forgets its rooms. */
  lemma Disconnects(from: State, s: State, x: Slot, sid: Sid) returns (s': State)
    requires Outside(from, s, x) && sid != x.sid && sid !in s.world.stranded
    ensures Outside(from, s', x) && s'.world.rooms == set r | r in s.world.rooms && r.sid != sid
  {
    var s1 := Cleared(from, s, sid);
    assert SameAt(s.world, s1.world, x);
    s' := Forgotten(from, s1, sid);
    forall r ensures r in s'.world.rooms <==> r in s.world.rooms && r.sid != sid {
      if r.sid != sid { assert SameAt(s.world, s1.world, r); }
    }
  }

  lemma Cleared(from: State, s: State, sid: Sid) returns (s1: State)
    requires Leads(from, s, true) && Inv(s) && Idle(s) && sid !in s.world.stranded
    ensures Leads(from, s1, true) && Inv(s1) && Idle(s1) && OthersKept(s.world, s1.world, sid)
    ensures Possible(s1, ForgetRooms(sid)) && s1.world.stranded == s.world.stranded
  {
    var t := AboveAll(s.threads.Keys);
    s1 := DisconnectBegins(from, s, t, sid);
    s1 := DisconnectEnds(from, s.world, s1, t, sid);
    ClearedIsIdle(from, s.world, s1, t, sid);
  }

  lemma ClearedIsIdle(from: State, base: World, s: State, t: Tid, sid: Sid)
    requires Departing(from, base, s, t, sid) && s.threads[t].pc == Finished
    ensures Idle(s) && Possible(s, ForgetRooms(sid))
  {
    IdleIsQuiet(s);
    assert SnapshotOwned(s.world.book, sid) == {};
  }

  lemma DisconnectBegins(from: State, s: State, t: Tid, sid: Sid) returns (s1: State)
    requires Leads(from, s, true) && Inv(s) && Idle(s) && sid !in s.world.stranded && t !in s.threads
    ensures Departing(from, s.world, s1, t, sid)
  {
    IdleIsQuiet(s);
    var e := Spawn(t, sid, Disconnect);
    LeadStep(from, true, s, e);
    EventKeeps(s, e);
    s1 := Occurs(s, e);
  }

  lemma Forgotten(from: State, s: State, sid: Sid) returns (s': State)
    requires Leads(from, s, true) && Inv(s) && Idle(s) && Possible(s, ForgetRooms(sid))
    ensures s' == s.(world := WithoutRooms(s.world, sid)) && Leads(from, s', true) && Inv(s') && Idle(s')
  {
    LeadStep(from, true, s, ForgetRooms(sid));
    EventKeeps(s, ForgetRooms(sid));
    s' := Occurs(s, ForgetRooms(sid));
  }

  ghost function Members(w: World, key: Key): set<Slot> {
    set x | x in w.rooms && x.key == key
  }

  lemma {:induction false} RoomEmpties(from: State, s: State, x: Slot) returns (end: State)
    requires Outside(from, s, x)
    ensures Outside(from, end, x) && Members(end.world, x.key) == {}
    decreases |Members(s.world, x.key)|
  {
    if Members(s.world, x.key) == {} { return s; }
    var m :| m in Members(s.world, x.key);
    assert m.sid != x.sid by { assert x == Slot(x.sid, x.key) && m == Slot(m.sid, m.key); }
    var s';
    if m.sid in s.world.stranded {
      IdleIsQuiet(s);
      s' := Forgotten(from, s, m.sid);
    } else {
      s' := Disconnects(from, s, x, m.sid);
    }
    FewerMembers(s.world, s'.world, m);
    end := RoomEmpties(from, s', x);
  }

  lemma FewerMembers(w: World, w': World, m: Slot)
    requires m in w.rooms && w'.rooms == set r | r in w.rooms && r.sid != m.sid
    ensures |Members(w', m.key)| < |Members(w, m.key)|
  {
    assert m in Members(w, m.key) && m !in Members(w', m.key);
    Smaller(Members(w', m.key), Members(w, m.key));
  }

  lemma Smaller(a: set<Slot>, b: set<Slot>)
    requires a < b
    ensures |a| < |b|
  {
    assert b == a + (b - a);
  }

  // --- And somebody comes and goes ------------------------------------------------------------

  lemma VisitIdle(s: State, t: Tid, sid: Sid, req: Request, w: World, from: State)
    requires Inv(from) && Idle(s) && t !in s.threads && Leads(from, Visited(s, t, sid, req, w), true)
    ensures Idle(Visited(s, t, sid, req, w)) && Inv(Visited(s, t, sid, req, w))
  {
    LeadsInv(from, Visited(s, t, sid, req, w), true);
  }

  /** The owner joins again; not being a first owner it does not enter the room. */
  lemma JoinsAgain(from: State, s: State, x: Slot) returns (s': State)
    requires Inv(from) && Outside(from, s, x) && Members(s.world, x.key) == {} && x.sid !in s.world.stranded
    ensures Outside(from, s', x) && Members(s'.world, x.key) == {} && Live(s'.world, x)
  {
    IdleIsQuiet(s);
    var t := AboveAll(s.threads.Keys);
    assert Calm(s.world, x) && x == Slot(x.sid, x.key);
    var oks, w', out := JoinPath(s.world, x.sid, x.key, Acquiring, false);
    Visit(from, true, s, t, x.sid, Join(x.key), oks, w', out);
    s' := Visited(s, t, x.sid, Join(x.key), w');
    VisitIdle(s, t, x.sid, Join(x.key), w', from);
    forall r: Slot | r.key == x.key ensures r !in w'.rooms {
      if r != x {
        assert SameAt(s.world, w', r);
        assert r !in Members(s.world, x.key);
      }
    }
  }

  ghost function Sids(slots: set<Slot>): set<Sid> {
    set x | x in slots :: x.sid
  }

  /** A session nobody has heard of. */
  lemma Stranger(s: State) returns (sid: Sid)
    ensures sid !in s.world.stranded && forall key :: Slot(sid, key) !in s.world.book.own && Slot(sid, key) !in s.world.rooms
  {
    sid := AboveAll(s.world.stranded + Sids(s.world.book.own.Keys) + Sids(s.world.rooms));
    assert forall slot :: slot in s.world.book.own.Keys ==> slot.sid in Sids(s.world.book.own.Keys);
    assert forall slot :: slot in s.world.rooms ==> slot.sid in Sids(s.world.rooms);
  }

  /** Somebody joins, is the only member, leaves, and so disconnects the target. */
  lemma ComesAndGoes(from: State, s: State, x: Slot) returns (end: State)
    requires Inv(from) && Outside(from, s, x) && Members(s.world, x.key) == {} && Live(s.world, x)
    ensures Leads(from, end, true) && Live(end.world, x) && !LastIsConnect(end.world, x.key)
  {
    IdleIsQuiet(s);
    var y := Stranger(s);
    var slot := Slot(y, x.key);
    var t := AboveAll(s.threads.Keys);
    assert Calm(s.world, slot);
    var oks, w1, out := JoinPath(s.world, y, x.key, Acquiring, true);
    Visit(from, true, s, t, y, Join(x.key), oks, w1, out);
    var s1 := Visited(s, t, y, Join(x.key), w1);
    VisitIdle(s, t, y, Join(x.key), w1, from);
    forall r: Slot | r != slot && r.key == x.key ensures r !in w1.rooms {
      assert SameAt(s.world, w1, r);
      assert r !in Members(s.world, x.key);
    }
    assert SameAt(s.world, w1, x);
    end := LeavesEmptyRoom(from, s1, x, y);
  }

  lemma LeavesEmptyRoom(from: State, s: State, x: Slot, y: Sid) returns (end: State)
    requires Inv(from) && Leads(from, s, true) && Inv(s) && Idle(s) && Live(s.world, x) && y != x.sid && y !in s.world.stranded
    requires var slot := Slot(y, x.key);
             slot in s.world.rooms && OnlyMember(s.world, slot) && Owners(s.world.book, slot) == {Individual}
    ensures Leads(from, end, true) && Live(end.world, x) && !LastIsConnect(end.world, x.key)
  {
    IdleIsQuiet(s);
    var t := AboveAll(s.threads.Keys);
    assert Calm(s.world, Slot(y, x.key));
    var oks, w', out := LeavePath(s.world, y, x.key, CheckingRoom);
    Visit(from, true, s, t, y, Leave(x.key), oks, w', out);
    end := Visited(s, t, y, Leave(x.key), w');
    assert SameAt(s.world, w', x);
  }

  /** An owner outside its room: some continuation without a failure disconnects the
      target under an established session. */
  lemma OutsideBreaksIt(from: State, s: State, x: Slot) returns (end: State)
    requires Inv(from) && Outside(from, s, x)
    ensures Leads(from, end, true) && Live(end.world, x) && !LastIsConnect(end.world, x.key)
  {
    var s1 := RoomEmpties(from, s, x);
    if !Live(s1.world, x) { s1 := JoinsAgain(from, s1, x); }
    end := ComesAndGoes(from, s1, x);
  }

  lemma UnshelteredBreaks(s: State)
    requires Inv(s) && Idle(s) && !Sheltered(s.world)
    ensures exists to :: Leads(s, to, true) && !Safe(to.world)
  {
    IdleIsQuiet(s);
    LeadsSelf(s, true);
    var x :| x in s.world.book.own && !(if x.sid in s.world.stranded then !Live(s.world, x) else x in s.world.rooms);
    var s1 := s;
    if x in s.world.rooms { s1 := Forgotten(s, s, x.sid); }
    var end := OutsideBreaksIt(s, s1, x);
    assert !Safe(end.world);
  }

  /** When no handler is at work: every continuation in which no individual join_room and no
      disconnect's leave_room raises keeps every established connection the last thing
      published, exactly when all owners are sheltered. */
  lemma KeepsExactly(s: State)
    requires Reachable(s) && Idle(s)
    ensures (forall to :: Leads(s, to, true) ==> Safe(to.world)) <==> Sheltered(s.world)
  {
    ReachableInv(s);
    if Sheltered(s.world) {
      forall to | Leads(s, to, true) ensures Safe(to.world) { LeadsToSafe(s, to); }
    } else {
      UnshelteredBreaks(s);
    }
  }

  // --- Runs that show it ---------------------------------------------------------------------

  lemma InitialIdle()
    ensures Reachable(INITIAL) && Inv(INITIAL) && Idle(INITIAL)
  {
    LeadsSelf(INITIAL, false);
    InitialInv();
  }

  /** A session joins a target it does not own, and everything goes well. */
  lemma JoinsFirst(from: State, s: State, slot: Slot) returns (s': State)
    requires Inv(from) && Leads(from, s, true) && Inv(s) && Idle(s)
    requires slot !in s.world.book.own && slot.sid !in s.world.stranded
    ensures Leads(from, s', true) && Inv(s') && Idle(s') && Live(s'.world, slot) && Joined(s'.world, slot, true)
    ensures Goes(s.world, s'.world, slot)
  {
    IdleIsQuiet(s);
    var t := AboveAll(s.threads.Keys);
    assert Calm(s.world, slot) && slot == Slot(slot.sid, slot.key);
    var oks, w', out := JoinPath(s.world, slot.sid, slot.key, Acquiring, true);
    Visit(from, true, s, t, slot.sid, Join(slot.key), oks, w', out);
    s' := Visited(s, t, slot.sid, Join(slot.key), w');
    VisitIdle(s, t, slot.sid, Join(slot.key), w', from);
  }

  /** Connections do get established, without any failure and without straying. */
  lemma JoinsEstablish(slot: Slot)
    ensures exists states: seq<State>, events: seq<Event> :: Establishes(states, events, slot)
  {
    InitialIdle();
    LeadsSelf(INITIAL, true);
    var s := JoinsFirst(INITIAL, INITIAL, slot);
    var states: seq<State>, events: seq<Event> :|
      Continues(INITIAL, states, events) && FailureFree(states, events) && states[|states| - 1] == s;
    NotStrayed(states, events, slot);
    assert Establishes(states, events, slot);
  }

  ghost predicate Establishes(states: seq<State>, events: seq<Event>, slot: Slot) {
    && Run(states, events) && FailureFree(states, events) && !Strayed(states, events, |states| - 1, slot)
    && Live(states[|states| - 1].world, slot)
  }

  lemma NotStrayed(states: seq<State>, events: seq<Event>, slot: Slot)
    requires Continues(INITIAL, states, events) && slot !in states[|states| - 1].world.strays
    ensures Run(states, events) && !Strayed(states, events, |states| - 1, slot)
  {
    assert Run(states, events);
    StrayExactly(states, events, |states| - 1, slot);
  }

  lemma FailurePath(slot: Slot)
    ensures BodyPath(INITIAL.world, slot.sid, Job(Add, Individual, slot.key), Acquiring, [true, false],
                     INITIAL.world.(book := Book(map[slot := {Individual}], map[]), strays := {slot}), Nothing)
  {
    var w, job := INITIAL.world, Job(Add, Individual, slot.key);
    assert slot == Slot(slot.sid, slot.key);
    var w1 := w.(book := Book(map[slot := {Individual}], map[]));
    assert Owners(w.book, slot) + {Individual} == {Individual};
    assert BodyNext(w, slot.sid, job, Acquiring, true) == (w1, JoiningRoom(Acquire(w.book, slot, Individual).1));
    assert w1.strays + {slot} == {slot};
    assert [true, false][1..] == [false] && [false][1..] == [];
    var w2 := w1.(strays := {slot});
    assert BodyPath(w2, slot.sid, job, Leaving(Nothing), [], w2, Nothing);
    assert BodyPath(w1, slot.sid, job, JoiningRoom(Acquire(w.book, slot, Individual).1), [false], w2, Nothing);
  }

  /** One individual join_room that raises is enough: it leaves an owner outside its room,
      and a later run without any failure disconnects the target under an established
      session. */
  lemma RoomFailureBreaksIt(slot: Slot)
    ensures exists s, to :: Reachable(s) && Idle(s) && !Sheltered(s.world) && Leads(s, to, true) && !Safe(to.world)
  {
    InitialIdle();
    FailurePath(slot);
    var w := INITIAL.world.(book := Book(map[slot := {Individual}], map[]), strays := {slot});
    Visit(INITIAL, false, INITIAL, 0, slot.sid, Join(slot.key), [true, false], w, Nothing);
    var s := Visited(INITIAL, 0, slot.sid, Join(slot.key), w);
    ReachableInv(s);
    assert slot in s.world.book.own && slot !in s.world.rooms;
    UnshelteredBreaks(s);
  }

  lemma ReachStep(s: State, e: Event) returns (s': State)
    requires Reachable(s) && Inv(s) && Possible(s, e)
    ensures s' == Occurs(s, e) && Reachable(s') && Inv(s')
  {
    LeadStep(INITIAL, false, s, e);
    EventKeeps(s, e);
    s' := Occurs(s, e);
  }

  /** A disconnect handler with nothing else going on. */
  ghost predicate OnItsOwn(s: State, t: Tid, sid: Sid, w: World) {
    && t in s.threads && t !in s.asleep && s.threads[t].sid == sid && s.threads[t].req == Disconnect
    && s.world == w
  }

  lemma Plans(s: State, t: Tid, sid: Sid, order: seq<Key>)
    requires OnItsOwn(s, t, sid, s.world) && s.threads[t].pc == Start && s.recs == map[] && s.targetQ == map[]
    ensures var s' := Next(s, t, Choice(true, order));
            OnItsOwn(s', t, sid, s.world) && s'.threads[t].pc == CleanPlanning && s'.targetQ == map[]
  {
  }

  lemma Enters(s: State, t: Tid, sid: Sid, order: seq<Key>)
    requires OnItsOwn(s, t, sid, s.world) && s.threads[t].pc == CleaningUp && s.targetQ == map[]
    requires s.threads[t].keys == order && order != []
    ensures var s' := Next(s, t, Choice(true, order));
            OnItsOwn(s', t, sid, s.world) && s'.threads[t].keys == order[1..]
            && s'.threads[t].pc == In(Job(Clean, Individual, order[0]), Clearing)
  {
    assert QueueOf(s.targetQ, order[0]) + [t] == [t];
  }

  /** The handler about to clean the first of its targets. */
  lemma CleanupBegins(s: State, t: Tid, sid: Sid, order: seq<Key>) returns (s': State)
    requires Reachable(s) && Inv(s) && Idle(s) && sid !in s.world.stranded && t !in s.threads
    requires Lists(order, SnapshotOwned(s.world.book, sid)) && order != []
    ensures Reachable(s') && Inv(s') && OnItsOwn(s', t, sid, s.world)
    ensures s'.threads[t].keys == order[1..] && s'.threads[t].pc == In(Job(Clean, Individual, order[0]), Clearing)
  {
    s' := CleanupPlans(s, t, sid, order);
    Takes(s', t, sid, order);
    s' := ReachStep(s', Step(t, Choice(true, order)));
    Enters(s', t, sid, order);
    s' := ReachStep(s', Step(t, Choice(true, order)));
  }

  lemma Takes(s: State, t: Tid, sid: Sid, order: seq<Key>)
    requires OnItsOwn(s, t, sid, s.world) && s.threads[t].pc == CleanPlanning && s.targetQ == map[]
    requires Lists(order, SnapshotOwned(s.world.book, sid))
    ensures var s' := Next(s, t, Choice(true, order));
            OnItsOwn(s', t, sid, s.world) && s'.threads[t].pc == CleaningUp && s'.threads[t].keys == order && s'.targetQ == map[]
  {
  }

  lemma CleanupPlans(s: State, t: Tid, sid: Sid, order: seq<Key>) returns (s': State)
    requires Reachable(s) && Inv(s) && Idle(s) && sid !in s.world.stranded && t !in s.threads
    ensures Reachable(s') && Inv(s') && OnItsOwn(s', t, sid, s.world) && s'.threads[t].pc == CleanPlanning && s'.targetQ == map[]
  {
    IdleIsQuiet(s);
    s' := ReachStep(s, Spawn(t, sid, Disconnect));
    Plans(s', t, sid, order);
    s' := ReachStep(s', Step(t, Choice(true, order)));
  }

  /** It clears the first target, its leave_room raises, and it gives up. */
  lemma GivesUp(s: State, t: Tid, sid: Sid, key: Key, left: Slot)
    requires OnItsOwn(s, t, sid, s.world) && s.threads[t].pc == In(Job(Clean, Individual, key), Clearing)
    requires Owners(s.world.book, Slot(sid, key)) != {} && left in s.world.book.own && left != Slot(sid, key)
    ensures var s1 := Next(s, t, Choice(true, []));
            OnItsOwn(s1, t, sid, s1.world) && s1.threads[t].pc == In(Job(Clean, Individual, key), LeavingRoom)
            && left in s1.world.book.own
  {
  }

  lemma Raises(s: State, t: Tid, sid: Sid, key: Key)
    requires OnItsOwn(s, t, sid, s.world) && s.threads[t].pc == In(Job(Clean, Individual, key), LeavingRoom)
    ensures var s1 := Next(s, t, Choice(false, []));
            OnItsOwn(s1, t, sid, s1.world) && s1.threads[t].pc == In(Job(Clean, Individual, key), Leaving(Aborted))
            && s1.world.book == s.world.book
  {
  }

  /** From any idle state: a session that owns two targets disconnects, its leave_room
      raises at the first, and it goes on owning the other. */
  lemma LeavesOneBehind(s: State, sid: Sid, order: seq<Key>) returns (s': State, t: Tid)
    requires Reachable(s) && Idle(s) && sid !in s.world.stranded
    requires Lists(order, SnapshotOwned(s.world.book, sid)) && |order| >= 2
    ensures Reachable(s') && t in s'.threads && s'.threads[t].pc == CloseLeaving && s'.threads[t].sid == sid
    ensures Slot(sid, order[1]) in s'.world.book.own
  {
    ReachableInv(s);
    t := AboveAll(s.threads.Keys);
    s' := CleanupBegins(s, t, sid, order);
    assert order[0] in order && order[1] in order;
    s' := LeavesRest(s', t, sid, order[0], Slot(sid, order[1]));
  }

  lemma LeavesRest(s: State, t: Tid, sid: Sid, key: Key, left: Slot) returns (s': State)
    requires Reachable(s) && Inv(s) && OnItsOwn(s, t, sid, s.world)
    requires s.threads[t].pc == In(Job(Clean, Individual, key), Clearing)
    requires Slot(sid, key) in s.world.book.own && left in s.world.book.own && left != Slot(sid, key)
    ensures Reachable(s') && t in s'.threads && s'.threads[t].pc == CloseLeaving && s'.threads[t].sid == sid
    ensures left in s'.world.book.own
  {
    GivesUp(s, t, sid, key, left);
    s' := ReachStep(s, Step(t, Choice(true, [])));
    Raises(s', t, sid, key);
    s' := ReachStep(s', Step(t, Choice(false, [])));
    Ends(s', t, sid, key);
    s' := ReachStep(s', Step(t, Choice(true, [])));
  }

  lemma Ends(s: State, t: Tid, sid: Sid, key: Key)
    requires OnItsOwn(s, t, sid, s.world) && s.threads[t].pc == In(Job(Clean, Individual, key), Leaving(Aborted))
    ensures var s' := Next(s, t, Choice(true, []));
            t in s'.threads && s'.threads[t].pc == CloseLeaving && s'.threads[t].sid == sid && s'.world == s.world
  {
  }

  /** There is such a state: a session joined two targets. */
  lemma TwoTargets(sid: Sid, a: Key, b: Key) returns (s: State)
    requires a != b
    ensures Reachable(s) && Idle(s) && s.world.stranded == {} && Lists([a, b], SnapshotOwned(s.world.book, sid))
  {
    InitialIdle();
    LeadsSelf(INITIAL, true);
    var s1 := JoinsFirst(INITIAL, INITIAL, Slot(sid, a));
    assert SameAt(INITIAL.world, s1.world, Slot(sid, b));
    s := JoinsFirst(INITIAL, s1, Slot(sid, b));
    ReachesOn(INITIAL, s, true);
    OwnsBoth(s1.world, s.world, sid, a, b);
  }

  lemma OwnsBoth(w1: World, w: World, sid: Sid, a: Key, b: Key)
    requires a != b && Goes(INITIAL.world, w1, Slot(sid, a)) && Goes(w1, w, Slot(sid, b))
    requires Slot(sid, a) in w1.book.own && Slot(sid, b) in w.book.own
    ensures Lists([a, b], SnapshotOwned(w.book, sid))
  {
    forall k ensures k in [a, b] <==> k in SnapshotOwned(w.book, sid) {
      if k != b {
        assert SameAt(w1, w, Slot(sid, k));
        if k != a { assert SameAt(INITIAL.world, w1, Slot(sid, k)); }
      }
    }
  }
}
