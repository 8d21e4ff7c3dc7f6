/** Runs put together from whole requests. */
module RconVisits {
  import opened Options
  import opened RconTypes
  import opened RconOwnership
  import opened FifoGate
  import opened SidLifecycle
  import opened RconProtocol
  import opened RconBody
  import opened RconInvariant
  import opened RconSteps
  import opened RconFrames
  import opened RconProgress

  /** An individual handler's join_room or a disconnect handler's leave_room raises. */
  ghost predicate Failure(s: State, e: Event) {
    && e.Step? && e.t in s.threads && s.threads[e.t].pc.In? && !e.c.ok
    && var job, body := s.threads[e.t].pc.job, s.threads[e.t].pc.body;
       (body.JoiningRoom? && job.owner == Individual) || (body.LeavingRoom? && job.kind == Clean)
  }

  ghost predicate Continues(from: State, states: seq<State>, events: seq<Event>) {
    && |states| == |events| + 1 && states[0] == from
    && forall i {:trigger events[i]} :: 0 <= i < |events| ==> Follows(states[i], events[i], states[i + 1])
  }

  ghost predicate FailureFree(states: seq<State>, events: seq<Event>)
    requires |states| == |events| + 1
  {
    forall i {:trigger events[i]} :: 0 <= i < |events| ==> !Failure(states[i], events[i])
  }

  /** Some run, without such a failure if that is asked for, goes from one to the other. */
  ghost predicate Leads(from: State, to: State, strict: bool) {
    exists states, events :: Continues(from, states, events) && (strict ==> FailureFree(states, events))
                             && states[|states| - 1] == to
  }

  ghost predicate Reachable(s: State) {
    Leads(INITIAL, s, false)
  }

  lemma LeadsSelf(s: State, strict: bool)
    ensures Leads(s, s, strict)
  {
    assert Continues(s, [s], []) && FailureFree([s], []);
    assert [s][|[s]| - 1] == s;
  }

  lemma LeadStep(from: State, strict: bool, s: State, e: Event)
    requires Leads(from, s, strict) && Possible(s, e) && (strict ==> !Failure(s, e))
    ensures Leads(from, Occurs(s, e), strict)
  {
    var states, events :| Continues(from, states, events) && (strict ==> FailureFree(states, events))
                          && states[|states| - 1] == s;
    var states', events' := states + [Occurs(s, e)], events + [e];
    assert Continues(from, states', events');
    assert strict ==> FailureFree(states', events');
    assert states'[|states'| - 1] == Occurs(s, e);
  }

  lemma LeadsInv(from: State, s: State, strict: bool)
    requires Leads(from, s, strict) && Inv(from)
    ensures Inv(s)
  {
    var states, events :| Continues(from, states, events) && states[|states| - 1] == s;
    ContinuesInv(from, states, events, |states| - 1);
  }

  lemma {:induction false} ContinuesInv(from: State, states: seq<State>, events: seq<Event>, i: nat)
    requires Continues(from, states, events) && i < |states| && Inv(from)
    ensures Inv(states[i])
  {
    if i > 0 {
      ContinuesInv(from, states, events, i - 1);
      EventKeeps(states[i - 1], events[i - 1]);
    }
  }

  lemma ReachableInv(s: State)
    requires Reachable(s)
    ensures Inv(s)
  {
    InitialInv();
    LeadsInv(INITIAL, s, false);
  }

  lemma ReachesOn(s: State, to: State, strict: bool)
    requires Reachable(s) && Leads(s, to, strict)
    ensures Reachable(to)
  {
    var states, events :| Continues(INITIAL, states, events) && states[|states| - 1] == s;
    var more, events' :| Continues(s, more, events') && more[|more| - 1] == to;
    var all := states + more[1..];
    assert forall i :: 0 <= i < |more| ==> all[|events| + i] == more[i];
    forall i | 0 <= i < |events + events'| ensures Follows(all[i], (events + events')[i], all[i + 1]) {
      if i >= |events| { assert Follows(more[i - |events|], events'[i - |events|], more[i - |events| + 1]); }
      else { assert Follows(states[i], events[i], states[i + 1]); }
    }
    assert Continues(INITIAL, all, events + events');
    assert all[|all| - 1] == to;
  }

  /** The body of a gate visit, step by step, with these outside answers. */
  ghost predicate BodyPath(w: World, sid: Sid, job: Job, body: Body, oks: seq<bool>, w': World, out: Outcome)
    decreases |oks|
  {
    if oks == [] then w == w' && body == Leaving(out)
    else
      !body.Leaving? && !Blocks(w, body)
      && var (w1, body1) := BodyNext(w, sid, job, body, oks[0]);
         BodyPath(w1, sid, job, body1, oks[1..], w', out)
  }

  predicate AllWell(oks: seq<bool>) {
    forall i :: 0 <= i < |oks| ==> oks[i]
  }

  ghost predicate Alone(s: State, t: Tid, sid: Sid, key: Key) {
    t !in s.threads && sid !in s.recs && key !in s.targetQ && s.asleep == {}
  }

  function InBody(s: State, t: Tid, sid: Sid, req: Request, job: Job, body: Body): State {
    s.(threads := s.threads[t := Thread(sid, req, In(job, body), s.nextRec, [], {}, {}, [], [])],
       recs := s.recs[sid := Rec(s.nextRec, 1, false)], nextRec := s.nextRec + 1,
       targetQ := s.targetQ[job.key := [t]])
  }

  function Visited(s: State, t: Tid, sid: Sid, req: Request, w: World): State {
    s.(threads := s.threads[t := Thread(sid, req, Finished, s.nextRec, [], {}, {}, [], [])],
       nextRec := s.nextRec + 1, world := w)
  }

  function JobOf(req: Request): Job
    requires req.Join? || req.Leave?
  {
    if req.Join? then Job(Add, Individual, req.key) else Job(Drop, Individual, req.key)
  }

  /** Dispatched, registered and about to pass authentication. */
  function AtDoor(s: State, t: Tid, sid: Sid, req: Request): State {
    s.(threads := s.threads[t := Thread(sid, req, Admitted, s.nextRec, [], {}, {}, [], [])],
       recs := s.recs[sid := Rec(s.nextRec, 1, false)], nextRec := s.nextRec + 1)
  }

  lemma VisitStarts(from: State, strict: bool, s: State, t: Tid, sid: Sid, req: Request)
    requires Leads(from, s, strict) && (req.Join? || req.Leave?) && Alone(s, t, sid, req.key)
    requires sid !in s.world.stranded
    ensures Leads(from, AtDoor(s, t, sid, req), strict)
  {
    LeadStep(from, strict, s, Spawn(t, sid, req));
    var s1 := Occurs(s, Spawn(t, sid, req));
    LeadStep(from, strict, s1, Step(t, Choice(true, [])));
    var s2 := Occurs(s1, Step(t, Choice(true, [])));
    assert s2.threads == AtDoor(s, t, sid, req).threads;
    assert s2 == AtDoor(s, t, sid, req);
  }

  lemma VisitEnters(from: State, strict: bool, s: State, t: Tid, sid: Sid, req: Request)
    requires Leads(from, s, strict) && (req.Join? || req.Leave?) && Alone(s, t, sid, req.key)
    requires sid !in s.world.stranded
    ensures Leads(from, InBody(s, t, sid, req, JobOf(req), First(JobOf(req))), strict)
  {
    var job := JobOf(req);
    VisitStarts(from, strict, s, t, sid, req);
    var s2 := AtDoor(s, t, sid, req);
    LeadStep(from, strict, s2, Step(t, Choice(true, [])));
    DoorOpens(s, t, sid, req);
  }

  lemma DoorOpens(s: State, t: Tid, sid: Sid, req: Request)
    requires (req.Join? || req.Leave?) && Alone(s, t, sid, req.key)
    ensures var s2 := AtDoor(s, t, sid, req);
            AdmittedNext(s2, t, s2.threads[t], true) == InBody(s, t, sid, req, JobOf(req), First(JobOf(req)))
  {
    var job := JobOf(req);
    var s2 := AtDoor(s, t, sid, req);
    var s3 := ArriveTarget(s2, t, s2.threads[t], job);
    assert QueueOf(s2.targetQ, job.key) + [t] == [t];
    assert s3.threads == InBody(s, t, sid, req, job, First(job)).threads;
    assert s3 == InBody(s, t, sid, req, job, First(job));
  }

  lemma {:induction false} VisitRuns(from: State, strict: bool, s: State, t: Tid, sid: Sid, req: Request, job: Job, body: Body,
                                     oks: seq<bool>, w': World, out: Outcome)
    requires s.asleep == {} && Leads(from, InBody(s, t, sid, req, job, body), strict)
    requires BodyPath(s.world, sid, job, body, oks, w', out)
    requires strict ==> AllWell(oks)
    ensures Leads(from, InBody(s.(world := w'), t, sid, req, job, Leaving(out)), strict)
    decreases |oks|
  {
    if oks == [] {
      assert s.(world := w') == s;
    } else {
      var at := InBody(s, t, sid, req, job, body);
      var (w1, body1) := BodyNext(s.world, sid, job, body, oks[0]);
      var e := Step(t, Choice(oks[0], []));
      LeadStep(from, strict, at, e);
      var s1 := s.(world := w1);
      assert Occurs(at, e).threads == InBody(s1, t, sid, req, job, body1).threads;
      assert Occurs(at, e) == InBody(s1, t, sid, req, job, body1);
      VisitRuns(from, strict, s1, t, sid, req, job, body1, oks[1..], w', out);
      assert s1.(world := w') == s.(world := w');
    }
  }

  lemma VisitLeaves(from: State, strict: bool, s: State, t: Tid, sid: Sid, req: Request, job: Job, out: Outcome)
    requires (req.Join? || req.Leave?) && job == JobOf(req) && Alone(s, t, sid, req.key)
    requires Leads(from, InBody(s, t, sid, req, job, Leaving(out)), strict)
    ensures Leads(from, Visited(s, t, sid, req, s.world), strict)
  {
    var c := Choice(true, []);
    var at := InBody(s, t, sid, req, job, Leaving(out));
    LeadStep(from, strict, at, Step(t, c));
    var s1 := Occurs(at, Step(t, c));
    assert QueueOf(at.targetQ, job.key) == [t] && Without([t], t) == [];
    assert s1.targetQ == s.targetQ;
    assert s1.threads[t] == Thread(sid, req, OpLeaving, s.nextRec, [], {}, {}, [], []);
    LeadStep(from, strict, s1, Step(t, c));
    var s2 := Occurs(s1, Step(t, c));
    assert s2.recs == s.recs;
    assert s2.threads == Visited(s, t, sid, req, s.world).threads;
    assert s2.asleep == {};
    assert s2 == Visited(s, t, sid, req, s.world);
  }

  /** A whole request of one session, run while nothing else is going on. */
  lemma Visit(from: State, strict: bool, s: State, t: Tid, sid: Sid, req: Request, oks: seq<bool>, w': World, out: Outcome)
    requires Leads(from, s, strict) && (req.Join? || req.Leave?) && Alone(s, t, sid, req.key)
    requires BodyPath(s.world, sid, JobOf(req), First(JobOf(req)), oks, w', out)
    requires sid !in s.world.stranded && (strict ==> AllWell(oks))
    ensures Leads(from, Visited(s, t, sid, req, w'), strict)
  {
    var job := JobOf(req);
    VisitEnters(from, strict, s, t, sid, req);
    VisitRuns(from, strict, s, t, sid, req, job, First(job), oks, w', out);
    VisitLeaves(from, strict, s.(world := w'), t, sid, req, job, out);
    assert Visited(s.(world := w'), t, sid, req, w') == Visited(s, t, sid, req, w');
  }

  // --- Bodies that go well -----------------------------------------------------------------

  /** From one world to the next, of what others can see only the slot differs. */
  ghost predicate Goes(w: World, w': World, slot: Slot) {
    OnlySlot(w, w', slot) && BookOk(w'.book) && w'.stranded == w.stranded
  }

  lemma GoesOn(w: World, w1: World, w2: World, slot: Slot)
    requires Goes(w, w1, slot) && Goes(w1, w2, slot)
    ensures Goes(w, w2, slot)
  {
    forall x | x != slot ensures SameAt(w, w2, x) {
      assert SameAt(w, w1, x) && SameAt(w1, w2, x);
    }
  }

  lemma StepGoes(w: World, sid: Sid, job: Job, body: Body)
    requires BodyOk(w, sid, job, body) && BookOk(w.book) && !body.Leaving?
    ensures var (w', body') := BodyNext(w, sid, job, body, true);
            Goes(w, w', Slot(sid, job.key)) && BodyOk(w', sid, job, body') && BodyRank(body') < BodyRank(body)
    ensures !Blocks(w, body)
  {
    BodyLocal(w, sid, job, body, true);
    BodyOwn(w, sid, job, body, true);
    BodyKeepsBook(w, sid, job, body, true);
    BodyAdvances(w, sid, job, body, true);
    NeverStaleNeverBlocked(w, sid, job, body);
    StrandedStays(w, sid, job, body);
  }

  lemma StrandedStays(w: World, sid: Sid, job: Job, body: Body)
    ensures BodyNext(w, sid, job, body, true).0.stranded == w.stranded
  {
  }

  /** A join on its way to an established connection; `inside` says whether it enters the
      room, as the first owner, or was an owner outside it. */
  ghost predicate JoinsWell(w: World, slot: Slot, body: Body, inside: bool) {
    match body
    case Acquiring => if inside then slot !in w.book.own else slot in w.book.own && slot !in w.rooms
    case JoiningRoom(_) => inside
    case Beginning(_) => Joined(w, slot, inside)
    case Publishing(_, _) => Joined(w, slot, inside)
    case Completing(_, _, sent) => sent && Joined(w, slot, inside)
    case Leaving(_) => Live(w, slot) && Joined(w, slot, inside)
    case _ => false
  }

  ghost predicate Joined(w: World, slot: Slot, inside: bool) {
    && slot in w.book.own && (slot in w.rooms <==> inside)
    && (inside ==> Owners(w.book, slot) == {Individual} && slot !in w.strays)
  }

  lemma JoinStep(w: World, sid: Sid, key: Key, body: Body, inside: bool)
    requires BodyOk(w, sid, Job(Add, Individual, key), body) && BookOk(w.book) && !body.Leaving?
    requires JoinsWell(w, Slot(sid, key), body, inside)
    ensures var (w', body') := BodyNext(w, sid, Job(Add, Individual, key), body, true);
            JoinsWell(w', Slot(sid, key), body', inside)
  {
  }

  lemma {:induction false} JoinPath(w: World, sid: Sid, key: Key, body: Body, inside: bool)
    returns (oks: seq<bool>, w': World, out: Outcome)
    requires BodyOk(w, sid, Job(Add, Individual, key), body) && BookOk(w.book)
    requires JoinsWell(w, Slot(sid, key), body, inside)
    ensures BodyPath(w, sid, Job(Add, Individual, key), body, oks, w', out) && AllWell(oks)
    ensures Goes(w, w', Slot(sid, key)) && Live(w', Slot(sid, key)) && Joined(w', Slot(sid, key), inside)
    decreases BodyRank(body)
  {
    var job := Job(Add, Individual, key);
    if body.Leaving? { return [], w, body.outcome; }
    StepGoes(w, sid, job, body);
    JoinStep(w, sid, key, body, inside);
    var (w1, body1) := BodyNext(w, sid, job, body, true);
    var more;
    more, w', out := JoinPath(w1, sid, key, body1, inside);
    oks := [true] + more;
    assert oks[1..] == more;
    GoesOn(w, w1, w', Slot(sid, key));
  }

  /** A leave on its way to the disconnect of a target whose room has no other member. */
  ghost predicate LeavesWell(w: World, slot: Slot, body: Body) {
    match body
    case CheckingRoom => slot in w.rooms && OnlyMember(w, slot) && Owners(w.book, slot) == {Individual}
    case CheckingOwner => OnlyMember(w, slot) && Owners(w.book, slot) == {Individual}
    case Releasing => OnlyMember(w, slot) && Owners(w.book, slot) == {Individual}
    case LeavingRoom => OnlyMember(w, slot)
    case Counting(excluding, _) => !excluding && RoomEmpty(w, slot.sid, slot.key, false)
    case Disconnecting(_) => true
    case Leaving(_) => !LastIsConnect(w, slot.key)
    case _ => false
  }

  ghost predicate OnlyMember(w: World, slot: Slot) {
    forall x :: x in w.rooms && x.key == slot.key ==> x == slot
  }

  lemma LeaveStep(w: World, sid: Sid, key: Key, body: Body)
    requires BodyOk(w, sid, Job(Drop, Individual, key), body) && BookOk(w.book) && !body.Leaving?
    requires LeavesWell(w, Slot(sid, key), body)
    ensures var (w', body') := BodyNext(w, sid, Job(Drop, Individual, key), body, true);
            LeavesWell(w', Slot(sid, key), body')
  {
    assert body == Releasing ==> Owners(w.book, Slot(sid, key)) - {Individual} == {};
  }

  lemma {:induction false} LeavePath(w: World, sid: Sid, key: Key, body: Body)
    returns (oks: seq<bool>, w': World, out: Outcome)
    requires BodyOk(w, sid, Job(Drop, Individual, key), body) && BookOk(w.book)
    requires LeavesWell(w, Slot(sid, key), body)
    ensures BodyPath(w, sid, Job(Drop, Individual, key), body, oks, w', out) && AllWell(oks)
    ensures Goes(w, w', Slot(sid, key)) && !LastIsConnect(w', key)
    decreases BodyRank(body)
  {
    var job := Job(Drop, Individual, key);
    if body.Leaving? { return [], w, body.outcome; }
    StepGoes(w, sid, job, body);
    LeaveStep(w, sid, key, body);
    var (w1, body1) := BodyNext(w, sid, job, body, true);
    var more;
    more, w', out := LeavePath(w1, sid, key, body1);
    oks := [true] + more;
    assert oks[1..] == more;
    GoesOn(w, w1, w', Slot(sid, key));
  }
}
