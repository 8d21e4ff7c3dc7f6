/** What a disconnect leaves behind: nothing, unless a leave_room of its own raised. */
module RconCleanup {
  import opened RconTypes
  import opened RconOwnership
  import opened FifoGate
  import opened SidLifecycle
  import opened RconProtocol
  import opened RconBody
  import opened RconInvariant
  import opened RconSteps
  import opened RconFrames

  /** The targets a closer has not cleaned yet. */
  ghost predicate Uncleaned(th: Thread, key: Key) {
    match th.pc
    case CloseLeaving => key in th.keys
    case AtGate(job) => key in th.keys || key == job.key
    case In(job, body) => key in th.keys || (key == job.key && body == Clearing)
    case CleaningUp => key in th.keys
    case _ => true
  }

  /** The closer has its list of targets. */
  predicate Cleaning(th: Thread) {
    th.pc == CloseLeaving || th.pc.AtGate? || th.pc.In? || th.pc == CleaningUp
  }

  /** Listed is what is still owned, each target once, the one at hand apart. */
  ghost predicate ListOk(th: Thread, book: Book) {
    && (forall key :: key in th.keys ==> Slot(th.sid, key) in book.own)
    && (forall i, j :: 0 <= i < j < |th.keys| ==> th.keys[i] != th.keys[j])
    && (th.pc.AtGate? ==> th.pc.job.key !in th.keys)
    && (th.pc.In? ==> th.pc.job.key !in th.keys)
  }

  ghost predicate CleanupOk(th: Thread, book: Book) {
    IsCloser(th) ==>
      && (forall key :: Slot(th.sid, key) in book.own ==> Uncleaned(th, key))
      && (Cleaning(th) ==> ListOk(th, book))
  }

  ghost predicate CleanupSound(threads: Threads, book: Book) {
    forall t :: t in threads ==> CleanupOk(threads[t], book)
  }

  lemma NoOpsPastDrain(threads: Threads, recs: Records, t: Tid, sid: Sid)
    requires OpsCounted(threads, recs) && OneCloser(threads, recs)
    requires CloserOf(threads, t, sid) && threads[t].pc != Draining
    ensures Ops(threads, sid) == {}
  {
  }

  /** Nobody but the closer works on the slots of a session past its drain. */
  lemma OnlyTheCloser(s: State, t: Tid, u: Tid, slot: Slot)
    requires Inv(s) && CloserOf(s.threads, t, slot.sid) && s.threads[t].pc != Draining
    requires WorksOn(s.threads, u, slot)
    ensures u == t
  {
    NoOpsPastDrain(s.threads, s.recs, t, slot.sid);
    assert u !in Ops(s.threads, slot.sid);
    assert ThreadFits(s.threads[u]);
    assert CloserOf(s.threads, u, slot.sid);
  }

  lemma CloserBodyCleans(w: World, sid: Sid, job: Job, body: Body, ok: bool)
    requires BodyOk(w, sid, job, body) && job.kind == Clean && !body.Leaving?
    ensures var (w', body') := BodyNext(w, sid, job, body, ok);
            body' != Clearing && Slot(sid, job.key) !in w'.book.own
  {
  }

  /** The bookkeeping of a session's other targets. */
  ghost predicate OthersSame(book: Book, book': Book, sid: Sid, key: Key) {
    forall k :: k != key ==> SameSlot(book, book', Slot(sid, k))
  }

  lemma OthersStay(th: Thread, book: Book, th': Thread, book': Book, key: Key)
    requires ListOk(th, book) && OthersSame(book, book', th.sid, key) && key !in th.keys
    requires th'.sid == th.sid && th'.keys == th.keys
    requires (th'.pc.In? || th'.pc.AtGate?) ==> th'.pc.job.key == key
    ensures ListOk(th', book')
  {
    forall k | k in th'.keys ensures Slot(th'.sid, k) in book'.own {
      assert SameSlot(book, book', Slot(th.sid, k));
    }
  }

  lemma CloserInBody(s: State, t: Tid, ok: bool)
    requires Inv(s) && Awake(s, t) && s.threads[t].pc.In? && s.threads[t].req.Disconnect?
    requires CleanupOk(s.threads[t], s.world.book)
    ensures var s' := InNext(s, t, s.threads[t], ok); CleanupOk(s'.threads[t], s'.world.book)
  {
    var th := s.threads[t];
    var job, body := th.pc.job, th.pc.body;
    InFacts(s, t);
    var th' := InNext(s, t, th, ok).threads[t];
    if body.Leaving? {
      OthersStay(th, s.world.book, th', s.world.book, job.key);
      LeavingCleans(th, th', s.world.book);
    } else {
      CloserBodyCleans(s.world, th.sid, job, body, ok);
      BodyLocal(s.world, th.sid, job, body, ok);
      var w' := BodyNext(s.world, th.sid, job, body, ok).0;
      forall k | k != job.key ensures SameSlot(s.world.book, w'.book, Slot(th.sid, k)) {
        assert SameAt(s.world, w', Slot(th.sid, k));
      }
      BodyCleans(th, th', s.world.book, w'.book);
    }
  }

  lemma LeavingCleans(th: Thread, th': Thread, book: Book)
    requires CleanupOk(th, book) && IsCloser(th) && th.pc.In? && th.pc.body.Leaving?
    requires th'.sid == th.sid && th'.req == th.req && th'.keys == th.keys && ListOk(th', book)
    requires th'.pc == CleaningUp || th'.pc == CloseLeaving
    ensures CleanupOk(th', book)
  {
  }

  lemma BodyCleans(th: Thread, th': Thread, book: Book, book': Book)
    requires CleanupOk(th, book) && IsCloser(th) && th.pc.In?
    requires OthersSame(book, book', th.sid, th.pc.job.key) && Slot(th.sid, th.pc.job.key) !in book'.own
    requires th'.sid == th.sid && th'.req == th.req && th'.keys == th.keys && th'.pc.In? && th'.pc.job == th.pc.job
    ensures CleanupOk(th', book')
  {
    OthersStay(th, book, th', book', th.pc.job.key);
    forall key | Slot(th.sid, key) in book'.own ensures Uncleaned(th', key) {
      assert SameSlot(book, book', Slot(th.sid, key));
      assert Uncleaned(th, key);
    }
  }

  lemma CloserStepSound(s: State, t: Tid, c: Choice)
    requires Inv(s) && Awake(s, t) && s.threads[t].req.Disconnect?
    requires CleanupOk(s.threads[t], s.world.book)
    ensures CleanupOk(Next(s, t, c).threads[t], Next(s, t, c).world.book)
  {
    var th := s.threads[t];
    assert ThreadFits(th);
    if th.pc.In? {
      CloserInBody(s, t, c.ok);
    } else {
      if th.pc != CleaningUp { StepShape(s, t, c); }
      CloserOutsideBody(s, t, c);
    }
  }

  lemma CloserOutsideBody(s: State, t: Tid, c: Choice)
    requires Awake(s, t) && s.threads[t].req.Disconnect? && !s.threads[t].pc.In? && ThreadFits(s.threads[t])
    requires CleanupOk(s.threads[t], s.world.book)
    ensures CleanupOk(Next(s, t, c).threads[t], Next(s, t, c).world.book)
  {
    var th := s.threads[t];
    match th.pc
    case CleaningUp => CleaningUpSound(s, t);
    case AtGate(job) =>
    case CleanPlanning => CleanPlanningSound(s, t, c);
    case Start =>
    case Draining =>
    case Following =>
    case CloseLeaving =>
    case Finished =>
  }

  lemma CleaningUpSound(s: State, t: Tid)
    requires t in s.threads && s.threads[t].pc == CleaningUp && s.threads[t].req.Disconnect?
    requires CleanupOk(s.threads[t], s.world.book)
    ensures var s' := CleaningNext(s, t, s.threads[t]); CleanupOk(s'.threads[t], s'.world.book)
  {
    var th := s.threads[t];
    if th.keys != [] {
      assert th.keys[0] !in th.keys[1..];
      assert forall k :: k in th.keys <==> k == th.keys[0] || k in th.keys[1..];
    }
  }

  lemma CleanPlanningSound(s: State, t: Tid, c: Choice)
    requires Awake(s, t) && s.threads[t].pc == CleanPlanning && s.threads[t].req.Disconnect?
    ensures CleanupOk(Next(s, t, c).threads[t], Next(s, t, c).world.book)
  {
    var owned := SnapshotOwned(s.world.book, s.threads[t].sid);
    var keys := if Lists(c.order, owned) then c.order else SortKeys(owned);
    assert Lists(keys, owned);
  }

  /** What other threads do leaves a closer's account alone. */
  lemma OthersKeepCleanup(s: State, e: Event, t: Tid)
    requires Inv(s) && Possible(s, e) && !ActedBy(e, t) && t in s.threads
    requires CleanupOk(s.threads[t], s.world.book)
    ensures CleanupOk(s.threads[t], Occurs(s, e).world.book)
  {
    var th := s.threads[t];
    if IsCloser(th) && th.pc != Draining {
      assert CloserOf(s.threads, t, th.sid);
      forall key ensures SameSlot(s.world.book, Occurs(s, e).world.book, Slot(th.sid, key)) {
        if e.Step? && WorksOn(s.threads, e.t, Slot(th.sid, key)) {
          OnlyTheCloser(s, t, e.t, Slot(th.sid, key));
        } else {
          SlotChange(s, e, Slot(th.sid, key));
        }
      }
    }
  }

  lemma EventKeepsCleanup(s: State, e: Event)
    requires Inv(s) && CleanupSound(s.threads, s.world.book) && Possible(s, e)
    ensures CleanupSound(Occurs(s, e).threads, Occurs(s, e).world.book)
  {
    var s' := Occurs(s, e);
    forall t | t in s'.threads ensures CleanupOk(s'.threads[t], s'.world.book) {
      if ActedBy(e, t) {
        match e
        case Step(_, c) =>
          StepShape(s, t, c);
          if s.threads[t].req.Disconnect? { CloserStepSound(s, t, c); }
        case _ =>
      } else {
        OtherThreadsKept(s, e, t);
        OthersKeepCleanup(s, e, t);
      }
    }
  }

  lemma {:induction false} RunCleanup(states: seq<State>, events: seq<Event>, i: nat)
    requires Run(states, events) && i < |states|
    ensures CleanupSound(states[i].threads, states[i].world.book)
  {
    if i > 0 {
      RunCleanup(states, events, i - 1);
      RunInv(states, events, i - 1);
      EventKeepsCleanup(states[i - 1], events[i - 1]);
    }
  }

  // --- A leave_room that raises ------------------------------------------------------------

  /** The disconnect handler's leave_room raises with targets still listed. */
  ghost predicate RaisedEarly(s: State, e: Event, t: Tid) {
    && e.Step? && e.t == t && t in s.threads && s.threads[t].pc.In? && s.threads[t].pc.job.kind == Clean
    && s.threads[t].pc.body == LeavingRoom && !e.c.ok && s.threads[t].keys != []
  }

  /** The handler is past its loop, and did not get through it. */
  ghost predicate CutShort(s: State, t: Tid) {
    && t in s.threads && s.threads[t].req.Disconnect? && s.threads[t].keys != []
    && (s.threads[t].pc == CloseLeaving || s.threads[t].pc == Finished
        || (s.threads[t].pc.In? && s.threads[t].pc.body == Leaving(Aborted)))
  }

  lemma StepCutsShort(s: State, t: Tid, c: Choice)
    requires Inv(s) && Awake(s, t) && s.threads[t].req.Disconnect?
    requires s.threads[t].pc in {Start, Following} ==> s.threads[t].keys == []
    ensures CutShort(Next(s, t, c), t) <==> CutShort(s, t) || RaisedEarly(s, Step(t, c), t)
  {
    assert ThreadFits(s.threads[t]);
    if s.threads[t].pc.In? {
      InFacts(s, t);
      InCutsShort(s, t, c);
    } else if s.threads[t].pc in {CleaningUp, CleanPlanning} || s.threads[t].pc.AtGate? {
      InLoopUncut(s, t, c);
    } else {
      OutsideCutsShort(s, t, c);
    }
  }

  lemma InLoopUncut(s: State, t: Tid, c: Choice)
    requires Awake(s, t) && s.threads[t].req.Disconnect?
    requires s.threads[t].pc in {CleaningUp, CleanPlanning} || s.threads[t].pc.AtGate?
    ensures !CutShort(Next(s, t, c), t)
  {
  }

  lemma OutsideCutsShort(s: State, t: Tid, c: Choice)
    requires Awake(s, t) && s.threads[t].req.Disconnect? && s.threads[t].pc in {Start, Following, Draining, CloseLeaving, Finished}
    requires s.threads[t].pc in {Start, Following} ==> s.threads[t].keys == []
    ensures CutShort(Next(s, t, c), t) <==> CutShort(s, t)
  {
  }

  lemma InCutsShort(s: State, t: Tid, c: Choice)
    requires Awake(s, t) && s.threads[t].req.Disconnect? && s.threads[t].pc.In? && ThreadFits(s.threads[t])
    requires BodyOk(s.world, s.threads[t].sid, s.threads[t].pc.job, s.threads[t].pc.body)
    requires !Blocks(s.world, s.threads[t].pc.body)
    ensures CutShort(Next(s, t, c), t) <==> CutShort(s, t) || RaisedEarly(s, Step(t, c), t)
  {
  }

  /** Without a list there is nothing to cut short. */
  ghost predicate EarlyHasNoKeys(threads: Threads) {
    forall t :: t in threads && threads[t].pc in {Start, Following} ==> threads[t].keys == []
  }

  lemma EventKeepsNoKeys(s: State, e: Event)
    requires Possible(s, e) && EarlyHasNoKeys(s.threads)
    ensures EarlyHasNoKeys(Occurs(s, e).threads)
  {
    var s' := Occurs(s, e);
    forall t | t in s'.threads && s'.threads[t].pc in {Start, Following} ensures s'.threads[t].keys == [] {
      if !ActedBy(e, t) { OtherThreadsKept(s, e, t); }
      else if e.Step? && !GoesOn(s, t, e.c) { BackToEarly(s, t, e.c); }
    }
  }

  /** The step does not lead back to where a handler begins. */
  ghost predicate GoesOn(s: State, t: Tid, c: Choice)
    requires Awake(s, t)
  {
    Next(s, t, c).threads[t].pc !in {Start, Following}
  }

  lemma GateGoesOn(s: State, t: Tid, c: Choice)
    requires Awake(s, t) && (s.threads[t].pc.In? || s.threads[t].pc.AtGate?)
    ensures GoesOn(s, t, c)
  {
  }

  lemma FleetGoesOn(s: State, t: Tid, c: Choice)
    requires Awake(s, t) && s.threads[t].pc in {Admitted, Planning, Adding, Dropping, FleetWaiting}
    ensures GoesOn(s, t, c)
  {
    if s.threads[t].pc == Admitted { AdmittedGoesOn(s, t, c); }
    else if s.threads[t].pc == Adding { AddingGoesOn(s, t, c); }
  }

  lemma AdmittedGoesOn(s: State, t: Tid, c: Choice)
    requires Awake(s, t) && s.threads[t].pc == Admitted
    ensures GoesOn(s, t, c)
  {
  }

  lemma AddingGoesOn(s: State, t: Tid, c: Choice)
    requires Awake(s, t) && s.threads[t].pc == Adding
    ensures GoesOn(s, t, c)
  {
  }

  lemma CloserGoesOn(s: State, t: Tid, c: Choice)
    requires Awake(s, t)
    requires s.threads[t].pc in {Draining, CleanPlanning, CleaningUp, CloseLeaving, OpLeaving} || s.threads[t].pc.FleetLeaving?
    ensures GoesOn(s, t, c)
  {
  }

  /** Nothing leads to Start, and to Following only Start. */
  lemma BackToEarly(s: State, t: Tid, c: Choice)
    requires Awake(s, t) && !GoesOn(s, t, c)
    ensures s.threads[t].pc in {Start, Following} && Next(s, t, c).threads[t].keys == s.threads[t].keys
  {
    var pc := s.threads[t].pc;
    if pc.In? || pc.AtGate? { GateGoesOn(s, t, c); }
    else if pc in {Admitted, Planning, Adding, Dropping, FleetWaiting} { FleetGoesOn(s, t, c); }
    else if pc !in {Start, Following} { CloserGoesOn(s, t, c); }
  }

  lemma {:induction false} RunNoKeys(states: seq<State>, events: seq<Event>, i: nat)
    requires Run(states, events) && i < |states|
    ensures EarlyHasNoKeys(states[i].threads)
  {
    if i > 0 {
      RunNoKeys(states, events, i - 1);
      EventKeepsNoKeys(states[i - 1], events[i - 1]);
    }
  }

  ghost predicate CutStep(states: seq<State>, events: seq<Event>, j: nat, t: Tid)
    requires |states| == |events| + 1 && j < |events|
  {
    CutShort(states[j + 1], t) <==> CutShort(states[j], t) || RaisedEarly(states[j], events[j], t)
  }

  /** Its leave_room raised early before the i-th state. */
  ghost predicate RaisedBefore(states: seq<State>, events: seq<Event>, i: nat, t: Tid)
    requires |states| == |events| + 1 && i < |states|
  {
    exists j :: 0 <= j < i && RaisedEarly(states[j], events[j], t)
  }

  lemma RaisedOneMore(states: seq<State>, events: seq<Event>, i: nat, t: Tid)
    requires |states| == |events| + 1 && 0 < i < |states|
    ensures RaisedBefore(states, events, i, t)
            <==> RaisedBefore(states, events, i - 1, t) || RaisedEarly(states[i - 1], events[i - 1], t)
  {
  }

  lemma {:induction false} CutChain(states: seq<State>, events: seq<Event>, i: nat, t: Tid)
    requires |states| == |events| + 1 && i < |states| && !CutShort(states[0], t)
    requires forall j :: 0 <= j < |events| ==> CutStep(states, events, j, t)
    ensures CutShort(states[i], t) <==> RaisedBefore(states, events, i, t)
  {
    if i > 0 {
      CutChain(states, events, i - 1, t);
      assert CutStep(states, events, i - 1, t);
      RaisedOneMore(states, events, i, t);
    }
  }

  lemma CutShortExactly(states: seq<State>, events: seq<Event>, i: nat, t: Tid)
    requires Run(states, events) && i < |states|
    ensures CutShort(states[i], t) <==> RaisedBefore(states, events, i, t)
  {
    forall j | 0 <= j < |events| ensures CutStep(states, events, j, t) {
      CutShortOneMore(states, events, j, t);
    }
    CutChain(states, events, i, t);
  }

  lemma CutShortOneMore(states: seq<State>, events: seq<Event>, i: nat, t: Tid)
    requires Run(states, events) && i < |events|
    ensures CutStep(states, events, i, t)
  {
    RunInv(states, events, i);
    RunNoKeys(states, events, i);
    EventCutsShort(states[i], events[i], t);
  }

  lemma EventCutsShort(s: State, e: Event, t: Tid)
    requires Inv(s) && EarlyHasNoKeys(s.threads) && Possible(s, e)
    ensures CutShort(Occurs(s, e), t) <==> CutShort(s, t) || RaisedEarly(s, e, t)
  {
    if !ActedBy(e, t) {
      OtherThreadsKept(s, e, t);
    } else if e.Step? {
      if s.threads[t].req.Disconnect? { StepCutsShort(s, t, e.c); } else { OperationUncut(s, t, e.c); }
    }
  }

  lemma OperationUncut(s: State, t: Tid, c: Choice)
    requires Fits(s.threads) && Awake(s, t) && !s.threads[t].req.Disconnect?
    ensures !CutShort(Next(s, t, c), t) && !CutShort(s, t) && !RaisedEarly(s, Step(t, c), t)
  {
    StepShape(s, t, c);
    assert ThreadFits(s.threads[t]);
  }

  /** In every run: when a disconnect's cleanup body has ended, the session owns exactly
      the targets that are still listed, and has no connection state elsewhere; and some
      are exactly when its leave_room raised with targets listed. */
  lemma LeftBehindExactly(states: seq<State>, events: seq<Event>, i: nat, t: Tid)
    requires Run(states, events) && i < |states|
    requires t in states[i].threads && states[i].threads[t].pc == CloseLeaving
    ensures var th, book := states[i].threads[t], states[i].world.book;
            && (forall key :: Slot(th.sid, key) in book.own <==> key in th.keys)
            && (forall key :: Slot(th.sid, key) in book.conn ==> key in th.keys)
            && (th.keys != [] <==> RaisedBefore(states, events, i, t))
  {
    RunCleanup(states, events, i);
    RunInv(states, events, i);
    AtTheEnd(states[i], t);
    CutShortExactly(states, events, i, t);
  }

  lemma AtTheEnd(s: State, t: Tid)
    requires Inv(s) && t in s.threads && s.threads[t].pc == CloseLeaving && CleanupOk(s.threads[t], s.world.book)
    ensures var th, book := s.threads[t], s.world.book;
            && th.req.Disconnect?
            && (forall key :: Slot(th.sid, key) in book.own <==> key in th.keys)
            && (forall key :: Slot(th.sid, key) in book.conn ==> key in th.keys)
  {
    assert ThreadFits(s.threads[t]);
  }

  /** So nothing is left behind unless a leave_room raised. */
  lemma NothingLeftBehind(states: seq<State>, events: seq<Event>, i: nat, t: Tid, key: Key)
    requires Run(states, events) && i < |states|
    requires t in states[i].threads && states[i].threads[t].pc == CloseLeaving
    requires !RaisedBefore(states, events, i, t)
    ensures Slot(states[i].threads[t].sid, key) !in states[i].world.book.own
    ensures Slot(states[i].threads[t].sid, key) !in states[i].world.book.conn
  {
    LeftBehindExactly(states, events, i, t);
  }

  /** In every run: one closer at a time has cleanup authority over a session; it
      has left the drain only with no operation registered, and no operation is
      accepted while it exists. */
  lemma OneCloserAtATime(states: seq<State>, events: seq<Event>, i: nat, t: Tid, u: Tid, sid: Sid)
    requires Run(states, events) && i < |states|
    requires CloserOf(states[i].threads, t, sid)
    ensures CloserOf(states[i].threads, u, sid) ==> u == t
    ensures !Accepts(states[i].recs, sid)
    ensures states[i].threads[t].pc != Draining ==> Ops(states[i].threads, sid) == {}
  {
    RunInv(states, events, i);
  }
}
