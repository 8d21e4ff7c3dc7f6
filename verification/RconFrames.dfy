/** Which events can touch which part of the state. */
module RconFrames {
  import opened RconTypes
  import opened RconOwnership
  import opened FifoGate
  import opened SidLifecycle
  import opened RconProtocol
  import opened RconBody
  import opened RconInvariant
  import opened RconSteps

  predicate ActedBy(e: Event, t: Tid) {
    match e
    case Spawn(u, _, _) => u == t
    case Step(u, _) => u == t
    case Stir(_) => false
    case Interrupt(u) => u == t
    case ForgetRooms(_) => false
  }

  /** A step moves one thread, and outside a gate body only the end of a disconnect
      touches the registry. */
  lemma StepShape(s: State, t: Tid, c: Choice)
    requires Awake(s, t)
    ensures Moved(s, Next(s, t, c), t, s.threads[t])
    ensures !s.threads[t].pc.In? && s.threads[t].pc != CleaningUp ==> Next(s, t, c).world == s.world
  {
  }

  /** An event changes the thread it is about and no other, and only Spawn adds one. */
  lemma OtherThreadsKept(s: State, e: Event, t: Tid)
    requires Possible(s, e) && !ActedBy(e, t)
    ensures t in Occurs(s, e).threads <==> t in s.threads
    ensures t in s.threads ==> Occurs(s, e).threads[t] == s.threads[t]
  {
    match e
    case Step(u, c) => StepShape(s, u, c);
    case _ =>
  }

  /** A slot's bookkeeping changes only by a step of the thread working on it. */
  lemma SlotChange(s: State, e: Event, slot: Slot)
    requires Inv(s) && Possible(s, e)
    requires !(e.Step? && WorksOn(s.threads, e.t, slot))
    ensures SameSlot(s.world.book, Occurs(s, e).world.book, slot)
  {
    match e
    case Step(t, c) => StepSlotChange(s, t, c, slot);
    case _ =>
  }

  lemma StepSlotChange(s: State, t: Tid, c: Choice, slot: Slot)
    requires Inv(s) && Awake(s, t) && !WorksOn(s.threads, t, slot)
    ensures SameSlot(s.world.book, Next(s, t, c).world.book, slot)
  {
    var th := s.threads[t];
    match th.pc
    case In(job, body) =>
      if !body.Leaving? && !Blocks(s.world, body) {
        assert BodyOk(s.world, th.sid, job, body);
        BodyLocal(s.world, th.sid, job, body, c.ok);
        assert slot != Slot(th.sid, job.key);
        assert SameAt(s.world, BodyNext(s.world, th.sid, job, body, c.ok).0, slot);
      }
    case CleaningUp =>
      assert CleanupResidual(s.world.book, th.sid).conn == s.world.book.conn;
    case _ => StepShape(s, t, c);
  }
}
