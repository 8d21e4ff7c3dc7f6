/** What the composed protocol guarantees about connections, whatever fails. */
module RconTheorems {
  import opened Options
  import opened RconTypes
  import opened RconOwnership
  import opened FifoGate
  import opened SidLifecycle
  import opened RconProtocol
  import opened RconBody
  import opened RconInvariant
  import opened RconSteps
  import opened RconFrames

  // --- Owners outside their room ---------------------------------------------------------

  /** The thread is about to enter the room for this slot. */
  ghost predicate EntersRoom(s: State, e: Event, slot: Slot) {
    e.Step? && WorksOn(s.threads, e.t, slot) && s.threads[e.t].pc.body.JoiningRoom?
  }

  /** An individual handler's join_room raises, or the server forgets the rooms of a
      session that still owns the target. */
  ghost predicate Strays(s: State, e: Event, slot: Slot) {
    || (EntersRoom(s, e, slot) && s.threads[e.t].pc.job.owner == Individual && !e.c.ok)
    || (e == ForgetRooms(slot.sid) && slot in s.world.book.own)
  }

  ghost predicate Returns(s: State, e: Event, slot: Slot) {
    EntersRoom(s, e, slot) && e.c.ok
  }

  /** It strayed before the i-th state, and no join_room of it succeeded since. */
  ghost predicate Strayed(states: seq<State>, events: seq<Event>, i: nat, slot: Slot)
    requires |states| == |events| + 1 && i < |states|
  {
    exists j :: 0 <= j < i && Strays(states[j], events[j], slot)
                && forall k :: j < k < i ==> !Returns(states[k], events[k], slot)
  }

  lemma BodyStrays(w: World, sid: Sid, job: Job, body: Body, ok: bool, slot: Slot)
    ensures slot in BodyNext(w, sid, job, body, ok).0.strays <==>
              if slot == Slot(sid, job.key) && body.JoiningRoom?
              then !ok && (job.owner == Individual || slot in w.strays) else slot in w.strays
  {
  }

  lemma InStrays(s: State, t: Tid, c: Choice, slot: Slot)
    requires Inv(s) && Awake(s, t) && s.threads[t].pc.In?
    ensures StraysOn(s, Step(t, c), Next(s, t, c), slot)
  {
    var th := s.threads[t];
    InFacts(s, t);
    if !th.pc.body.Leaving? { BodyStrays(s.world, th.sid, th.pc.job, th.pc.body, c.ok, slot); }
  }

  ghost predicate StraysOn(s: State, e: Event, s': State, slot: Slot) {
    slot in s'.world.strays <==> Strays(s, e, slot) || (slot in s.world.strays && !Returns(s, e, slot))
  }

  lemma EventStrays(s: State, e: Event, slot: Slot)
    requires Inv(s) && Possible(s, e)
    ensures StraysOn(s, e, Occurs(s, e), slot)
  {
    if e.Step? {
      if s.threads[e.t].pc.In? { InStrays(s, e.t, e.c, slot); } else { OutsideStrays(s, e.t, e.c); }
    }
  }

  lemma OutsideStrays(s: State, t: Tid, c: Choice)
    requires Awake(s, t) && !s.threads[t].pc.In?
    ensures Next(s, t, c).world.strays == s.world.strays
  {
    if s.threads[t].pc != CleaningUp { StepShape(s, t, c); }
  }

  lemma StrayedOneMore(states: seq<State>, events: seq<Event>, i: nat, slot: Slot)
    requires |states| == |events| + 1 && 0 < i < |states|
    ensures Strayed(states, events, i, slot)
            <==> Strays(states[i - 1], events[i - 1], slot)
                 || (Strayed(states, events, i - 1, slot) && !Returns(states[i - 1], events[i - 1], slot))
  {
    if Strayed(states, events, i - 1, slot) && !Returns(states[i - 1], events[i - 1], slot) {
      var j :| 0 <= j < i - 1 && Strays(states[j], events[j], slot)
               && forall k :: j < k < i - 1 ==> !Returns(states[k], events[k], slot);
      forall k | j < k < i ensures !Returns(states[k], events[k], slot) {
        if k == i - 1 { assert !Returns(states[i - 1], events[i - 1], slot); }
      }
    }
    if Strayed(states, events, i, slot) && !Strays(states[i - 1], events[i - 1], slot) {
      var j :| 0 <= j < i && Strays(states[j], events[j], slot)
               && forall k :: j < k < i ==> !Returns(states[k], events[k], slot);
      assert j < i - 1;
    }
  }

  lemma {:induction false} StrayChain(states: seq<State>, events: seq<Event>, i: nat, slot: Slot)
    requires |states| == |events| + 1 && i < |states| && slot !in states[0].world.strays
    requires forall j :: 0 <= j < |events| ==> StraysOn(states[j], events[j], states[j + 1], slot)
    ensures slot in states[i].world.strays <==> Strayed(states, events, i, slot)
  {
    if i > 0 {
      StrayChain(states, events, i - 1, slot);
      assert StraysOn(states[i - 1], events[i - 1], states[i - 1 + 1], slot);
      StrayedOneMore(states, events, i, slot);
    }
  }

  /** The model's history of strays is that of the run. */
  lemma StrayExactly(states: seq<State>, events: seq<Event>, i: nat, slot: Slot)
    requires Run(states, events) && i < |states|
    ensures slot in states[i].world.strays <==> Strayed(states, events, i, slot)
  {
    forall j | 0 <= j < |events| ensures StraysOn(states[j], events[j], states[j + 1], slot) {
      RunInv(states, events, j);
      EventStrays(states[j], events[j], slot);
      assert Follows(states[j], events[j], states[j + 1]);
    }
    StrayChain(states, events, i, slot);
  }

  // --- Connections ------------------------------------------------------------------------

  /** In every run of joins, leaves, fleet requests and disconnects, whatever raises: if
      the connection of a member of the target's room is established, the last successful
      connect or disconnect publication for that target is a connect. */
  lemma MembersWerePublished(states: seq<State>, events: seq<Event>, i: nat, slot: Slot)
    requires Run(states, events) && i < |states|
    requires Live(states[i].world, slot) && slot in states[i].world.rooms
    ensures LastIsConnect(states[i].world, slot.key)
  {
    RunInv(states, events, i);
  }

  lemma LiveIsPresent(s: State, slot: Slot)
    requires Inv(s) && Live(s.world, slot)
    ensures Present(s.world, slot)
  {
    if Busy(s.threads, slot) {
      var t :| WorksOn(s.threads, t, slot);
      InFacts(s, t);
      assert slot == Slot(s.threads[t].sid, s.threads[t].pc.job.key);
    }
  }

  /** And so is any established connection, unless that very session strayed from that
      target's room and did not return. */
  lemma EstablishedWasPublished(states: seq<State>, events: seq<Event>, i: nat, slot: Slot)
    requires Run(states, events) && i < |states| && !Strayed(states, events, i, slot)
    requires Live(states[i].world, slot)
    ensures LastIsConnect(states[i].world, slot.key)
  {
    RunInv(states, events, i);
    StrayExactly(states, events, i, slot);
    LiveIsPresent(states[i], slot);
  }

  /** What that rests on: an owner whose target nobody is working on is in the room. */
  lemma OwnersAreInTheRoom(states: seq<State>, events: seq<Event>, i: nat, slot: Slot)
    requires Run(states, events) && i < |states| && !Strayed(states, events, i, slot)
    requires slot in states[i].world.book.own && !Busy(states[i].threads, slot)
    ensures slot in states[i].world.rooms
  {
    RunInv(states, events, i);
    StrayExactly(states, events, i, slot);
  }

  /** In every run: a pending claim belongs to the thread that holds the target's
      gate and is publishing for it. */
  lemma PendingIsHeld(states: seq<State>, events: seq<Event>, i: nat, slot: Slot)
    requires Run(states, events) && i < |states|
    requires slot in states[i].world.book.conn && states[i].world.book.conn[slot].Pending?
    ensures exists t :: WorksOn(states[i].threads, t, slot) && IsHead(states[i].targetQ, slot.key, t)
                        && (states[i].threads[t].pc.body.Publishing? || states[i].threads[t].pc.body.Completing?)
  {
    RunInv(states, events, i);
    assert !Calm(states[i].world, slot);
    var t :| WorksOn(states[i].threads, t, slot);
    var th := states[i].threads[t];
    assert slot == Slot(th.sid, th.pc.job.key);
    assert BodyOk(states[i].world, th.sid, th.pc.job, th.pc.body);
    assert WorksOn(states[i].threads, t, slot) && IsHead(states[i].targetQ, slot.key, t);
  }

  /** In every run: begin_connect never waits while holding a gate, and no
      completion is stale. */
  lemma ClaimsNeverStale(states: seq<State>, events: seq<Event>, i: nat, t: Tid)
    requires Run(states, events) && i < |states|
    requires t in states[i].threads && states[i].threads[t].pc.In?
    ensures var w, body := states[i].world, states[i].threads[t].pc.body;
            !Blocks(w, body)
            && (body.Completing? ==>
                  body.acq.owner.Some? && !Complete(w.book, body.acq, body.token, body.sent).1.Stale?)
  {
    RunInv(states, events, i);
    var th := states[i].threads[t];
    NeverStaleNeverBlocked(states[i].world, th.sid, th.pc.job, th.pc.body);
  }
}
