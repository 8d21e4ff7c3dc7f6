/** What holds while a thread is inside a target gate, step by step. */
module RconBody {
  import opened Options
  import opened RconTypes
  import opened RconOwnership
  import opened RconProtocol

  /** A slot nobody is working on: its state, if any, is settled and owned, and its
      owner is in the room unless it went astray. */
  ghost predicate Calm(w: World, slot: Slot) {
    && (slot in w.book.conn ==> slot in w.book.own && !w.book.conn[slot].Pending?)
    && (slot in w.book.own && slot !in w.strays ==> slot in w.rooms)
  }

  ghost predicate Vacant(w: World, slot: Slot) {
    slot !in w.book.own && slot !in w.book.conn
  }

  ghost predicate Present(w: World, slot: Slot) {
    slot in w.strays || slot in w.rooms
  }

  ghost predicate Holds(w: World, slot: Slot, owner: Owner) {
    owner in Owners(w.book, slot)
  }

  ghost predicate Live(w: World, slot: Slot) {
    slot in w.book.conn && w.book.conn[slot] == Established
  }

  ghost predicate NoEmptyOwners(w: World) {
    forall slot :: slot in w.book.own ==> w.book.own[slot] != {}
  }

  /** The safety property: the established connection of a member of the room was the
      last thing published. */
  ghost predicate LogOk(w: World) {
    forall slot :: Live(w, slot) && slot in w.rooms ==> LastIsConnect(w, slot.key)
  }

  ghost predicate OutcomeFits(w: World, slot: Slot, job: Job, outcome: Outcome) {
    match job.kind
    case Add =>
      || outcome == Refused(job.key)
      || (outcome == Connecting(job.key) && Holds(w, slot, job.owner) && Live(w, slot))
      || (outcome == Nothing && job.owner == Individual)
    case Drop =>
      || (outcome == Removed(job.key) && !Holds(w, slot, job.owner))
      || (outcome == Stuck(job.key) && job.owner == Fleet && Holds(w, slot, job.owner))
      || (outcome == Nothing && (job.owner == Fleet ==> !Holds(w, slot, job.owner)))
    case Clean => outcome in {Nothing, Removed(job.key), Aborted} && Vacant(w, slot)
    case Use => outcome == Nothing
  }

  ghost predicate AcqOk(acq: Transition, slot: Slot, job: Job) {
    acq.slot == slot && acq.owner == Some(job.owner)
  }

  ghost predicate BodyOk(w: World, sid: Sid, job: Job, body: Body) {
    var slot := Slot(sid, job.key);
    match body
    case Acquiring => job.kind == Add && Calm(w, slot)
    case JoiningRoom(acq) =>
      job.kind == Add && AcqOk(acq, slot, job) && acq.changed
      && Owners(w.book, slot) == {job.owner} && slot !in w.book.conn
    case RollingBack(acq) =>
      job.kind == Add && job.owner == Fleet && AcqOk(acq, slot, job) && acq.changed
      && Owners(w.book, slot) == {job.owner} && slot !in w.book.conn
    case Beginning(acq) =>
      job.kind == Add && AcqOk(acq, slot, job) && Holds(w, slot, job.owner) && Present(w, slot)
      && (slot in w.book.conn ==> !w.book.conn[slot].Pending?)
    case Publishing(acq, token) =>
      job.kind == Add && AcqOk(acq, slot, job) && Holds(w, slot, job.owner) && Present(w, slot)
      && ClaimLive(w.book, slot, token)
    case Completing(acq, token, sent) =>
      job.kind == Add && AcqOk(acq, slot, job) && Holds(w, slot, job.owner) && Present(w, slot)
      && ClaimLive(w.book, slot, token) && (sent ==> LastIsConnect(w, job.key))
    case LeavingAfterFailure => job.kind == Add && Vacant(w, slot) && Present(w, slot)
    case CheckingRoom => job.kind == Drop && job.owner == Individual && Calm(w, slot)
    case CheckingOwner => job.kind == Drop && job.owner == Individual && Calm(w, slot)
    case Releasing => job.kind == Drop && Calm(w, slot)
    case Clearing => job.kind == Clean && Calm(w, slot)
    case LeavingRoom => (job.kind == Drop || job.kind == Clean) && Vacant(w, slot) && Present(w, slot)
    case Restoring(outcome) =>
      job.owner == Fleet && Vacant(w, slot) && Present(w, slot)
      && ((job.kind == Add && outcome == Refused(job.key)) || (job.kind == Drop && outcome == Stuck(job.key)))
    case Counting(_, outcome) =>
      (job.kind == Drop || job.kind == Clean) && Vacant(w, slot) && outcome == Removed(job.key)
    case Disconnecting(outcome) =>
      (job.kind == Drop || job.kind == Clean) && Vacant(w, slot) && outcome == Removed(job.key)
      && (forall x :: x in w.rooms && x.key == job.key ==> x.sid == sid)
    case Leaving(outcome) => Calm(w, slot) && OutcomeFits(w, slot, job, outcome)
  }

  /** Nothing about the slot differs between the two worlds. */
  ghost predicate SameAt(w: World, w': World, slot: Slot) {
    SameSlot(w.book, w'.book, slot) && (slot in w.rooms <==> slot in w'.rooms) && (slot in w.strays <==> slot in w'.strays)
  }

  ghost predicate OnlySlot(w: World, w': World, slot: Slot) {
    && (forall x :: x != slot ==> SameAt(w, w', x))
    && (forall k :: k != slot.key ==> Published(w.log, k) == Published(w'.log, k))
  }

  lemma FirstBodyOk(w: World, sid: Sid, job: Job)
    requires Calm(w, Slot(sid, job.key))
    ensures BodyOk(w, sid, job, First(job))
    ensures !Blocks(w, First(job))
  {
  }

  /** The registry call a step makes, if any. */
  function BookOp(w: World, sid: Sid, job: Job, body: Body): Option<Op> {
    var slot := Slot(sid, job.key);
    match body
    case Acquiring => Some(OpAcquire(slot, job.owner))
    case RollingBack(acq) => Some(OpRollback(acq))
    case Beginning(acq) => Some(OpBegin(acq, w.nextToken))
    case Completing(acq, token, sent) => Some(OpComplete(acq, token, sent))
    case Releasing => Some(OpRelease(slot, job.owner))
    case Clearing => Some(OpCleanup(slot))
    case Restoring(_) => Some(OpAcquire(slot, job.owner))
    case _ => None
  }

  lemma BodyBook(w: World, sid: Sid, job: Job, body: Body, ok: bool)
    ensures var op := BookOp(w, sid, job, body); var b := BodyNext(w, sid, job, body, ok).0.book;
            if op.Some? && Callable(op.value) then b == Apply(w.book, op.value) else b == w.book
  {
  }

  /** A step touches its own slot only. */
  lemma BodyLocal(w: World, sid: Sid, job: Job, body: Body, ok: bool)
    requires BodyOk(w, sid, job, body)
    ensures OnlySlot(w, BodyNext(w, sid, job, body, ok).0, Slot(sid, job.key))
  {
    var op := BookOp(w, sid, job, body);
    BodyBook(w, sid, job, body, ok);
    var w' := BodyNext(w, sid, job, body, ok).0;
    forall x | x != Slot(sid, job.key) ensures SameSlot(w.book, w'.book, x) {
      if op.Some? && Callable(op.value) { OpLocal(w.book, op.value, x); }
    }
    RoomsLocal(w, sid, job, body, ok);
  }

  lemma RoomsLocal(w: World, sid: Sid, job: Job, body: Body, ok: bool)
    ensures var w' := BodyNext(w, sid, job, body, ok).0;
            && (forall x :: x != Slot(sid, job.key) ==> (x in w.rooms <==> x in w'.rooms) && (x in w.strays <==> x in w'.strays))
            && (forall k :: k != job.key ==> Published(w.log, k) == Published(w'.log, k))
  {
  }

  /** A step keeps the thread's own assertion, and never leads to a blocked claim. */
  lemma BodyOwn(w: World, sid: Sid, job: Job, body: Body, ok: bool)
    requires BodyOk(w, sid, job, body) && NoEmptyOwners(w)
    ensures var (w', body') := BodyNext(w, sid, job, body, ok); BodyOk(w', sid, job, body')
  {
    var slot := Slot(sid, job.key);
    match body
    case Acquiring =>
      assert Owners(w.book, slot) == {} ==> slot !in w.book.own;
    case Completing(acq, token, sent) =>
      assert Owners(w.book, slot) != {};
    case RollingBack(acq) =>
      assert Owners(w.book, slot) - {job.owner} == {};
    case _ =>
  }

  lemma BodyLog(w: World, sid: Sid, job: Job, body: Body, ok: bool)
    requires BodyOk(w, sid, job, body) && NoEmptyOwners(w) && LogOk(w)
    ensures LogOk(BodyNext(w, sid, job, body, ok).0)
  {
    var slot := Slot(sid, job.key);
    var w' := BodyNext(w, sid, job, body, ok).0;
    BodyLocal(w, sid, job, body, ok);
    forall x | Live(w', x) && x in w'.rooms ensures LastIsConnect(w', x.key) {
      if x != slot {
        assert SameAt(w, w', x);
        assert Live(w, x);
      }
    }
  }

  /** No handler can find its claim stale or another claim pending. */
  lemma NeverStaleNeverBlocked(w: World, sid: Sid, job: Job, body: Body)
    requires BodyOk(w, sid, job, body)
    ensures !Blocks(w, body)
    ensures body.Completing? ==> !Complete(w.book, body.acq, body.token, body.sent).1.Stale?
  {
  }

  lemma CalmElsewhere(w: World, w': World, slot: Slot, x: Slot)
    requires OnlySlot(w, w', slot) && x != slot && Calm(w, x)
    ensures Calm(w', x)
  {
    assert SameAt(w, w', x);
  }

  lemma BodyOkElsewhere(w: World, w': World, slot: Slot, sid: Sid, job: Job, body: Body)
    requires OnlySlot(w, w', slot) && job.key != slot.key && BodyOk(w, sid, job, body)
    ensures BodyOk(w', sid, job, body)
  {
    assert SameAt(w, w', Slot(sid, job.key));
    assert forall x: Slot :: x.key == job.key ==> SameAt(w, w', x);
    assert Published(w.log, job.key) == Published(w'.log, job.key);
  }
}
