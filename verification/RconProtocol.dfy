/**
 * The RCON handlers as threads over the session lifecycle, the two FIFO gates,
 * the ownership registry, the room membership and the publications.
 *
 * A thread moves one atomic step at a time: one lock-protected section, or one
 * Socket.IO or Redis call. The outcome of an outside call comes from a Choice.
 * A thread whose wait-loop guard is false is put to sleep and moves again only
 * after somebody notifies it, so a lost wake-up would show as a stuck thread.
 */
module RconProtocol {
  import opened Options
  import opened RconTypes
  import opened RconOwnership
  import opened FifoGate
  import opened SidLifecycle

  // --- Payload validation -----------------------------------------------------------

  const MAX_FLEET_TARGETS: nat := 100

  /** One element of the submitted list, as far as validation looks at it. */
  datatype Item = NotAnObject | WrongFields | Ids(host: int, instance: int) | IdsNotIntegers

  datatype Entry = Unusable | Usable(key: Key)

  datatype Payload = NotAList | Items(items: seq<Item>)

  predicate Positive(item: Item) {
    item.Ids? && item.host > 0 && item.instance > 0
  }

  /** First occurrence of every usable key, every unusable item, in order. */
  function Normalize(items: seq<Item>, seen: set<Key>): seq<Entry> {
    if items == [] then []
    else if !Positive(items[0]) then [Unusable] + Normalize(items[1..], seen)
    else
      var key := Key(items[0].host, items[0].instance);
      if key in seen then Normalize(items[1..], seen)
      else [Usable(key)] + Normalize(items[1..], seen + {key})
  }

  function Validate(payload: Payload): Option<seq<Entry>> {
    if payload.NotAList? || |payload.items| > MAX_FLEET_TARGETS then None
    else Some(Normalize(payload.items, {}))
  }

  ghost predicate DistinctKeys(entries: seq<Entry>) {
    forall i, j :: 0 <= i < j < |entries| && entries[i].Usable? && entries[j].Usable?
                   ==> entries[i] != entries[j]
  }

  /** What normalization promises: no key twice, none outside the request or
      already seen, and no requested usable key lost. */
  lemma {:induction false} NormalizeDistinct(items: seq<Item>, seen: set<Key>)
    ensures DistinctKeys(Normalize(items, seen))
    ensures forall key: Key :: Usable(key) in Normalize(items, seen)
              <==> key !in seen && Ids(key.host, key.instance) in items && key.host > 0 && key.instance > 0
    decreases |items|
  {
    if items != [] {
      assert forall x :: x in items <==> x == items[0] || x in items[1..];
      if !Positive(items[0]) {
        NormalizeDistinct(items[1..], seen);
        assert forall key: Key :: key.host > 0 && key.instance > 0 ==> Ids(key.host, key.instance) != items[0];
      } else {
        var key := Key(items[0].host, items[0].instance);
        if key in seen {
          NormalizeDistinct(items[1..], seen);
          assert forall k: Key :: Ids(k.host, k.instance) == items[0] ==> k == key;
        } else {
          NormalizeDistinct(items[1..], seen + {key});
          assert forall k: Key :: Ids(k.host, k.instance) == items[0] ==> k == key;
          var rest := Normalize(items[1..], seen + {key});
          assert Usable(key) !in rest;
          forall i, j | 0 <= i < j < |[Usable(key)] + rest|
                        && ([Usable(key)] + rest)[i].Usable? && ([Usable(key)] + rest)[j].Usable?
            ensures ([Usable(key)] + rest)[i] != ([Usable(key)] + rest)[j]
          {
            if i == 0 { assert rest[j - 1] in rest; }
          }
        }
      }
    }
  }

  /** An item the result keeps: unusable, or the first with its ids and not seen before. */
  ghost predicate Kept(items: seq<Item>, seen: set<Key>, i: nat)
    requires i < |items|
  {
    !Positive(items[i])
    || (Key(items[i].host, items[i].instance) !in seen && forall j :: 0 <= j < i ==> items[j] != items[i])
  }

  /** How many of the first i items are kept. */
  ghost function KeptBefore(items: seq<Item>, seen: set<Key>, i: nat): nat
    requires i <= |items|
  {
    if i == 0 then 0 else KeptBefore(items, seen, i - 1) + if Kept(items, seen, i - 1) then 1 else 0
  }

  function EntryOf(item: Item): Entry {
    if Positive(item) then Usable(Key(item.host, item.instance)) else Unusable
  }

  function SeenAfter(item: Item, seen: set<Key>): set<Key> {
    if Positive(item) then seen + {Key(item.host, item.instance)} else seen
  }

  lemma KeptInRest(items: seq<Item>, seen: set<Key>, i: nat)
    requires i + 1 < |items|
    ensures Kept(items, seen, i + 1) <==> Kept(items[1..], SeenAfter(items[0], seen), i)
  {
    var rest := items[1..];
    assert forall j :: 0 <= j < |rest| ==> rest[j] == items[j + 1];
    assert (forall j :: 0 <= j < i ==> rest[j] != rest[i])
      <==> (forall j :: 1 <= j < i + 1 ==> items[j] != items[i + 1]) by {
      assert forall j :: 1 <= j < i + 1 ==> items[j] == rest[j - 1];
    }
  }

  lemma {:induction false} KeptBeforeInRest(items: seq<Item>, seen: set<Key>, i: nat)
    requires i < |items|
    ensures KeptBefore(items, seen, i + 1)
            == KeptBefore(items[1..], SeenAfter(items[0], seen), i) + if Kept(items, seen, 0) then 1 else 0
  {
    if i > 0 {
      KeptBeforeInRest(items, seen, i - 1);
      KeptInRest(items, seen, i - 1);
    }
  }

  /** Normalization is the kept items in their order: every unusable one, and of equal
      usable ones the first. */
  lemma {:induction false} NormalizeInOrder(items: seq<Item>, seen: set<Key>)
    ensures |Normalize(items, seen)| == KeptBefore(items, seen, |items|)
    ensures forall i :: 0 <= i < |items| && Kept(items, seen, i) ==>
              KeptBefore(items, seen, i) < |Normalize(items, seen)|
              && Normalize(items, seen)[KeptBefore(items, seen, i)] == EntryOf(items[i])
    decreases |items|
  {
    if items != [] {
      var rest, seen' := items[1..], SeenAfter(items[0], seen);
      NormalizeInOrder(rest, seen');
      KeptBeforeInRest(items, seen, |items| - 1);
      NormalizeFirst(items, seen);
      forall i | 0 <= i < |items| && Kept(items, seen, i)
        ensures KeptBefore(items, seen, i) < |Normalize(items, seen)|
        ensures Normalize(items, seen)[KeptBefore(items, seen, i)] == EntryOf(items[i])
      {
        if i > 0 {
          KeptInRest(items, seen, i - 1);
          KeptBeforeInRest(items, seen, i - 1);
        }
      }
    }
  }

  lemma NormalizeFirst(items: seq<Item>, seen: set<Key>)
    requires items != []
    ensures Normalize(items, seen)
            == (if Kept(items, seen, 0) then [EntryOf(items[0])] else []) + Normalize(items[1..], SeenAfter(items[0], seen))
  {
    if Positive(items[0]) && Key(items[0].host, items[0].instance) in seen {
      assert SeenAfter(items[0], seen) == seen;
    }
  }

  /** _validate_targets */
  method ValidateTargets(payload: Payload) returns (entries: Option<seq<Entry>>)
    ensures entries == Validate(payload)
  {
    if payload.NotAList? || |payload.items| > MAX_FLEET_TARGETS { return None; }
    var out: seq<Entry> := [];
    var seen: set<Key> := {};
    for i := 0 to |payload.items|
      invariant out + Normalize(payload.items[i..], seen) == Normalize(payload.items, {})
    {
      var item := payload.items[i];
      assert payload.items[i..][1..] == payload.items[i + 1..];
      ghost var rest := Normalize(payload.items[i..], seen);
      if !Positive(item) {
        assert out + rest == (out + [Unusable]) + rest[1..];
        out := out + [Unusable];
      } else {
        var key := Key(item.host, item.instance);
        if key !in seen {
          assert out + rest == (out + [Usable(key)]) + rest[1..];
          out := out + [Usable(key)];
          seen := seen + {key};
        }
      }
    }
    assert out + Normalize([], seen) == out;
    return Some(out);
  }

  // --- Threads ------------------------------------------------------------------------

  datatype Request =
    | Join(key: Key)
    | Leave(key: Key)
    | Command(key: Key)
    | Reconcile(payload: Payload)
    | FleetLeave
    | Disconnect

  datatype JobKind = Add | Drop | Clean | Use

  /** One trip through a target gate. */
  datatype Job = Job(kind: JobKind, owner: Owner, key: Key)

  /** A fleet acknowledgement entry; Nothing when no entry is reported. */
  datatype Outcome =
    | Blank
    | Refused(key: Key)
    | Connecting(key: Key)
    | Removed(key: Key)
    | Stuck(key: Key)
    | Nothing
    | Aborted          // the exception ends the whole handler

  /** Where a thread stands inside a target gate. */
  datatype Body =
    | Acquiring
    | JoiningRoom(acq: Transition)
    | RollingBack(acq: Transition)
    | Beginning(acq: Transition)
    | Publishing(acq: Transition, token: nat)
    | Completing(acq: Transition, token: nat, sent: bool)
    | LeavingAfterFailure
    | CheckingRoom
    | CheckingOwner
    | Releasing
    | Clearing
    | LeavingRoom
    | Restoring(outcome: Outcome)
    | Counting(excluding: bool, outcome: Outcome)
    | Disconnecting(outcome: Outcome)
    | Leaving(outcome: Outcome)

  datatype Pc =
    | Start
    | Admitted
    | FleetWaiting
    | Planning
    | Adding
    | Dropping
    | AtGate(job: Job)
    | In(job: Job, body: Body)
    | FleetLeaving(done: bool)
    | OpLeaving
    | Draining
    | Following
    | CleanPlanning
    | CleaningUp
    | CloseLeaving
    | Finished

  datatype Thread = Thread(
    sid: Sid, req: Request, pc: Pc, rec: nat,
    entries: seq<Entry>,   // still to be added
    current: set<Key>,     // fleet-owned when the request was planned
    accepted: set<Key>,
    keys: seq<Key>,        // still to be removed or cleaned
    results: seq<Outcome>)

  datatype Publication = ConnectMsg | DisconnectMsg

  /** What the body of a target gate reads and writes. The log keeps, per target,
      the successful connect and disconnect publications. The last two fields are
      history: the slots whose owner is out of the room because an individual handler's
      join_room raised or the server forgot the rooms of a session that still owned
      them, and the sessions whose disconnect handler's leave_room raised. */
  datatype World = World(
    book: Book, nextToken: nat, rooms: set<Slot>, log: map<Key, seq<Publication>>,
    strays: set<Slot>, stranded: set<Sid>)

  datatype State = State(
    threads: map<Tid, Thread>, asleep: set<Tid>,
    recs: Records, nextRec: nat,
    fleetQ: map<Sid, seq<Tid>>, targetQ: map<Key, seq<Tid>>,
    world: World)

  /** The outcome of the outside call a step makes, and the order in which a
      dictionary happens to be iterated. */
  datatype Choice = Choice(ok: bool, order: seq<Key>)

  const INITIAL: State :=
    State(map[], {}, map[], 0, map[], map[], World(Book(map[], map[]), 0, {}, map[], {}, {}))

  predicate IsFleet(req: Request) {
    req.Reconcile? || req.FleetLeave?
  }

  // --- Inside the target gate -----------------------------------------------------

  function Published(log: map<Key, seq<Publication>>, key: Key): seq<Publication> {
    if key in log then log[key] else []
  }

  function Append(log: map<Key, seq<Publication>>, key: Key, p: Publication): map<Key, seq<Publication>> {
    log[key := Published(log, key) + [p]]
  }

  /** The last successful connect or disconnect of the target is a connect. */
  predicate LastIsConnect(w: World, key: Key) {
    var l := Published(w.log, key);
    l != [] && l[|l| - 1] == ConnectMsg
  }

  /** _participant_count(room) == 0, possibly not counting the session itself. */
  ghost predicate RoomEmpty(w: World, sid: Sid, key: Key, excluding: bool) {
    forall x :: x in w.rooms && x.key == key ==> excluding && x.sid == sid
  }

  function First(job: Job): Body {
    match job.kind
    case Add => Acquiring
    case Drop => if job.owner == Individual then CheckingRoom else Releasing
    case Clean => Clearing
    case Use => Leaving(Nothing)
  }

  /** begin_connect would go to sleep here. */
  predicate Blocks(w: World, body: Body) {
    body.Beginning? && body.acq.owner.Some? && Begin(w.book, body.acq, w.nextToken).1.MustWait?
  }

  /** One step of a handler between entering and leaving the target gate. */
  ghost function BodyNext(w: World, sid: Sid, job: Job, body: Body, ok: bool): (World, Body) {
    var slot := Slot(sid, job.key);
    var fleet := job.owner == Fleet;
    match body
    case Acquiring =>
      var (book, acq) := Acquire(w.book, slot, job.owner);
      (w.(book := book), if acq.firstOwner then JoiningRoom(acq) else Beginning(acq))
    case JoiningRoom(acq) =>
      if ok then (w.(rooms := w.rooms + {slot}, strays := w.strays - {slot}), Beginning(acq))
      else if fleet then (w, RollingBack(acq))
      else (w.(strays := w.strays + {slot}), Leaving(Nothing))  // the exception leaves the handler
    case RollingBack(acq) =>
      (if acq.owner.Some? then w.(book := RollbackAcquire(w.book, acq).0) else w,
       Leaving(Refused(job.key)))
    case Beginning(acq) =>
      if acq.owner.None? then (w, Leaving(Nothing)) else
      var (book, attempt) := Begin(w.book, acq, w.nextToken);
      (match attempt
       case NotOwned => (w, Leaving(Refused(job.key)))
       case Claimed => (w.(book := book, nextToken := w.nextToken + 1), Publishing(acq, w.nextToken))
       case AlreadyEstablished => (w, Leaving(Connecting(job.key)))
       case MustWait => (w, body))
    case Publishing(acq, token) =>
      (if ok then w.(log := Append(w.log, job.key, ConnectMsg)) else w, Completing(acq, token, ok))
    case Completing(acq, token, sent) =>
      if acq.owner.None? then (w, Leaving(Nothing)) else
      var (book, completion) := Complete(w.book, acq, token, sent);
      (w.(book := book),
       match completion
       case Stale => if sent then Counting(true, Refused(job.key)) else Leaving(Refused(job.key))
       case Connected(active) => Leaving(if active then Connecting(job.key) else Refused(job.key))
       case Unsuccessful(rollback) =>
         if !sent && rollback.Some? && rollback.value.owners == {} then LeavingAfterFailure
         else Leaving(Refused(job.key)))
    case LeavingAfterFailure =>
      if ok then (w.(rooms := w.rooms - {slot}), Leaving(Refused(job.key)))
      else (w, if fleet then Restoring(Refused(job.key)) else Leaving(Nothing))
    case CheckingRoom => (w, if slot in w.rooms then CheckingOwner else Leaving(Nothing))
    case CheckingOwner => (w, if job.owner in Owners(w.book, slot) then Releasing else Leaving(Nothing))
    case Releasing =>
      var (book, tr) := Release(w.book, slot, job.owner);
      (w.(book := book),
       if !tr.changed then Leaving(Nothing)
       else if tr.finalOwner then LeavingRoom
       else Leaving(Removed(job.key)))
    case Clearing =>
      var (book, tr) := CleanupTarget(w.book, slot);
      (w.(book := book), if tr.changed then LeavingRoom else Leaving(Nothing))
    case LeavingRoom =>
      if ok then
        (w.(rooms := w.rooms - {slot}), Counting(job.kind == Clean, Removed(job.key)))
      else if job.kind == Clean then (w.(stranded := w.stranded + {sid}), Leaving(Aborted))
      else (w, if fleet then Restoring(Stuck(job.key)) else Leaving(Nothing))
    case Restoring(outcome) =>
      (w.(book := Acquire(w.book, slot, job.owner).0), Leaving(outcome))
    case Counting(excluding, outcome) =>
      // a membership that cannot be determined counts as one participant
      (w, if ok && RoomEmpty(w, sid, job.key, excluding) then Disconnecting(outcome) else Leaving(outcome))
    case Disconnecting(outcome) =>
      (if ok then w.(log := Append(w.log, job.key, DisconnectMsg)) else w, Leaving(outcome))
    case Leaving(outcome) => (w, body)
  }

  // --- Steps of a thread -----------------------------------------------------------

  /** Only thread t moved, and it is still the thread that served `th`'s request. */
  ghost predicate Moved(s: State, s': State, t: Tid, th: Thread) {
    && t in s'.threads && s'.threads == s.threads[t := s'.threads[t]]
    && s'.threads[t].sid == th.sid && s'.threads[t].req == th.req
  }

  function Goto(s: State, t: Tid, th: Thread): State {
    s.(threads := s.threads[t := th])
  }

  /** Where the thread goes on after a trip through a target gate. */
  function After(th: Thread, job: Job, outcome: Outcome): Pc {
    match th.req
    case Reconcile(_) => if job.kind == Add then Adding else Dropping
    case FleetLeave => Dropping
    case Disconnect => if outcome == Aborted then CloseLeaving else CleaningUp
    case _ => OpLeaving
  }

  /** Take a ticket at the target gate: enter, or sleep in its wait loop. */
  function ArriveTarget(s: State, t: Tid, th: Thread, job: Job): (s': State)
    ensures Moved(s, s', t, th) && s'.world == s.world
  {
    var q := Arrive(s.targetQ, job.key, t);
    if IsHead(q, job.key, t) then
      Goto(s, t, th.(pc := In(job, First(job)))).(targetQ := q)
    else
      Goto(s, t, th.(pc := AtGate(job))).(targetQ := q, asleep := s.asleep + {t})
  }

  /** Give the ticket back; every waiter of the target is notified. */
  function DepartTarget(s: State, t: Tid, th: Thread, key: Key): (s': State)
    ensures Moved(s, s', t, th) && s'.world == s.world
  {
    Goto(s, t, th).(
      targetQ := Depart(s.targetQ, key, t),
      asleep := set u | u in s.asleep && u !in QueueOf(s.targetQ, key))
  }

  function ArriveFleet(s: State, t: Tid, th: Thread): (s': State)
    ensures Moved(s, s', t, th) && s'.world == s.world
  {
    var q := Arrive(s.fleetQ, th.sid, t);
    if IsHead(q, th.sid, t) then Goto(s, t, th.(pc := Planning)).(fleetQ := q)
    else Goto(s, t, th.(pc := FleetWaiting)).(fleetQ := q, asleep := s.asleep + {t})
  }

  function DepartFleet(s: State, t: Tid, th: Thread): (s': State)
    ensures Moved(s, s', t, th) && s'.world == s.world
  {
    Goto(s, t, th.(pc := OpLeaving)).(
      fleetQ := Depart(s.fleetQ, th.sid, t),
      asleep := set u | u in s.asleep && u !in QueueOf(s.fleetQ, th.sid))
  }

  /** The lifecycle condition of one session: its closers sleep there. */
  function LifecycleWaiters(s: State, sid: Sid): set<Tid> {
    set u | u in s.asleep && u in s.threads && s.threads[u].sid == sid
            && (s.threads[u].pc.Draining? || s.threads[u].pc.Following?)
  }

  function StartNext(s: State, t: Tid, th: Thread): (s': State)
    ensures Moved(s, s', t, th) && s'.world == s.world
  {
    if th.req.Disconnect? then
      var recs := MarkClosing(s.recs, th.sid, s.nextRec);
      var s' := s.(recs := recs, nextRec := s.nextRec + 1);
      var th' := th.(rec := recs[th.sid].id);
      if !Accepts(s.recs, th.sid) then Goto(s', t, th'.(pc := Following)).(asleep := s.asleep + {t})
      else if recs[th.sid].active == 0 then Goto(s', t, th'.(pc := CleanPlanning))
      else Goto(s', t, th'.(pc := Draining)).(asleep := s.asleep + {t})
    else if Accepts(s.recs, th.sid) then
      var recs := Register(s.recs, th.sid, s.nextRec);
      Goto(s, t, th.(pc := Admitted, rec := recs[th.sid].id)).(recs := recs, nextRec := s.nextRec + 1)
    else
      Goto(s, t, th.(pc := Finished))
  }

  /** Authentication, the closing check, and target resolution for a join. */
  function AdmittedNext(s: State, t: Tid, th: Thread, ok: bool): (s': State)
    ensures Moved(s, s', t, th) && s'.world == s.world
  {
    if !ok || (th.sid in s.recs && s.recs[th.sid].closing) then Goto(s, t, th.(pc := OpLeaving))
    else match th.req
      case Join(key) => ArriveTarget(s, t, th, Job(Add, Individual, key))
      case Leave(key) => ArriveTarget(s, t, th, Job(Drop, Individual, key))
      case Command(key) => ArriveTarget(s, t, th, Job(Use, Individual, key))
      case _ => ArriveFleet(s, t, th)
  }

  ghost function PlanningNext(s: State, t: Tid, th: Thread): (s': State)
    ensures Moved(s, s', t, th) && s'.world == s.world
  {
    var owned := SnapshotOwnedBy(s.world.book, th.sid, Fleet);
    if th.req.Reconcile? then
      match Validate(th.req.payload)
      case None => Goto(s, t, th.(pc := FleetLeaving(true), results := [Blank]))
      case Some(entries) => Goto(s, t, th.(pc := Adding, entries := entries, current := owned))
    else
      Goto(s, t, th.(pc := Dropping, current := owned, keys := SortKeys(owned)))
  }

  ghost function AddingNext(s: State, t: Tid, th: Thread, ok: bool): (s': State)
    ensures Moved(s, s', t, th) && s'.world == s.world
  {
    if th.entries == [] then
      Goto(s, t, th.(pc := Dropping, keys := SortKeys(th.current - th.accepted)))
    else
      var rest := th.(entries := th.entries[1..]);
      match th.entries[0]
      case Unusable => Goto(s, t, rest.(results := th.results + [Blank]))
      case Usable(key) =>
        if ok then ArriveTarget(s, t, rest.(accepted := th.accepted + {key}), Job(Add, Fleet, key))
        else Goto(s, t, rest.(results := th.results + [Refused(key)]))
  }

  function DroppingNext(s: State, t: Tid, th: Thread): (s': State)
    ensures Moved(s, s', t, th) && s'.world == s.world
  {
    if th.keys == [] then Goto(s, t, th.(pc := FleetLeaving(true)))
    else ArriveTarget(s, t, th.(keys := th.keys[1..]), Job(Drop, Fleet, th.keys[0]))
  }

  function CleaningNext(s: State, t: Tid, th: Thread): (s': State)
    ensures Moved(s, s', t, th)
  {
    if th.keys == [] then
      Goto(s, t, th.(pc := CloseLeaving)).(
        world := s.world.(book := CleanupResidual(s.world.book, th.sid)))
    else ArriveTarget(s, t, th.(keys := th.keys[1..]), Job(Clean, Individual, th.keys[0]))
  }

  ghost function InNext(s: State, t: Tid, th: Thread, ok: bool): State
    requires th.pc.In?
  {
    var job, body := th.pc.job, th.pc.body;
    if body.Leaving? then
      DepartTarget(s, t,
        th.(pc := After(th, job, body.outcome),
            results := if IsFleet(th.req) && body.outcome != Nothing then th.results + [body.outcome]
                       else th.results),
        job.key)
    else if Blocks(s.world, body) then s.(asleep := s.asleep + {t})
    else
      var (w, body') := BodyNext(s.world, th.sid, job, body, ok);
      Goto(s, t, th.(pc := In(job, body'))).(world := w)
  }

  function OpLeavingNext(s: State, t: Tid, th: Thread): (s': State)
    ensures Moved(s, s', t, th) && s'.world == s.world
  {
    Goto(s, t, th.(pc := Finished)).(
      recs := if Attached(s.recs, th.sid, th.rec) && s.recs[th.sid].active > 0
              then Deregister(s.recs, th.sid) else s.recs,
      asleep := s.asleep - LifecycleWaiters(s, th.sid))
  }

  ghost predicate Awake(s: State, t: Tid) {
    t in s.threads && t !in s.asleep && s.threads[t].pc != Finished
  }

  ghost function Next(s: State, t: Tid, c: Choice): (s': State)
    requires Awake(s, t)
    ensures Moved(s, s', t, s.threads[t])
  {
    var th := s.threads[t];
    match th.pc
    case Start => StartNext(s, t, th)
    case Admitted => AdmittedNext(s, t, th, c.ok)
    case FleetWaiting =>
      if IsHead(s.fleetQ, th.sid, t) then Goto(s, t, th.(pc := Planning))
      else s.(asleep := s.asleep + {t})
    case Planning => PlanningNext(s, t, th)
    case Adding => AddingNext(s, t, th, c.ok)
    case Dropping => DroppingNext(s, t, th)
    case AtGate(job) =>
      if IsHead(s.targetQ, job.key, t) then Goto(s, t, th.(pc := In(job, First(job))))
      else s.(asleep := s.asleep + {t})
    case In(_, _) => InNext(s, t, th, c.ok)
    case FleetLeaving(_) => DepartFleet(s, t, th)
    case OpLeaving => OpLeavingNext(s, t, th)
    case Draining =>
      if Attached(s.recs, th.sid, th.rec) && s.recs[th.sid].active > 0 then s.(asleep := s.asleep + {t})
      else Goto(s, t, th.(pc := CleanPlanning))
    case Following =>
      if Attached(s.recs, th.sid, th.rec) then s.(asleep := s.asleep + {t})
      else Goto(s, t, th.(pc := Finished))
    case CleanPlanning =>
      var owned := SnapshotOwned(s.world.book, th.sid);
      Goto(s, t, th.(pc := CleaningUp, keys := if Lists(c.order, owned) then c.order else SortKeys(owned)))
    case CleaningUp => CleaningNext(s, t, th)
    case CloseLeaving =>
      Goto(s, t, th.(pc := Finished)).(
        recs := Forget(s.recs, th.sid, th.rec),
        asleep := s.asleep - LifecycleWaiters(s, th.sid))
    case Finished => s
  }

  // --- Runs --------------------------------------------------------------------------

  datatype Event =
    /** Socket.IO dispatches an event of a session to a new handler thread; none comes
        from a session whose disconnect failed. */
    | Spawn(t: Tid, sid: Sid, req: Request)
    | Step(t: Tid, c: Choice)
    /** A spurious wake-up. */
    | Stir(t: Tid)
    /** The wait for a gate is interrupted in an operation, not in a disconnect. */
    | Interrupt(t: Tid)
    /** The server forgets the rooms of a disconnected session, cleaned up or not. */
    | ForgetRooms(sid: Sid)

  ghost predicate Possible(s: State, e: Event) {
    match e
    case Spawn(t, sid, _) => t !in s.threads && sid !in s.world.stranded
    case Step(t, _) => Awake(s, t)
    case Stir(t) => t in s.asleep
    case Interrupt(t) =>
      t in s.threads && !s.threads[t].req.Disconnect?
      && (s.threads[t].pc.AtGate? || s.threads[t].pc.FleetWaiting?)
    case ForgetRooms(sid) => sid !in s.recs && (SnapshotOwned(s.world.book, sid) == {} || sid in s.world.stranded)
  }

  function InterruptNext(s: State, t: Tid, th: Thread): State {
    match th.pc
    case AtGate(job) =>
      DepartTarget(s, t, th.(pc := if IsFleet(th.req) then FleetLeaving(false) else OpLeaving), job.key)
    case _ => DepartFleet(s, t, th)
  }

  function WithoutRooms(w: World, sid: Sid): World {
    w.(rooms := (set x | x in w.rooms && x.sid != sid),
       strays := w.strays + (set x | x in w.book.own && x.sid == sid))
  }

  ghost function Occurs(s: State, e: Event): State
    requires Possible(s, e)
  {
    match e
    case Spawn(t, sid, req) => Goto(s, t, Thread(sid, req, Start, 0, [], {}, {}, [], []))
    case Step(t, c) => Next(s, t, c)
    case Stir(t) => s.(asleep := s.asleep - {t})
    case Interrupt(t) => InterruptNext(s, t, s.threads[t])
    case ForgetRooms(sid) => s.(world := WithoutRooms(s.world, sid))
  }

  ghost predicate Follows(s: State, e: Event, s': State) {
    Possible(s, e) && s' == Occurs(s, e)
  }

  ghost predicate Run(states: seq<State>, events: seq<Event>) {
    && |states| == |events| + 1
    && states[0] == INITIAL
    && forall i {:trigger events[i]} :: 0 <= i < |events| ==> Follows(states[i], events[i], states[i + 1])
  }
}
