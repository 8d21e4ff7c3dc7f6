/**
 * Who owns an RCON target, and who may publish its connect.
 *
 * The functions give the meaning of every registry operation on a flat view of
 * the bookkeeping; the class Registry keeps the nested per-session dictionaries
 * of the program and is proved to implement those functions.
 */
module RconOwnership {
  import opened Options
  import opened RconTypes

  datatype Conn = Pending(token: nat) | Established | Failed

  /** Flat view: owners and connection state per (session, target). */
  datatype Book = Book(own: map<Slot, set<Owner>>, conn: map<Slot, Conn>)

  datatype Transition = Transition(
    slot: Slot, owner: Option<Owner>, changed: bool,
    firstOwner: bool, finalOwner: bool, owners: set<Owner>)

  datatype Attempt = NotOwned | Claimed | AlreadyEstablished | MustWait

  datatype Completion =
    | Stale
    | Connected(claimantActive: bool)
    | Unsuccessful(rollback: Option<Transition>)

  function Owners(b: Book, slot: Slot): set<Owner> {
    if slot in b.own then b.own[slot] else {}
  }

  function WithOwners(b: Book, slot: Slot, owners: set<Owner>): Book {
    if owners == {} then b.(own := b.own - {slot}) else b.(own := b.own[slot := owners])
  }

  function DropConn(b: Book, slot: Slot): Book {
    b.(conn := b.conn - {slot})
  }

  function Acquire(b: Book, slot: Slot, owner: Owner): (Book, Transition) {
    var owners := Owners(b, slot);
    var changed := owner !in owners;
    (WithOwners(b, slot, owners + {owner}),
     Transition(slot, Some(owner), changed, changed && owners == {}, false, owners + {owner}))
  }

  function ReleaseLocked(b: Book, slot: Slot, owner: Owner): (Book, Transition) {
    var owners := Owners(b, slot);
    var changed := owner in owners;
    var left := owners - {owner};
    (WithOwners(b, slot, left),
     Transition(slot, Some(owner), changed, false, changed && left == {}, left))
  }

  function Release(b: Book, slot: Slot, owner: Owner): (Book, Transition) {
    var (b', tr) := ReleaseLocked(b, slot, owner);
    (if tr.finalOwner then DropConn(b', slot) else b', tr)
  }

  function RollbackAcquire(b: Book, acq: Transition): (Book, Transition)
    requires acq.owner.Some?
  {
    if !acq.changed then (b, acq.(firstOwner := false, finalOwner := false))
    else Release(b, acq.slot, acq.owner.value)
  }

  function RollbackLocked(b: Book, acq: Transition): (Book, Option<Transition>) {
    if !acq.changed || acq.owner.None? then (b, None)
    else var (b', tr) := ReleaseLocked(b, acq.slot, acq.owner.value); (b', Some(tr))
  }

  /** One pass of the wait loop: MustWait stands for going back to sleep. */
  function Begin(b: Book, acq: Transition, token: nat): (Book, Attempt)
    requires acq.owner.Some?
  {
    if acq.owner.value !in Owners(b, acq.slot) then (b, NotOwned)
    else if acq.slot !in b.conn || b.conn[acq.slot] == Failed then
      (b.(conn := b.conn[acq.slot := Pending(token)]), Claimed)
    else if b.conn[acq.slot] == Established then (b, AlreadyEstablished)
    else (b, MustWait)
  }

  predicate ClaimLive(b: Book, slot: Slot, token: nat) {
    slot in b.conn && b.conn[slot] == Pending(token)
  }

  function Complete(b: Book, acq: Transition, token: nat, succeeded: bool): (Book, Completion)
    requires acq.owner.Some?
  {
    if !ClaimLive(b, acq.slot, token) then (b, Stale)
    else if succeeded && Owners(b, acq.slot) != {} then
      (b.(conn := b.conn[acq.slot := Established]),
       Connected(acq.owner.value in Owners(b, acq.slot)))
    else
      var (b', rollback) := RollbackLocked(b, acq);
      (if Owners(b', acq.slot) != {} then b'.(conn := b'.conn[acq.slot := Failed])
       else DropConn(b', acq.slot),
       Unsuccessful(rollback))
  }

  function CleanupTarget(b: Book, slot: Slot): (Book, Transition) {
    var changed := Owners(b, slot) != {};
    (DropConn(WithOwners(b, slot, {}), slot),
     Transition(slot, None, changed, false, changed, {}))
  }

  function CleanupResidual(b: Book, sid: Sid): Book {
    b.(conn := map slot | slot in b.conn && (slot.sid != sid || slot in b.own) :: b.conn[slot])
  }

  ghost function SnapshotOwned(b: Book, sid: Sid): (keys: set<Key>)
    ensures forall k :: k in keys <==> Slot(sid, k) in b.own
  {
    set slot | slot in b.own && slot.sid == sid :: slot.key
  }

  ghost function SnapshotOwnedBy(b: Book, sid: Sid, owner: Owner): (keys: set<Key>)
    ensures forall k :: k in keys <==> owner in Owners(b, Slot(sid, k))
  {
    set slot | slot in b.own && slot.sid == sid && owner in b.own[slot] :: slot.key
  }

  // --- What every operation keeps -------------------------------------------

  /** No empty owner set is kept, and a connection state belongs to an owned target. */
  ghost predicate BookOk(b: Book) {
    && (forall slot :: slot in b.own ==> b.own[slot] != {})
    && (forall slot :: slot in b.conn ==> slot in b.own)
  }

  /** Every registry mutation, as the lock makes it: one atomic step. */
  datatype Op =
    | OpAcquire(slot: Slot, owner: Owner)
    | OpRelease(slot: Slot, owner: Owner)
    | OpRollback(acq: Transition)
    | OpBegin(acq: Transition, token: nat)
    | OpComplete(acq: Transition, token: nat, succeeded: bool)
    | OpCleanup(slot: Slot)
    | OpResidual(sid: Sid)

  ghost predicate Callable(op: Op) {
    (op.OpRollback? || op.OpBegin? || op.OpComplete?) ==> op.acq.owner.Some?
  }

  function Apply(b: Book, op: Op): Book
    requires Callable(op)
  {
    match op
    case OpAcquire(slot, owner) => Acquire(b, slot, owner).0
    case OpRelease(slot, owner) => Release(b, slot, owner).0
    case OpRollback(acq) => RollbackAcquire(b, acq).0
    case OpBegin(acq, token) => Begin(b, acq, token).0
    case OpComplete(acq, token, succeeded) => Complete(b, acq, token, succeeded).0
    case OpCleanup(slot) => CleanupTarget(b, slot).0
    case OpResidual(sid) => CleanupResidual(b, sid)
  }

  /** Whether the operation ends with notify_all on its session's condition. */
  function Notifies(b: Book, op: Op): bool
    requires Callable(op)
  {
    match op
    case OpAcquire(_, _) => false
    case OpRelease(slot, owner) => Release(b, slot, owner).1.changed
    case OpRollback(acq) => acq.changed && Release(b, acq.slot, acq.owner.value).1.changed
    case OpBegin(_, _) => false
    case OpComplete(acq, token, succeeded) => !Complete(b, acq, token, succeeded).1.Stale?
    case OpCleanup(slot) => CleanupTarget(b, slot).1.changed
    case OpResidual(_) => true
  }

  function SessionOf(op: Op): Sid {
    match op
    case OpResidual(sid) => sid
    case OpAcquire(s, _) => s.sid
    case OpRelease(s, _) => s.sid
    case OpCleanup(s) => s.sid
    case OpRollback(acq) => acq.slot.sid
    case OpBegin(acq, _) => acq.slot.sid
    case OpComplete(acq, _, _) => acq.slot.sid
  }

  function SlotOf(op: Op): Slot
    requires !op.OpResidual?
  {
    match op
    case OpAcquire(s, _) => s
    case OpRelease(s, _) => s
    case OpCleanup(s) => s
    case OpRollback(acq) => acq.slot
    case OpBegin(acq, _) => acq.slot
    case OpComplete(acq, _, _) => acq.slot
  }

  ghost predicate SameSlot(b: Book, b': Book, x: Slot) {
    && (x in b.own <==> x in b'.own) && (x in b.own ==> b.own[x] == b'.own[x])
    && (x in b.conn <==> x in b'.conn) && (x in b.conn ==> b.conn[x] == b'.conn[x])
  }

  /** An operation on one slot leaves every other slot alone. */
  lemma OpLocal(b: Book, op: Op, x: Slot)
    requires Callable(op) && !op.OpResidual? && x != SlotOf(op)
    ensures SameSlot(b, Apply(b, op), x)
  {
  }

  /** A thread of `owner` asleep in begin_connect still has to sleep. */
  ghost predicate Blocked(b: Book, slot: Slot, owner: Owner) {
    owner in Owners(b, slot) && slot in b.conn && b.conn[slot].Pending?
  }

  lemma CompleteKeepsBook(b: Book, acq: Transition, token: nat, succeeded: bool)
    requires BookOk(b) && acq.owner.Some?
    ensures BookOk(Complete(b, acq, token, succeeded).0)
  {
    if ClaimLive(b, acq.slot, token) {
      var r := RollbackLocked(b, acq).0;
      assert forall slot :: slot in r.own ==> r.own[slot] != {};
    }
  }

  lemma OpKeepsBook(b: Book, op: Op)
    requires BookOk(b) && Callable(op)
    ensures BookOk(Apply(b, op))
  {
    match op
    case OpComplete(acq, token, succeeded) =>
      CompleteKeepsBook(b, acq, token, succeeded);
    case _ =>
  }

  ghost function ApplyAll(b: Book, ops: seq<Op>): Book
    requires forall i :: 0 <= i < |ops| ==> Callable(ops[i])
    decreases |ops|
  {
    if ops == [] then b else ApplyAll(Apply(b, ops[0]), ops[1..])
  }

  /** Whatever the interleaving of registry calls, with or without the gates,
      nothing empty is left behind and only owned targets have a state. */
  lemma {:induction false} BookOkAlways(b: Book, ops: seq<Op>)
    requires BookOk(b)
    requires forall i :: 0 <= i < |ops| ==> Callable(ops[i])
    ensures BookOk(ApplyAll(b, ops))
    decreases |ops|
  {
    if ops != [] {
      OpKeepsBook(b, ops[0]);
      BookOkAlways(Apply(b, ops[0]), ops[1..]);
    }
  }

  /** So the residual sweep at the end of a disconnect never has anything to drop. */
  lemma {:induction false} ResidualSweepIsIdle(ops: seq<Op>, sid: Sid)
    requires forall i :: 0 <= i < |ops| ==> Callable(ops[i])
    ensures var b := ApplyAll(Book(map[], map[]), ops); CleanupResidual(b, sid) == b
  {
    BookOkAlways(Book(map[], map[]), ops);
    var b := ApplyAll(Book(map[], map[]), ops);
    assert CleanupResidual(b, sid).conn == b.conn;
  }

  /** No lost wake-up: an operation that unblocks a sleeper is one that notifies
      the condition that sleeper waits on. */
  lemma UnblockingNotifies(b: Book, op: Op, slot: Slot, owner: Owner)
    requires BookOk(b) && Callable(op)
    requires Blocked(b, slot, owner) && !Blocked(Apply(b, op), slot, owner)
    ensures Notifies(b, op)
    ensures slot.sid == SessionOf(op)
  {
    match op
    case OpComplete(acq, token, succeeded) =>
      if slot != acq.slot { OpLocal(b, op, slot); }
    case _ =>
  }

  /** At most one claim per session and target can still complete, and a stale
      one changes nothing. */
  lemma OneLiveClaim(b: Book, acq: Transition, t1: nat, t2: nat, ok: bool)
    requires acq.owner.Some? && t1 != t2
    ensures Complete(b, acq, t1, ok).1.Stale? || Complete(b, acq, t2, ok).1.Stale?
    ensures Complete(b, acq, t1, ok).1.Stale? ==> Complete(b, acq, t1, ok).0 == b
  {
    if ClaimLive(b, acq.slot, t1) {
      assert !ClaimLive(b, acq.slot, t2);
    }
  }

  /** Acquiring and rolling back is the identity on ownership, also when another
      owner was already there. */
  lemma RollbackUndoesAcquire(b: Book, slot: Slot, owner: Owner)
    requires BookOk(b)
    ensures RollbackAcquire(Acquire(b, slot, owner).0, Acquire(b, slot, owner).1).0 == b
  {
    var (b1, tr) := Acquire(b, slot, owner);
    if tr.changed {
      var b2 := Release(b1, slot, owner).0;
      assert Owners(b, slot) + {owner} - {owner} == Owners(b, slot);
      assert b2.own == b.own;
      assert b2.conn == b.conn;
    } else {
      assert Owners(b, slot) + {owner} == Owners(b, slot);
      assert b1.own == b.own;
    }
  }

  // --- The nested dictionaries ------------------------------------------------

  ghost function Flat<V>(m: map<Sid, map<Key, V>>): map<Slot, V> {
    map sid, key | sid in m && key in m[sid] :: Slot(sid, key) := m[sid][key]
  }

  ghost predicate NoEmpty<V>(m: map<Sid, map<Key, V>>) {
    forall sid :: sid in m ==> m[sid] != map[]
  }

  /** setdefault the session's map, then store. */
  function Put<V>(m: map<Sid, map<Key, V>>, slot: Slot, v: V): (m': map<Sid, map<Key, V>>)
    ensures Flat(m') == Flat(m)[slot := v]
    ensures NoEmpty(m) ==> NoEmpty(m')
  {
    var inner := (if slot.sid in m then m[slot.sid] else map[])[slot.key := v];
    var m' := m[slot.sid := inner];
    assert slot.key in inner;
    assert forall x: Slot :: x in Flat(m') <==> x == slot || x in Flat(m) by {
      forall x: Slot ensures x in Flat(m') <==> x == slot || x in Flat(m) {
        assert x == Slot(x.sid, x.key) && slot == Slot(slot.sid, slot.key);
      }
    }
    m'
  }

  /** Popping a key, and the session's map with it once that is empty. */
  function Pop<V>(m: map<Sid, map<Key, V>>, slot: Slot): (m': map<Sid, map<Key, V>>)
    ensures Flat(m') == Flat(m) - {slot}
    ensures NoEmpty(m) ==> NoEmpty(m')
  {
    if slot.sid !in m then
      assert Flat(m) - {slot} == Flat(m);
      m
    else
      var inner := m[slot.sid] - {slot.key};
      var m' := if inner.Keys == {} then m - {slot.sid} else m[slot.sid := inner];
      assert forall x: Slot :: x in Flat(m') <==> x != slot && x in Flat(m) by {
        forall x: Slot ensures x in Flat(m') <==> x != slot && x in Flat(m) {
          assert x == Slot(x.sid, x.key) && slot == Slot(slot.sid, slot.key);
          if x.sid == slot.sid && x.key in inner { assert inner.Keys != {}; }
        }
      }
      m'
  }

  lemma FlatAt<V>(m: map<Sid, map<Key, V>>, slot: Slot)
    ensures slot in Flat(m) <==> slot.sid in m && slot.key in m[slot.sid]
    ensures slot in Flat(m) ==> Flat(m)[slot] == m[slot.sid][slot.key]
  {
    assert slot == Slot(slot.sid, slot.key);
  }

  class Registry {
    var registry: map<Sid, map<Key, set<Owner>>>
    var states: map<Sid, map<Key, Conn>>
    var nextToken: nat

    /** The flat view of the two dictionaries. */
    ghost var book: Book

    /** The dictionaries spell out the book, and no per-session one is left empty. */
    ghost predicate Represents()
      reads this
    {
      NoEmpty(registry) && NoEmpty(states) && book == Book(Flat(registry), Flat(states))
    }

    ghost predicate Valid()
      reads this
    {
      Represents() && BookOk(book)
    }

    constructor ()
      ensures Valid() && book == Book(map[], map[])
    {
      registry, states, nextToken := map[], map[], 0;
      book := Book(map[], map[]);
    }

    method OwnersOf(slot: Slot) returns (owners: set<Owner>)
      requires Represents()
      ensures owners == Owners(book, slot)
    {
      FlatAt(registry, slot);
      owners := if slot.sid in registry && slot.key in registry[slot.sid]
                then registry[slot.sid][slot.key] else {};
    }

    method StateOf(slot: Slot) returns (state: Option<Conn>)
      requires Represents()
      ensures state == if slot in book.conn then Some(book.conn[slot]) else None
    {
      FlatAt(states, slot);
      state := if slot.sid in states && slot.key in states[slot.sid]
               then Some(states[slot.sid][slot.key]) else None;
    }

    method StoreOwners(slot: Slot, owners: set<Owner>)
      requires Represents()
      modifies this`registry, this`book
      ensures Represents()
      ensures book == WithOwners(old(book), slot, owners)
    {
      registry := if owners == {} then Pop(registry, slot) else Put(registry, slot, owners);
      book := WithOwners(book, slot, owners);
    }

    method StoreState(slot: Slot, state: Conn)
      requires Represents()
      modifies this`states, this`book
      ensures Represents()
      ensures book == old(book).(conn := old(book).conn[slot := state])
    {
      states := Put(states, slot, state);
      book := book.(conn := book.conn[slot := state]);
    }

    method DropConnectionState(slot: Slot)
      requires Represents()
      modifies this`states, this`book
      ensures Represents()
      ensures book == DropConn(old(book), slot)
    {
      states := Pop(states, slot);
      book := DropConn(book, slot);
    }

    method AcquireOwner(slot: Slot, owner: Owner) returns (tr: Transition)
      requires Valid()
      modifies this`registry, this`book
      ensures Valid()
      ensures (book, tr) == Acquire(old(book), slot, owner)
    {
      OpKeepsBook(book, OpAcquire(slot, owner));
      var owners := OwnersOf(slot);
      StoreOwners(slot, owners + {owner});
      tr := Transition(slot, Some(owner), owner !in owners, owner !in owners && owners == {},
                       false, owners + {owner});
    }

    method ReleaseOwnerLocked(slot: Slot, owner: Owner) returns (tr: Transition)
      requires Represents()
      modifies this`registry, this`book
      ensures Represents()
      ensures (book, tr) == ReleaseLocked(old(book), slot, owner)
    {
      var owners := OwnersOf(slot);
      StoreOwners(slot, owners - {owner});
      tr := Transition(slot, Some(owner), owner in owners, false,
                       owner in owners && owners - {owner} == {}, owners - {owner});
    }

    method ReleaseOwner(slot: Slot, owner: Owner) returns (tr: Transition, notify: bool)
      requires Valid()
      modifies this`registry, this`states, this`book
      ensures Valid()
      ensures (book, tr) == Release(old(book), slot, owner)
      ensures notify == Notifies(old(book), OpRelease(slot, owner))
    {
      OpKeepsBook(book, OpRelease(slot, owner));
      tr := ReleaseOwnerLocked(slot, owner);
      if tr.finalOwner { DropConnectionState(slot); }
      notify := tr.changed;
    }

    method RollbackAcquisition(acq: Transition) returns (tr: Transition, notify: bool)
      requires Valid() && acq.owner.Some?
      modifies this`registry, this`states, this`book
      ensures Valid()
      ensures (book, tr) == RollbackAcquire(old(book), acq)
      ensures notify == Notifies(old(book), OpRollback(acq))
    {
      if !acq.changed { return acq.(firstOwner := false, finalOwner := false), false; }
      tr, notify := ReleaseOwner(acq.slot, acq.owner.value);
    }

    /** One pass of begin_connect's loop; MustWait means the caller sleeps. */
    method BeginConnect(acq: Transition) returns (attempt: Attempt, token: nat)
      requires Valid() && acq.owner.Some?
      modifies this`states, this`nextToken, this`book
      ensures Valid()
      ensures token == old(nextToken)
      ensures attempt.Claimed? ==> nextToken == token + 1
      ensures (book, attempt) == Begin(old(book), acq, token)
    {
      ghost var b := book;
      token := nextToken;
      var owners := OwnersOf(acq.slot);
      var state := StateOf(acq.slot);
      if acq.owner.value !in owners {
        attempt := NotOwned;
      } else if state.None? || state.value == Failed {
        StoreState(acq.slot, Pending(token));
        nextToken := nextToken + 1;
        attempt := Claimed;
      } else if state.value == Established {
        attempt := AlreadyEstablished;
      } else {
        attempt := MustWait;
      }
      assert (book, attempt) == Begin(b, acq, token);
      OpKeepsBook(b, OpBegin(acq, token));
    }

    /** The failure branch of complete_connect. */
    method FailConnect(acq: Transition) returns (rollback: Option<Transition>)
      requires Represents() && acq.owner.Some?
      modifies this`registry, this`states, this`book
      ensures Represents()
      ensures rollback == RollbackLocked(old(book), acq).1
      ensures var b := RollbackLocked(old(book), acq).0;
              book == if Owners(b, acq.slot) != {} then b.(conn := b.conn[acq.slot := Failed])
                        else DropConn(b, acq.slot)
    {
      rollback := None;
      if acq.changed {
        var tr := ReleaseOwnerLocked(acq.slot, acq.owner.value);
        rollback := Some(tr);
      }
      var owners := OwnersOf(acq.slot);
      if owners != {} {
        StoreState(acq.slot, Failed);
      } else {
        DropConnectionState(acq.slot);
      }
    }

    method CompleteConnect(acq: Transition, token: nat, succeeded: bool)
      returns (completion: Completion, notify: bool)
      requires Valid() && acq.owner.Some?
      modifies this`registry, this`states, this`book
      ensures Valid()
      ensures (book, completion) == Complete(old(book), acq, token, succeeded)
      ensures notify == !completion.Stale?
    {
      ghost var b := book;
      var state := StateOf(acq.slot);
      var owners := OwnersOf(acq.slot);
      assert state == Some(Pending(token)) <==> ClaimLive(b, acq.slot, token);
      if state != Some(Pending(token)) {
        completion := Stale;
      } else if succeeded && owners != {} {
        StoreState(acq.slot, Established);
        completion := Connected(acq.owner.value in owners);
      } else {
        var rollback := FailConnect(acq);
        completion := Unsuccessful(rollback);
      }
      notify := !completion.Stale?;
      assert completion == Complete(b, acq, token, succeeded).1;
      CompleteKeepsBook(b, acq, token, succeeded);
    }

    method CleanupOneTarget(slot: Slot) returns (tr: Transition, notify: bool)
      requires Valid()
      modifies this`registry, this`states, this`book
      ensures Valid()
      ensures (book, tr) == CleanupTarget(old(book), slot)
      ensures notify == Notifies(old(book), OpCleanup(slot))
    {
      OpKeepsBook(book, OpCleanup(slot));
      var owners := OwnersOf(slot);
      StoreOwners(slot, {});
      DropConnectionState(slot);
      tr := Transition(slot, None, owners != {}, false, owners != {}, {});
      notify := owners != {};
    }
  }
}
