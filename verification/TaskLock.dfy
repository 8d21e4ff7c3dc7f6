/**
 * Locks on entities and the backup maintenance lock, kept in Redis: every script is one
 * atomic step, a key vanishes when its time to live has passed, and the index of entity
 * locks keeps the names of keys that vanished.
 */
module TaskLock {
  import opened Options
  import opened Sorting

  type Token = nat

  datatype Entity = Entity(kind: string, id: int)

  datatype Lock = Lock(token: Token, expires: nat)

  const MAINTENANCE_TTL: nat := 1800

  datatype Keys = Keys(locks: map<Entity, Lock>, maintenance: Option<Lock>, index: set<Entity>, now: nat)

  const EMPTY: Keys := Keys(map[], None, {}, 0)

  predicate Live(s: Keys, k: Entity) {
    k in s.locks && s.now < s.locks[k].expires
  }

  predicate Maintained(s: Keys) {
    s.maintenance.Some? && s.now < s.maintenance.value.expires
  }

  predicate Holds(s: Keys, k: Entity, token: Token) {
    Live(s, k) && s.locks[k].token == token
  }

  /** lock_superseded: another operation holds the entity's lock now. */
  predicate Superseded(s: Keys, k: Entity, token: Token) {
    Live(s, k) && s.locks[k].token != token
  }

  function AcquireEntity(s: Keys, k: Entity, token: Token, ttl: nat): (Keys, bool) {
    if Maintained(s) || Live(s, k) then (s, false)
    else (s.(locks := s.locks[k := Lock(token, s.now + ttl)], index := s.index + {k}), true)
  }

  function ReleaseEntity(s: Keys, k: Entity, token: Token): (Keys, bool) {
    if Holds(s, k, token) then (s.(locks := s.locks - {k}, index := s.index - {k}), true) else (s, false)
  }

  function ForceRelease(s: Keys, k: Entity): (Keys, bool) {
    (s.(locks := s.locks - {k}, index := s.index - {k}), Live(s, k))
  }

  /** The members found dead before the walk over the index met a live one. */
  function Pruned(s: Keys, walk: seq<Entity>): set<Entity> {
    if walk == [] || Live(s, walk[0]) then {} else {walk[0]} + Pruned(s, walk[1..])
  }

  predicate MeetsLive(s: Keys, walk: seq<Entity>) {
    exists i :: 0 <= i < |walk| && Live(s, walk[i])
  }

  /** `walk` is the order in which the members come back. */
  function AcquireMaintenance(s: Keys, walk: seq<Entity>, token: Token): (Keys, bool) {
    if Maintained(s) then (s, false)
    else
      var swept := s.(index := s.index - Pruned(s, walk));
      if MeetsLive(s, walk) then (swept, false)
      else (swept.(maintenance := Some(Lock(token, s.now + MAINTENANCE_TTL))), true)
  }

  function ReleaseMaintenance(s: Keys, token: Token): (Keys, bool) {
    if Maintained(s) && s.maintenance.value.token == token then (s.(maintenance := None), true) else (s, false)
  }

  ghost predicate WalksIndex(s: Keys, walk: seq<Entity>) {
    forall k :: k in walk <==> k in s.index
  }

  // --- Safety -------------------------------------------------------------------------

  /** Every live entity lock is in the index, and none is live during maintenance. */
  ghost predicate Exclusive(s: Keys) {
    && (forall k :: Live(s, k) ==> k in s.index)
    && (Maintained(s) ==> forall k :: !Live(s, k))
  }

  lemma {:induction false} PrunedAreDead(s: Keys, walk: seq<Entity>, k: Entity)
    requires k in Pruned(s, walk)
    ensures !Live(s, k) && k in walk
  {
    if k != walk[0] { PrunedAreDead(s, walk[1..], k); }
  }

  /** A walk that meets nothing live removes the whole index. */
  lemma {:induction false} AllPruned(s: Keys, walk: seq<Entity>)
    requires !MeetsLive(s, walk)
    ensures Pruned(s, walk) == set k | k in walk
  {
    if walk != [] {
      assert !Live(s, walk[0]);
      assert !MeetsLive(s, walk[1..]) by {
        assert forall i :: 0 <= i < |walk[1..]| ==> walk[1..][i] == walk[i + 1];
      }
      AllPruned(s, walk[1..]);
      assert walk == [walk[0]] + walk[1..];
    }
  }

  lemma MaintenanceKeeps(s: Keys, walk: seq<Entity>, token: Token)
    requires Exclusive(s) && WalksIndex(s, walk)
    ensures Exclusive(AcquireMaintenance(s, walk, token).0)
    ensures AcquireMaintenance(s, walk, token).1 ==> forall k :: !Live(s, k)
  {
    forall k | k in Pruned(s, walk) ensures !Live(s, k) { PrunedAreDead(s, walk, k); }
    if !MeetsLive(s, walk) {
      assert forall k :: k in walk ==> !Live(s, k);
    }
  }

  /** Maintenance is taken exactly when neither it nor any entity lock is live; what a
      refused try removed from the index was dead. */
  lemma MaintenanceExactly(s: Keys, walk: seq<Entity>, token: Token)
    requires Exclusive(s) && WalksIndex(s, walk)
    ensures AcquireMaintenance(s, walk, token).1 <==> !Maintained(s) && forall k :: !Live(s, k)
    ensures AcquireMaintenance(s, walk, token).1 ==> AcquireMaintenance(s, walk, token).0.index == {}
    ensures forall k :: k in s.index && k !in AcquireMaintenance(s, walk, token).0.index ==> !Live(s, k)
  {
    MaintenanceKeeps(s, walk, token);
    forall k | k in Pruned(s, walk) ensures !Live(s, k) { PrunedAreDead(s, walk, k); }
    if !MeetsLive(s, walk) { AllPruned(s, walk); }
  }

  /** The Redis that the clients share. */
  class Redis {
    var locks: map<Entity, Lock>
    var maintenance: Option<Lock>
    var index: set<Entity>
    var now: nat

    constructor ()
      ensures State() == EMPTY
    {
      locks, maintenance, index, now := map[], None, {}, 0;
    }

    ghost function State(): Keys
      reads this
    {
      Keys(locks, maintenance, index, now)
    }

    method Exists(k: Entity) returns (yes: bool)
      ensures yes <==> Live(State(), k)
    {
      yes := k in locks && now < locks[k].expires;
    }

    method Acquire(k: Entity, token: Token, ttl: nat) returns (ok: bool)
      modifies `locks, `index
      ensures (State(), ok) == AcquireEntity(old(State()), k, token, ttl)
    {
      if maintenance.Some? && now < maintenance.value.expires { return false; }
      var held := Exists(k);
      if held { return false; }
      locks, index := locks[k := Lock(token, now + ttl)], index + {k};
      return true;
    }

    method Release(k: Entity, token: Token) returns (ok: bool)
      modifies `locks, `index
      ensures (State(), ok) == ReleaseEntity(old(State()), k, token)
    {
      var held := Exists(k);
      if !held || locks[k].token != token { return false; }
      locks, index := locks - {k}, index - {k};
      return true;
    }

    method Force(k: Entity) returns (ok: bool)
      modifies `locks, `index
      ensures (State(), ok) == ForceRelease(old(State()), k)
    {
      ok := Exists(k);
      locks, index := locks - {k}, index - {k};
    }

    /** Releases the locks that the token holds among these. */
    method ReleaseLocks(ids: seq<Entity>, token: Token)
      modifies `locks, `index
      ensures forall k :: k in locks <==> k in old(locks) && !(k in ids && Holds(old(State()), k, token))
      ensures forall k :: k in locks ==> locks[k] == old(locks)[k]
    {
      for i := 0 to |ids|
        invariant forall k :: k in locks <==> k in old(locks) && !(k in ids[..i] && Holds(old(State()), k, token))
        invariant forall k :: k in locks ==> locks[k] == old(locks)[k]
      {
        var released := Release(ids[i], token);
        assert ids[..i + 1] == ids[..i] + [ids[i]];
      }
      assert ids[..|ids|] == ids;
    }

    /** All of the entities, in stable order and each once, or none: uninterrupted, it
        succeeds exactly when there is nothing to take or no maintenance and no live lock
        on any of them, and a failure leaves every live lock as it was. */
    method AcquireLocks(kind: string, ids: seq<int>, token: Token, ttl: nat) returns (ok: bool)
      requires ttl > 0
      modifies `locks, `index
      ensures ok <==> ids == [] || (!Maintained(old(State())) && forall id :: id in ids ==> !Live(old(State()), Entity(kind, id)))
      ensures ok ==> forall id :: id in ids ==> Holds(State(), Entity(kind, id), token)
      ensures forall k: Entity :: !ok || k.kind != kind || k.id !in ids ==>
                (Live(State(), k) <==> Live(old(State()), k)) && (Live(State(), k) ==> locks[k] == old(locks)[k])
    {
      var order := Sort(set id | id in ids, (a: int, b: int) => a <= b);
      assert forall id :: id in ids <==> id in order;
      assert order == [] ==> ids == [] by { assert ids != [] ==> ids[0] in ids; }
      assert ids == [] ==> order == [] by { assert order != [] ==> order[0] in order; }
      var entities := seq(|order|, i requires 0 <= i < |order| => Entity(kind, order[i]));
      assert forall id :: id in order ==> Entity(kind, id) in entities by {
        forall id | id in order ensures Entity(kind, id) in entities {
          var i :| 0 <= i < |order| && order[i] == id;
          assert entities[i] == Entity(kind, id);
        }
      }
      ok := AcquireInOrder(entities, token, ttl);
    }

    method AcquireInOrder(ids: seq<Entity>, token: Token, ttl: nat) returns (ok: bool)
      requires (forall i, j :: 0 <= i < j < |ids| ==> ids[i] != ids[j]) && ttl > 0
      modifies `locks, `index
      ensures ok <==> ids == [] || (!Maintained(old(State())) && forall k :: k in ids ==> !Live(old(State()), k))
      ensures ok ==> forall k :: k in ids ==> Holds(State(), k, token)
      ensures forall k :: !ok || k !in ids ==>
                (Live(State(), k) <==> Live(old(State()), k)) && (Live(State(), k) ==> locks[k] == old(locks)[k])
    {
      ghost var was := State();
      for i := 0 to |ids|
        invariant forall j :: 0 <= j < i ==> Holds(State(), ids[j], token) && !Live(was, ids[j])
        invariant i > 0 ==> !Maintained(was)
        invariant forall k :: k !in ids[..i] ==>
                    (Live(State(), k) <==> Live(was, k)) && (Live(State(), k) ==> locks[k] == was.locks[k])
      {
        assert ids[i] !in ids[..i];
        ok := Acquire(ids[i], token, ttl);
        if !ok {
          assert ids[i] in ids && (Maintained(was) || Live(was, ids[i]));
          ReleaseLocks(ids[..i], token);
          return false;
        }
        assert ids[..i + 1] == ids[..i] + [ids[i]];
      }
      return true;
    }

    /** Walks the index, dropping the members whose key is gone. */
    method TakeMaintenance(walk: seq<Entity>, token: Token) returns (ok: bool)
      requires WalksIndex(State(), walk)
      modifies `maintenance, `index
      ensures (State(), ok) == AcquireMaintenance(old(State()), walk, token)
    {
      if maintenance.Some? && now < maintenance.value.expires { return false; }
      ghost var was := State();
      for i := 0 to |walk|
        invariant maintenance == was.maintenance
        invariant forall j :: 0 <= j < i ==> !Live(was, walk[j])
        invariant was.index - Pruned(was, walk) == index - Pruned(was, walk[i..])
      {
        assert walk[i..][0] == walk[i] && walk[i..][1..] == walk[i + 1..];
        var live := Exists(walk[i]);
        if live {
          assert Live(was, walk[i]) && MeetsLive(was, walk);
          assert index - Pruned(was, walk[i..]) == index;
          return false;
        }
        index := index - {walk[i]};
      }
      assert walk[|walk|..] == [] && index - {} == index;
      maintenance := Some(Lock(token, now + MAINTENANCE_TTL));
      return true;
    }

    method DropMaintenance(token: Token) returns (ok: bool)
      modifies `maintenance
      ensures (State(), ok) == ReleaseMaintenance(old(State()), token)
    {
      if maintenance.None? || maintenance.value.expires <= now || maintenance.value.token != token { return false; }
      maintenance := None;
      return true;
    }
  }

  // --- Clients -------------------------------------------------------------------------

  /** A command is answered, or it is never sent, or it runs and the answer is lost. */
  datatype Net = Answered | Unsent | Lost

  /** acquire_locks for the sorted list of its ids, each once; `since` is when it began. */
  datatype Client =
    | Acquiring(ids: seq<Entity>, ttl: nat, since: nat, next: nat)
    | Granted(ids: seq<Entity>, ttl: nat, since: nat)
    | Undoing(ids: seq<Entity>, next: nat)
    | Refused

  datatype World = World(keys: Keys, clients: map<Token, Client>)

  const NEW_WORLD: World := World(EMPTY, map[])

  datatype Event =
    | Begin(token: Token, ids: seq<Entity>, ttl: nat)
    | Proceed(token: Token, net: Net)
    | Free(token: Token, ids: seq<Entity>)          // a granted client releases
    | Override(k: Entity)
    | Backup(walk: seq<Entity>, token: Token)
    | EndBackup(token: Token)
    | Pass(time: nat)

  ghost predicate Possible(w: World, e: Event) {
    match e
    case Begin(token, ids, _) => token !in w.clients && NoRepeats(ids)
    case Proceed(token, _) => token in w.clients && (w.clients[token].Acquiring? || w.clients[token].Undoing?)
    case Free(token, ids) => token in w.clients && w.clients[token].Granted? && ids == w.clients[token].ids
    case Backup(walk, _) => WalksIndex(w.keys, walk)
    case _ => true
  }

  function Set(w: World, token: Token, c: Client): World {
    w.(clients := w.clients[token := c])
  }

  function Proceeds(w: World, token: Token, c: Client, net: Net): World
    requires c.Acquiring? || c.Undoing?
  {
    match c
    case Acquiring(ids, ttl, since, next) =>
      if next >= |ids| then Set(w, token, Granted(ids, ttl, since))
      else
        var (keys, ok) := AcquireEntity(w.keys, ids[next], token, ttl);
        if net == Unsent then Set(w, token, Undoing(ids[..next], 0))
        else if net == Lost then
          Set(w, token, Undoing(ids[..next], 0)).(keys := keys)
        else Set(w, token, if ok then Acquiring(ids, ttl, since, next + 1) else Undoing(ids[..next], 0)).(keys := keys)
    case Undoing(ids, next) =>
      if next >= |ids| then Set(w, token, Refused)
      else if net == Unsent then
        Set(w, token, Undoing(ids, next + 1))
      else
        Set(w, token, Undoing(ids, next + 1)).(keys := ReleaseEntity(w.keys, ids[next], token).0)
  }

  ghost function Occurs(w: World, e: Event): World {
    match e
    case Begin(token, ids, ttl) => Set(w, token, Acquiring(ids, ttl, w.keys.now, 0))
    case Proceed(token, net) =>
      if token in w.clients && (w.clients[token].Acquiring? || w.clients[token].Undoing?)
      then Proceeds(w, token, w.clients[token], net) else w
    case Free(token, ids) => Set(w, token, Undoing(ids, 0))
    case Override(k) => w.(keys := ForceRelease(w.keys, k).0)
    case Backup(walk, token) => w.(keys := AcquireMaintenance(w.keys, walk, token).0)
    case EndBackup(token) => w.(keys := ReleaseMaintenance(w.keys, token).0)
    case Pass(time) => w.(keys := w.keys.(now := w.keys.now + time))
  }

  ghost predicate Follows(w: World, e: Event, w': World) {
    Possible(w, e) && w' == Occurs(w, e)
  }

  ghost predicate Run(worlds: seq<World>, events: seq<Event>) {
    && |worlds| == |events| + 1 && worlds[0] == NEW_WORLD
    && forall i {:trigger events[i]} :: 0 <= i < |events| ==> Follows(worlds[i], events[i], worlds[i + 1])
  }
}
