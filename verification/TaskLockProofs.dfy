/** What the locks guarantee under any interleaving of clients, force releases, backups
    and the passing of time. */
module TaskLockProofs {
  import opened Options
  import opened Sorting
  import opened TaskLock

  lemma EventExclusive(w: World, e: Event, w': World)
    requires Exclusive(w.keys) && Follows(w, e, w')
    ensures Exclusive(w'.keys)
  {
    match e
    case Backup(walk, token) => MaintenanceKeeps(w.keys, walk, token);
    case Override(k) => assert forall j :: Live(w'.keys, j) ==> Live(w.keys, j) && j != k;
    case Proceed(token, net) =>
      assert forall j :: Live(w'.keys, j) && !Live(w.keys, j) ==> j in w'.keys.index && !Maintained(w'.keys);
    case Pass(_) => assert forall j :: Live(w'.keys, j) ==> Live(w.keys, j);
    case _ =>
  }

  /** In every run every live entity lock is in the index, and maintenance never
      coexists with a live entity lock. */
  lemma {:induction false} AlwaysExclusive(worlds: seq<World>, events: seq<Event>, i: nat)
    requires Run(worlds, events) && i < |worlds|
    ensures Exclusive(worlds[i].keys)
  {
    if i > 0 {
      AlwaysExclusive(worlds, events, i - 1);
      EventExclusive(worlds[i - 1], events[i - 1], worlds[i]);
    }
  }

  /** A backup starts exactly when no maintenance and no entity lock is live, however
      lossy the index is. */
  lemma BackupExactly(worlds: seq<World>, events: seq<Event>, i: nat)
    requires Run(worlds, events) && i < |events| && events[i].Backup?
    ensures AcquireMaintenance(worlds[i].keys, events[i].walk, events[i].token).1
            <==> !Maintained(worlds[i].keys) && forall k :: !Live(worlds[i].keys, k)
  {
    AlwaysExclusive(worlds, events, i);
    assert Follows(worlds[i], events[i], worlds[i + 1]);
    MaintenanceExactly(worlds[i].keys, events[i].walk, events[i].token);
  }

  // --- A lock stays its owner's ---------------------------------------------------------

  /** The event is the owner's release of k, or a force release of it. */
  ghost predicate Gives(w: World, e: Event, k: Entity, token: Token) {
    || e == Override(k)
    || (e.Proceed? && e.token == token && token in w.clients && w.clients[token].Undoing?
        && w.clients[token].next < |w.clients[token].ids| && w.clients[token].ids[w.clients[token].next] == k)
  }

  lemma EventKeepsLock(w: World, e: Event, w': World, k: Entity, l: Lock)
    requires Follows(w, e, w') && k in w.keys.locks && w.keys.locks[k] == l && w'.keys.now < l.expires
    requires !Gives(w, e, k, l.token)
    ensures k in w'.keys.locks && w'.keys.locks[k] == l && w.keys.now <= w'.keys.now
  {
  }

  lemma TimeGoesOn(w: World, e: Event, w': World)
    requires Follows(w, e, w')
    ensures w.keys.now <= w'.keys.now
  {
  }

  lemma {:induction false} Later(worlds: seq<World>, events: seq<Event>, i: nat, j: nat)
    requires Run(worlds, events) && i <= j < |worlds|
    ensures worlds[i].keys.now <= worlds[j].keys.now
    decreases j - i
  {
    if i < j {
      Later(worlds, events, i, j - 1);
      TimeGoesOn(worlds[j - 1], events[j - 1], worlds[j]);
    }
  }

  /** A lock stays its owner's until it expires, its owner releases it or it is forced:
      no other token's acquire or release, old or new, takes it away. */
  lemma {:induction false} HeldUntilGiven(worlds: seq<World>, events: seq<Event>, i: nat, j: nat, k: Entity, token: Token)
    requires Run(worlds, events) && i <= j < |worlds| && Holds(worlds[i].keys, k, token)
    requires worlds[j].keys.now < worlds[i].keys.locks[k].expires
    requires forall n {:trigger events[n]} :: i <= n < j ==> !Gives(worlds[n], events[n], k, token)
    ensures Holds(worlds[j].keys, k, token) && worlds[j].keys.locks[k] == worlds[i].keys.locks[k]
    decreases j - i
  {
    if i < j {
      TimeGoesOn(worlds[j - 1], events[j - 1], worlds[j]);
      HeldUntilGiven(worlds, events, i, j - 1, k, token);
      EventKeepsLock(worlds[j - 1], events[j - 1], worlds[j], k, worlds[i].keys.locks[k]);
    }
  }

  // --- What a call leaves ------------------------------------------------------------------

  /** The client of this token will not acquire k any more. */
  ghost predicate Past(w: World, token: Token, k: Entity) {
    token in w.clients
    && (w.clients[token].Acquiring? ==> w.clients[token].next <= |w.clients[token].ids|
                                        && k !in w.clients[token].ids[w.clients[token].next..])
  }

  /** A lock the token still has after the event, it had before, and it is the same. */
  lemma NeverAgain(w: World, e: Event, w': World, token: Token, k: Entity)
    requires Follows(w, e, w') && Past(w, token, k)
    ensures Past(w', token, k)
    ensures Holds(w'.keys, k, token) ==>
              Holds(w.keys, k, token) && w'.keys.locks[k] == w.keys.locks[k] && e != Override(k)
  {
    var c := w.clients[token];
    if c.Acquiring? && c.next < |c.ids| {
      assert c.ids[c.next] in c.ids[c.next..];
      assert c.ids[c.next + 1..] == c.ids[c.next..][1..];
    }
  }

  /** k was not forced by any of these events. */
  ghost predicate Unforced(events: seq<Event>, from: nat, to: nat, k: Entity)
    requires to <= |events|
  {
    forall n {:trigger events[n]} :: from <= n < to ==> events[n] != Override(k)
  }

  /** The owner itself does not give it back in any of these steps. */
  ghost predicate Unreleased(worlds: seq<World>, events: seq<Event>, from: nat, to: nat, k: Entity, token: Token)
    requires |worlds| == |events| + 1 && to <= |events|
  {
    forall n {:trigger events[n]} :: from <= n < to && Gives(worlds[n], events[n], k, token) ==> events[n] == Override(k)
  }

  /** A lock whose owner neither acquires nor releases it again is held exactly until it
      expires or is forced. */
  lemma {:induction false} HeldExactly(worlds: seq<World>, events: seq<Event>, j: nat, i: nat, k: Entity, token: Token)
    requires Run(worlds, events) && j <= i < |worlds|
    requires k in worlds[j].keys.locks && worlds[j].keys.locks[k].token == token && Past(worlds[j], token, k)
    requires Unreleased(worlds, events, j, i, k, token)
    ensures Past(worlds[i], token, k)
    ensures Holds(worlds[i].keys, k, token)
            <==> worlds[i].keys.now < worlds[j].keys.locks[k].expires && Unforced(events, j, i, k)
    ensures Holds(worlds[i].keys, k, token) ==> worlds[i].keys.locks[k] == worlds[j].keys.locks[k]
    decreases i - j
  {
    if j < i {
      var w, e, w' := worlds[i - 1], events[i - 1], worlds[i];
      HeldExactly(worlds, events, j, i - 1, k, token);
      assert Follows(w, e, w');
      NeverAgain(w, e, w', token, k);
      TimeGoesOn(w, e, w');
      if w'.keys.now < worlds[j].keys.locks[k].expires && Unforced(events, j, i, k) {
        assert Unforced(events, j, i - 1, k) && e != Override(k);
        EventKeepsLock(w, e, w', k, w.keys.locks[k]);
      }
    }
  }

  /** The event leaves k behind: an acquisition that succeeded and was not heard of, or a
      release that was never sent. */
  ghost predicate LeavesBehind(w: World, e: Event, token: Token, k: Entity) {
    && e.Proceed? && e.token == token && token in w.clients
    && match w.clients[token]
       case Acquiring(ids, ttl, _, next) =>
         next < |ids| && ids[next] == k && e.net == Lost && AcquireEntity(w.keys, k, token, ttl).1
       case Undoing(ids, next) =>
         next < |ids| && ids[next] == k && e.net == Unsent && Holds(w.keys, k, token)
       case _ => false
  }

  /** Step j left k behind, and up to the i-th state it was not forced and has not expired. */
  ghost predicate StillLeft(worlds: seq<World>, events: seq<Event>, j: nat, i: nat, token: Token, k: Entity)
    requires |worlds| == |events| + 1 && j < i < |worlds|
  {
    && LeavesBehind(worlds[j], events[j], token, k) && k in worlds[j + 1].keys.locks
    && Unforced(events, j + 1, i, k) && worlds[i].keys.now < worlds[j + 1].keys.locks[k].expires
  }

  ghost predicate Left(worlds: seq<World>, events: seq<Event>, i: nat, token: Token, k: Entity)
    requires |worlds| == |events| + 1 && i < |worlds|
  {
    exists j {:trigger events[j]} :: 0 <= j < i && StillLeft(worlds, events, j, i, token, k)
  }

  /** Ids are listed once. */
  ghost predicate Listed(w: World) {
    forall token :: token in w.clients ==>
      match w.clients[token]
      case Acquiring(ids, _, since, next) => next <= |ids| && NoRepeats(ids) && since <= w.keys.now
      case Granted(ids, _, since) => NoRepeats(ids) && since <= w.keys.now
      case Undoing(ids, next) => next <= |ids| && NoRepeats(ids)
      case Refused => true
  }

  lemma EventLists(w: World, e: Event, w': World)
    requires Listed(w) && Follows(w, e, w')
    ensures Listed(w')
  {
    TimeGoesOn(w, e, w');
  }

  lemma {:induction false} RunListed(worlds: seq<World>, events: seq<Event>, i: nat)
    requires Run(worlds, events) && i < |worlds|
    ensures Listed(worlds[i])
  {
    if i > 0 {
      RunListed(worlds, events, i - 1);
      assert Follows(worlds[i - 1], events[i - 1], worlds[i]);
      EventLists(worlds[i - 1], events[i - 1], worlds[i]);
    }
  }

  /** The client is done with k: it will neither acquire nor release it any more. */
  ghost predicate DoneWith(w: World, token: Token, k: Entity) {
    token in w.clients
    && match w.clients[token]
       case Undoing(ids, next) => next <= |ids| && k !in ids[next..]
       case Refused => true
       case _ => false
  }

  lemma LeavingIsDone(w: World, e: Event, w': World, token: Token, k: Entity)
    requires Listed(w) && Follows(w, e, w') && LeavesBehind(w, e, token, k)
    ensures DoneWith(w', token, k) && k in w'.keys.locks && w'.keys.locks[k].token == token
  {
  }

  lemma StaysDone(w: World, e: Event, w': World, token: Token, k: Entity)
    requires Follows(w, e, w') && DoneWith(w, token, k)
    ensures DoneWith(w', token, k) && (Gives(w, e, k, token) ==> e == Override(k))
  {
    var c := w.clients[token];
    if c.Undoing? && c.next < |c.ids| {
      assert c.ids[c.next] in c.ids[c.next..];
      assert c.ids[c.next + 1..] == c.ids[c.next..][1..];
    }
  }

  lemma {:induction false} DoneForGood(worlds: seq<World>, events: seq<Event>, j: nat, i: nat, token: Token, k: Entity)
    requires Run(worlds, events) && j <= i < |worlds| && DoneWith(worlds[j], token, k)
    ensures DoneWith(worlds[i], token, k) && Unreleased(worlds, events, j, i, k, token)
    decreases i - j
  {
    if j < i {
      DoneForGood(worlds, events, j, i - 1, token, k);
      assert Follows(worlds[i - 1], events[i - 1], worlds[i]);
      StaysDone(worlds[i - 1], events[i - 1], worlds[i], token, k);
    }
  }

  /** What was left behind is held exactly until it expires or is forced. */
  lemma LeftIsHeld(worlds: seq<World>, events: seq<Event>, j: nat, i: nat, token: Token, k: Entity)
    requires Run(worlds, events) && j < i < |worlds| && LeavesBehind(worlds[j], events[j], token, k)
    ensures k in worlds[j + 1].keys.locks
    ensures StillLeft(worlds, events, j, i, token, k) <==> Holds(worlds[i].keys, k, token)
  {
    RunListed(worlds, events, j);
    assert Follows(worlds[j], events[j], worlds[j + 1]);
    LeavingIsDone(worlds[j], events[j], worlds[j + 1], token, k);
    DoneForGood(worlds, events, j + 1, i, token, k);
    HeldExactly(worlds, events, j + 1, i, k, token);
  }

  /** What a client's state says of a lock its token holds, besides what it left behind: it
      acquired it, or has still to release it. */
  ghost predicate Accounts(w: World, token: Token, k: Entity) {
    token in w.clients
    && match w.clients[token]
       case Acquiring(ids, _, _, next) => next <= |ids| && k in ids[..next]
       case Granted(ids, _, _) => k in ids
       case Undoing(ids, next) => next <= |ids| && k in ids[next..]
       case Refused => false
  }

  lemma EventAccounts(w: World, e: Event, w': World, token: Token, k: Entity)
    requires Listed(w) && Follows(w, e, w') && Holds(w'.keys, k, token)
    requires Holds(w.keys, k, token) ==> Accounts(w, token, k)
    ensures Accounts(w', token, k) || LeavesBehind(w, e, token, k)
  {
    if e.Proceed? && e.token == token {
      ProceedAccounts(w, e, w', token, k);
    } else if e.Free? && e.token == token {
      assert e.ids[0..] == e.ids;
    }
  }

  lemma ProceedAccounts(w: World, e: Event, w': World, token: Token, k: Entity)
    requires Listed(w) && Follows(w, e, w') && e.Proceed? && e.token == token && Holds(w'.keys, k, token)
    requires Holds(w.keys, k, token) ==> Accounts(w, token, k)
    ensures Accounts(w', token, k) || LeavesBehind(w, e, token, k)
  {
    var c := w.clients[token];
    if c.Acquiring? && c.next < |c.ids| {
      assert c.ids[..c.next + 1] == c.ids[..c.next] + [c.ids[c.next]];
      assert c.ids[..c.next][0..] == c.ids[..c.next];
    } else if c.Undoing? && c.next < |c.ids| {
      assert c.ids[c.next..] == [c.ids[c.next]] + c.ids[c.next + 1..];
    } else if c.Acquiring? {
      assert c.ids[..c.next] == c.ids;
    }
  }

  lemma {:induction false} HeldIsAccounted(worlds: seq<World>, events: seq<Event>, i: nat, token: Token, k: Entity)
    requires Run(worlds, events) && i < |worlds| && Holds(worlds[i].keys, k, token)
    ensures Accounts(worlds[i], token, k) || Left(worlds, events, i, token, k)
  {
    if i > 0 {
      var w, e := worlds[i - 1], events[i - 1];
      assert Follows(w, e, worlds[i]);
      RunListed(worlds, events, i - 1);
      if Holds(w.keys, k, token) { HeldIsAccounted(worlds, events, i - 1, token, k); }
      if Holds(w.keys, k, token) && Left(worlds, events, i - 1, token, k) {
        var j :| 0 <= j < i - 1 && StillLeft(worlds, events, j, i - 1, token, k);
        LeftIsHeld(worlds, events, j, i, token, k);
        assert events[j].Proceed?;
      } else {
        EventAccounts(w, e, worlds[i], token, k);
        if LeavesBehind(w, e, token, k) { LeftIsHeld(worlds, events, i - 1, i, token, k); }
      }
    }
  }

  /** In every run, of a call of acquire_locks that failed, or whose locks were released:
      its token holds a lock exactly when a step of it left that lock behind, which since
      then was not forced and has not expired. */
  lemma RefusedHoldsExactly(worlds: seq<World>, events: seq<Event>, i: nat, token: Token, k: Entity)
    requires Run(worlds, events) && i < |worlds|
    requires token in worlds[i].clients && worlds[i].clients[token] == Refused
    ensures Holds(worlds[i].keys, k, token) <==> Left(worlds, events, i, token, k)
  {
    if Holds(worlds[i].keys, k, token) {
      HeldIsAccounted(worlds, events, i, token, k);
    }
    if Left(worlds, events, i, token, k) {
      var j :| 0 <= j < i && StillLeft(worlds, events, j, i, token, k);
      LeftIsHeld(worlds, events, j, i, token, k);
    }
  }

  ghost predicate Reachable(events: seq<Event>) {
    forall i :: 0 <= i < |events| ==> (events[i].Proceed? ==> events[i].net == Answered)
  }

  /** So with a reachable Redis it holds nothing. */
  lemma NothingLeaks(worlds: seq<World>, events: seq<Event>, i: nat, token: Token, k: Entity)
    requires Run(worlds, events) && Reachable(events) && i < |worlds|
    requires token in worlds[i].clients && worlds[i].clients[token] == Refused
    ensures !Holds(worlds[i].keys, k, token)
  {
    RefusedHoldsExactly(worlds, events, i, token, k);
    NothingLeft(worlds, events, i, token, k);
  }

  lemma NothingLeft(worlds: seq<World>, events: seq<Event>, i: nat, token: Token, k: Entity)
    requires |worlds| == |events| + 1 && i < |worlds| && Reachable(events)
    ensures !Left(worlds, events, i, token, k)
  {
    forall j | 0 <= j < i ensures !StillLeft(worlds, events, j, i, token, k) {
      AnsweredLeavesNothing(worlds[j], events[j], token, k);
    }
  }

  lemma AnsweredLeavesNothing(w: World, e: Event, token: Token, k: Entity)
    requires e.Proceed? ==> e.net == Answered
    ensures !LeavesBehind(w, e, token, k)
  {
  }

  /** A lost answer does leave a lock behind: from an empty Redis, one client that asks for
      one lock gives up and its token holds it. */
  lemma LostAnswerLeaks(token: Token, k: Entity, ttl: nat)
    requires ttl > 0
    ensures exists worlds: seq<World>, events: seq<Event> ::
              && Run(worlds, events) && worlds[|worlds| - 1].clients == map[token := Refused]
              && Holds(worlds[|worlds| - 1].keys, k, token)
  {
    var events := [Begin(token, [k], ttl), Proceed(token, Lost), Proceed(token, Answered)];
    var w1 := Occurs(NEW_WORLD, events[0]);
    var w2 := Occurs(w1, events[1]);
    var w3 := Occurs(w2, events[2]);
    var worlds := [NEW_WORLD, w1, w2, w3];
    assert Run(worlds, events);
    assert worlds[|worlds| - 1] == w3;
  }

  // --- What a call that succeeded holds ----------------------------------------------------

  /** The step acquires k and its answer arrives. */
  ghost predicate Takes(w: World, e: Event, token: Token, k: Entity) {
    && e == Proceed(token, Answered) && token in w.clients && w.clients[token].Acquiring?
    && w.clients[token].next < |w.clients[token].ids| && w.clients[token].ids[w.clients[token].next] == k
    && AcquireEntity(w.keys, k, token, w.clients[token].ttl).1
  }

  /** The ids a client asked for, while it is getting or has them. */
  ghost predicate Wants(w: World, token: Token, ids: seq<Entity>, ttl: nat, since: nat) {
    token in w.clients
    && match w.clients[token]
       case Acquiring(ids', ttl', since', _) => ids' == ids && ttl' == ttl && since' == since
       case Granted(ids', ttl', since') => ids' == ids && ttl' == ttl && since' == since
       case _ => false
  }

  ghost predicate Got(w: World, token: Token, k: Entity) {
    token in w.clients
    && match w.clients[token]
       case Acquiring(ids, _, _, next) => next <= |ids| && k in ids[..next]
       case Granted(ids, _, _) => k in ids
       case _ => false
  }

  /** A client that wants k has wanted it since it began, so it gave nothing back. */
  lemma WantedBefore(w: World, e: Event, w': World, token: Token, ids: seq<Entity>, ttl: nat, since: nat)
    requires Follows(w, e, w') && Wants(w', token, ids, ttl, since) && token in w.clients
    ensures Wants(w, token, ids, ttl, since)
    ensures forall k :: Gives(w, e, k, token) ==> e == Override(k)
  {
  }

  /** Whatever it has got it got by a step that took it. */
  lemma GotBefore(w: World, e: Event, w': World, token: Token, k: Entity)
    requires Listed(w) && Follows(w, e, w') && Got(w', token, k) && !Got(w, token, k)
    ensures Takes(w, e, token, k)
  {
    if e.Proceed? && token in w.clients && w.clients[token].Acquiring? {
      var c := w.clients[token];
      assert c.ids[..|c.ids|] == c.ids;
      if c.next < |c.ids| { assert c.ids[..c.next + 1] == c.ids[..c.next] + [c.ids[c.next]]; }
    }
  }

  lemma TakenIsPast(w: World, e: Event, w': World, token: Token, k: Entity)
    requires Listed(w) && Follows(w, e, w') && Takes(w, e, token, k)
    ensures Past(w', token, k) && k in w'.keys.locks
    ensures w'.keys.locks[k] == Lock(token, w.keys.now + w.clients[token].ttl)
  {
  }

  lemma {:induction false} TakenOnce(worlds: seq<World>, events: seq<Event>, i: nat, token: Token, k: Entity,
                                     ids: seq<Entity>, ttl: nat, since: nat) returns (j: nat)
    requires Run(worlds, events) && i < |worlds| && Got(worlds[i], token, k) && Wants(worlds[i], token, ids, ttl, since)
    ensures j < i && Takes(worlds[j], events[j], token, k) && Wants(worlds[j], token, ids, ttl, since)
    ensures Unreleased(worlds, events, j + 1, i, k, token)
  {
    var w, e := worlds[i - 1], events[i - 1];
    assert Follows(w, e, worlds[i]);
    RunListed(worlds, events, i - 1);
    if token !in w.clients || !Got(w, token, k) {
      GotBefore(w, e, worlds[i], token, k);
      j := i - 1;
    } else {
      WantedBefore(w, e, worlds[i], token, ids, ttl, since);
      j := TakenOnce(worlds, events, i - 1, token, k, ids, ttl, since);
    }
    WantedBefore(w, e, worlds[i], token, ids, ttl, since);
  }

  /** A call that succeeded: for each of its ids there is the step that took it, and since
      then it holds the lock exactly until its time to live has passed or it is forced. So
      it holds all until its time to live has passed since it began, but what was forced. */
  lemma GrantedHoldsExactly(worlds: seq<World>, events: seq<Event>, i: nat, token: Token, k: Entity) returns (j: nat)
    requires Run(worlds, events) && i < |worlds|
    requires token in worlds[i].clients && worlds[i].clients[token].Granted? && k in worlds[i].clients[token].ids
    ensures j < i && Takes(worlds[j], events[j], token, k)
    ensures worlds[i].clients[token].since <= worlds[j].keys.now
    ensures Holds(worlds[i].keys, k, token)
            <==> worlds[i].keys.now < worlds[j].keys.now + worlds[i].clients[token].ttl && Unforced(events, j + 1, i, k)
  {
    var c := worlds[i].clients[token];
    j := TakenOnce(worlds, events, i, token, k, c.ids, c.ttl, c.since);
    RunListed(worlds, events, j);
    assert Follows(worlds[j], events[j], worlds[j + 1]);
    TakenIsPast(worlds[j], events[j], worlds[j + 1], token, k);
    HeldExactly(worlds, events, j + 1, i, k, token);
  }

  /** In particular: nothing was forced since the call began. */
  lemma GrantedHoldsAll(worlds: seq<World>, events: seq<Event>, b: nat, i: nat, token: Token, k: Entity)
    requires Run(worlds, events) && b <= i < |worlds| && token !in worlds[b].clients
    requires token in worlds[i].clients && worlds[i].clients[token].Granted? && k in worlds[i].clients[token].ids
    requires worlds[i].keys.now < worlds[i].clients[token].since + worlds[i].clients[token].ttl
    requires Unforced(events, b, i, k)
    ensures Holds(worlds[i].keys, k, token)
  {
    var j := GrantedHoldsExactly(worlds, events, i, token, k);
    if j < b { KeepsClient(worlds, events, j, b, token); }
  }

  lemma {:induction false} KeepsClient(worlds: seq<World>, events: seq<Event>, j: nat, i: nat, token: Token)
    requires Run(worlds, events) && j <= i < |worlds| && token in worlds[j].clients
    ensures token in worlds[i].clients
    decreases i - j
  {
    if j < i {
      KeepsClient(worlds, events, j, i - 1, token);
      assert Follows(worlds[i - 1], events[i - 1], worlds[i]);
    }
  }
}
