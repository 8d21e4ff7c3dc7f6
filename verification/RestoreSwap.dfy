/**
 * Restoring one instance from a snapshot: a journalled swap of directories. A step is
 * one rename, one journal write, one commit, or one copy or removal of a tree; the
 * last two are not atomic, so a crash or an error in the middle leaves anything there.
 */
module RestoreSwap {
  import opened Options
  import opened Directories

  datatype Fields = Fields(plugins: string, hooks: string, lanRate: bool, renderer: map<string, string>)

  datatype Stage = Staging | Swapping | Swapped | Complete

  datatype Intent = Intent(attempt: nat, state: Stage)

  /** The snapshot: the manifest entry, the tree it holds and the recorded fields. */
  datatype Snapshot = Snapshot(entry: Tree, source: Tree, meta: Fields)

  datatype Job =
    | Idle
    | Failed
    | Done
    | Beginning
    | Discarding          // the staged copy of an earlier try
    | Copying
    | Journalling
    | Swapping0           // _complete_swap looks at what there is
    | Rediscarding
    | Recopying
    | MovingIn
    | MovingBack
    | Verifying
    | Committing
    | Servicing           // the fields are committed; the service is looked at
    | Cleaning
    | Closing

  /** Directories, journal and row of one instance. History: `before` is the live tree
      when the current attempt was journalled, `committed` says whether the fields
      were committed since. */
  datatype Store = Store(
    live: Option<Tree>, staged: Option<Tree>, backups: map<nat, Tree>,
    journal: Option<Intent>, row: Fields, job: Job,
    before: Option<Tree>, committed: bool)

  predicate Resting(job: Job) {
    job == Idle || job == Failed || job == Done
  }

  function RestoredFields(row: Fields, meta: Fields): Fields {
    Fields(meta.plugins, meta.hooks, meta.lanRate, row.renderer + meta.renderer)
  }

  function Attempt(s: Store): nat {
    if s.journal.Some? then s.journal.value.attempt else 0
  }

  function SetState(s: Store, state: Stage): Store {
    s.(journal := Some(Intent(Attempt(s), state)))
  }

  function WithBackup(s: Store, backup: Option<Tree>): Store {
    s.(backups := if backup.Some? then s.backups[Attempt(s) := backup.value] else s.backups - {Attempt(s)})
  }

  predicate InFlight(s: Store) {
    s.journal.Some? && (s.journal.value.state == Staging || s.journal.value.state == Swapping)
  }

  /** _restore_tree up to its first durable effect */
  function Begin(snap: Snapshot, s: Store, luck: Luck): Store {
    if InFlight(s) then
      s.(job := if s.journal.value.state == Staging then Discarding else Swapping0)
    else if s.live == Some(snap.entry) then s.(job := Committing)
    else if luck.fails then s.(job := Failed)
    else
      s.(journal := Some(Intent(Attempt(s) + 1, Staging)), job := Discarding, before := s.live, committed := false)
  }

  function Discard(s: Store, luck: Luck, next: Job): Store {
    if luck.fails then s.(staged := luck.junk, job := Failed) else s.(staged := None, job := next)
  }

  /** The copy is checked file by file and then as a whole; a bad one is discarded. */
  function Copy(snap: Snapshot, s: Store, luck: Luck, next: Job): Store {
    if luck.fails || snap.source != snap.entry then s.(staged := None, job := Failed)
    else s.(staged := Some(snap.source), job := next)
  }

  /** _complete_swap */
  function Swap(snap: Snapshot, s: Store, luck: Luck): Store {
    if s.staged.Some? then
      if s.staged.value != snap.entry then s.(job := Rediscarding)
      else if s.live.Some? then
        if Attempt(s) in s.backups then s.(job := Failed)  // both exist: refuse
        else if luck.fails then s.(job := Failed)
        else WithBackup(s, s.live).(live := None, job := MovingIn)
      else MoveIn(s, luck)
    else if s.live.None? then s.(job := Failed)            // neither exists
    else s.(job := Verifying)
  }

  function MoveIn(s: Store, luck: Luck): Store {
    if !luck.fails then s.(live := s.staged, staged := None, job := Verifying)
    else if Attempt(s) in s.backups && s.live.None? then s.(job := MovingBack)
    else s.(job := Failed)
  }

  function MoveBack(s: Store, luck: Luck): Store {
    if luck.fails || Attempt(s) !in s.backups then s.(job := Failed)
    else WithBackup(s, None).(live := Some(s.backups[Attempt(s)]), job := Failed)
  }

  function Verify(snap: Snapshot, s: Store, luck: Luck): Store {
    if s.live != Some(snap.entry) || luck.fails then s.(job := Failed)
    else SetState(s, Swapped).(job := Committing)
  }

  /** A commit that raised may have gone through. */
  function Commit(snap: Snapshot, s: Store, luck: Luck): Store {
    if luck.fails && !luck.lost then s.(job := Failed)
    else
      s.(row := RestoredFields(s.row, snap.meta), committed := true,
         job := if luck.fails then Failed else Servicing)
  }

  /** The caller looks at the service, if it does, and the status is committed. */
  function Service(s: Store, luck: Luck): Store {
    if luck.fails then s.(job := Failed)
    else s.(job := if s.journal.Some? && s.journal.value.state != Complete then Cleaning else Done)
  }

  function Clean(s: Store, luck: Luck): Store {
    if luck.fails then WithBackup(s, luck.junk).(job := Failed) else WithBackup(s, None).(job := Closing)
  }

  function Step(snap: Snapshot, s: Store, luck: Luck): Store {
    match s.job
    case Beginning => Begin(snap, s, luck)
    case Discarding => Discard(s, luck, Copying)
    case Copying => Copy(snap, s, luck, Journalling)
    case Journalling => if luck.fails then s.(job := Failed) else SetState(s, Swapping).(job := Swapping0)
    case Swapping0 => Swap(snap, s, luck)
    case Rediscarding => Discard(s, luck, Recopying)
    case Recopying => Copy(snap, s, luck, Swapping0)
    case MovingIn => MoveIn(s, luck)
    case MovingBack => MoveBack(s, luck)
    case Verifying => Verify(snap, s, luck)
    case Committing => Commit(snap, s, luck)
    case Servicing => Service(s, luck)
    case Cleaning => Clean(s, luck)
    case Closing => if luck.fails then s.(job := Failed) else SetState(s, Complete).(job := Done)
    case _ => s
  }

  /** A crash; a copy or removal that was going on leaves anything. */
  function Crash(s: Store, junk: Option<Tree>): Store {
    match s.job
    case Discarding => s.(staged := junk, job := Idle)
    case Copying => s.(staged := junk, job := Idle)
    case Rediscarding => s.(staged := junk, job := Idle)
    case Recopying => s.(staged := junk, job := Idle)
    case Cleaning => WithBackup(s, junk).(job := Idle)
    case _ => s.(job := Idle)
  }

  datatype Event =
    | Start
    | Go(luck: Luck)
    | Die(junk: Option<Tree>)
    | Edit(live: Option<Tree>, row: Fields)   // the instance is used or edited meanwhile

  /** Only the restore touches its directories; the instance itself may be edited while
      no swap is in flight. */
  ghost predicate Possible(s: Store, e: Event) {
    match e
    case Start => Resting(s.job)
    case Go(_) => !Resting(s.job)
    case Die(_) => true
    case Edit(live, row) => Resting(s.job) && (InFlight(s) ==> live == s.live)
  }

  ghost function Occurs(snap: Snapshot, s: Store, e: Event): Store {
    match e
    case Start => s.(job := Beginning)
    case Go(luck) => Step(snap, s, luck)
    case Die(junk) => Crash(s, junk)
    case Edit(live, row) => s.(live := live, row := row)
  }

  ghost predicate Follows(snap: Snapshot, s: Store, e: Event, s': Store) {
    Possible(s, e) && s' == Occurs(snap, s, e)
  }

  ghost predicate Run(snap: Snapshot, stores: seq<Store>, events: seq<Event>) {
    && |stores| == |events| + 1
    && stores[0].staged == None && stores[0].backups == map[] && stores[0].journal == None && stores[0].job == Idle
    && forall i {:trigger events[i]} :: 0 <= i < |events| ==> Follows(snap, stores[i], events[i], stores[i + 1])
  }

  // --- What every state keeps ----------------------------------------------------------

  ghost predicate Untouched(s: Store) {
    s.live == s.before && Attempt(s) !in s.backups
  }

  ghost predicate SetAside(s: Store) {
    if s.before.Some? then Attempt(s) in s.backups && s.backups[Attempt(s)] == s.before.value
    else Attempt(s) !in s.backups
  }

  ghost predicate SwapOk(snap: Snapshot, s: Store) {
    || (s.staged == Some(snap.entry) && Untouched(s))
    || (s.staged == Some(snap.entry) && s.live == None && SetAside(s))
    || (s.staged == None && s.live == Some(snap.entry) && SetAside(s))
  }

  ghost predicate JournalOk(snap: Snapshot, s: Store) {
    if s.journal.None? then s.backups == map[]
    else
      && (forall a :: a in s.backups ==> a <= Attempt(s))
      && match s.journal.value.state
         case Staging => Untouched(s)
         case Swapping => SwapOk(snap, s)
         case Swapped => s.committed || SetAside(s)
         case Complete => s.committed && Attempt(s) !in s.backups
  }

  ghost predicate At(s: Store, state: Stage) {
    s.journal.Some? && s.journal.value.state == state
  }

  ghost predicate JobOk(snap: Snapshot, s: Store) {
    match s.job
    case Discarding => At(s, Staging)
    case Copying => At(s, Staging)
    case Journalling => At(s, Staging) && s.staged == Some(snap.entry)
    case Swapping0 => At(s, Swapping)
    case Rediscarding => false
    case Recopying => false
    case MovingIn => At(s, Swapping) && s.live == None && s.staged == Some(snap.entry) && SetAside(s)
    case MovingBack => At(s, Swapping) && s.live == None && s.staged == Some(snap.entry) && SetAside(s)
    case Verifying => At(s, Swapping) && s.live == Some(snap.entry) && s.staged == None
    case Committing => !InFlight(s) && s.live == Some(snap.entry)
    case Servicing => !InFlight(s) && s.committed && s.live == Some(snap.entry)
    case Cleaning => At(s, Swapped) && s.committed && s.live == Some(snap.entry)
    case Closing => At(s, Swapped) && s.committed && s.live == Some(snap.entry) && Attempt(s) !in s.backups
    case _ => true
  }

  ghost predicate Inv(snap: Snapshot, s: Store) {
    JournalOk(snap, s) && JobOk(snap, s)
  }

  lemma BeginKeeps(snap: Snapshot, s: Store, luck: Luck)
    requires Inv(snap, s) && s.job == Beginning
    ensures Inv(snap, Begin(snap, s, luck))
  {
  }

  lemma StageKeeps(snap: Snapshot, s: Store, luck: Luck)
    requires Inv(snap, s) && (s.job == Discarding || s.job == Copying || s.job == Journalling)
    ensures Inv(snap, Step(snap, s, luck))
  {
  }

  lemma SwapKeeps(snap: Snapshot, s: Store, luck: Luck)
    requires Inv(snap, s) && (s.job == Swapping0 || s.job == MovingIn || s.job == MovingBack)
    ensures Inv(snap, Step(snap, s, luck))
  {
    if s.job == MovingBack && !luck.fails && Attempt(s) in s.backups {
      assert s.before.Some? && s.backups[Attempt(s)] == s.before.value;
    }
  }

  lemma EndKeeps(snap: Snapshot, s: Store, luck: Luck)
    requires Inv(snap, s) && (s.job == Verifying || s.job == Committing || s.job == Servicing || s.job == Cleaning || s.job == Closing)
    ensures Inv(snap, Step(snap, s, luck))
  {
  }

  lemma EventKeeps(snap: Snapshot, s: Store, e: Event)
    requires Inv(snap, s) && Possible(s, e)
    ensures Inv(snap, Occurs(snap, s, e))
  {
    match e
    case Start =>
    case Edit(_, _) =>
    case Die(_) =>
    case Go(luck) =>
      match s.job {
        case Beginning => BeginKeeps(snap, s, luck);
        case Discarding => StageKeeps(snap, s, luck);
        case Copying => StageKeeps(snap, s, luck);
        case Journalling => StageKeeps(snap, s, luck);
        case Swapping0 => SwapKeeps(snap, s, luck);
        case MovingIn => SwapKeeps(snap, s, luck);
        case MovingBack => SwapKeeps(snap, s, luck);
        case _ => EndKeeps(snap, s, luck);
      }
  }

  lemma {:induction false} RunInv(snap: Snapshot, stores: seq<Store>, events: seq<Event>, i: nat)
    requires Run(snap, stores, events) && i < |stores|
    ensures Inv(snap, stores[i])
  {
    if i > 0 {
      RunInv(snap, stores, events, i - 1);
      EventKeeps(snap, stores[i - 1], events[i - 1]);
    }
  }

  /** In every run, whatever crashes, errors and reruns there are: from the moment an
      attempt is journalled, the tree that was live then is still live or is that
      attempt's backup, until the verified copy is in place and the fields are committed. */
  lemma NeverLost(snap: Snapshot, stores: seq<Store>, events: seq<Event>, i: nat)
    requires Run(snap, stores, events) && i < |stores| && stores[i].journal.Some? && stores[i].before.Some?
    ensures var s := stores[i];
            || s.live == s.before
            || (Attempt(s) in s.backups && s.backups[Attempt(s)] == s.before.value)
            || (s.committed && !InFlight(s))
  {
    RunInv(snap, stores, events, i);
  }

  /** The fields are committed only when the live tree is the snapshot's. */
  lemma CommitsTheVerified(snap: Snapshot, stores: seq<Store>, events: seq<Event>, i: nat)
    requires Run(snap, stores, events) && i < |events| && stores[i].job == Committing
    ensures stores[i].live == Some(snap.entry) && !InFlight(stores[i])
  {
    RunInv(snap, stores, events, i);
  }

  /** The swap never meets both a live tree and a backup, nor neither of live and
      staged, and never has to stage again. */
  lemma NeverBoth(snap: Snapshot, stores: seq<Store>, events: seq<Event>, i: nat)
    requires Run(snap, stores, events) && i < |stores| && stores[i].job == Swapping0
    ensures var s := stores[i];
            && (s.staged.Some? ==> s.staged.value == snap.entry && (s.live.None? || Attempt(s) !in s.backups))
            && (s.staged.None? ==> s.live == Some(snap.entry))
  {
    RunInv(snap, stores, events, i);
  }

  // --- Reruns converge -------------------------------------------------------------------

  /** n steps without a failure. */
  function Uncut(snap: Snapshot, s: Store, n: nat): Store
    decreases n
  {
    if n == 0 then s else Uncut(snap, Step(snap, s, FINE), n - 1)
  }

  /** The restore has to make a new copy. */
  predicate NeedsCopy(snap: Snapshot, s: Store) {
    if InFlight(s) then s.journal.value.state == Staging else s.live != Some(snap.entry)
  }

  /** Live is the snapshot's tree, the fields are the recorded ones, the journal is
      closed and the attempt's backup gone. */
  ghost predicate Restored(snap: Snapshot, row: Fields, s: Store) {
    && s.job == Done && s.live == Some(snap.entry) && s.row == RestoredFields(row, snap.meta)
    && (s.journal.Some? ==> s.journal.value.state == Complete && Attempt(s) !in s.backups)
  }

  /** How far the restore still has to go. */
  function Rank(job: Job): nat {
    match job
    case Beginning => 10
    case Discarding => 9
    case Copying => 8
    case Journalling => 7
    case Swapping0 => 6
    case MovingIn => 5
    case Verifying => 4
    case Committing => 3
    case Servicing => 2
    case Cleaning => 1
    case _ => 0
  }

  const ENOUGH: nat := 11

  lemma FineStep(snap: Snapshot, s: Store, row: Fields)
    requires Inv(snap, s) && Rank(s.job) > 0 && (Rank(s.job) > 6 ==> snap.source == snap.entry || !NeedsCopy(snap, s))
    requires if Rank(s.job) >= 3 then s.row == row else s.row == RestoredFields(row, snap.meta)
    ensures var t := Step(snap, s, FINE);
            && (t.job == Closing || t.job == Done || Rank(t.job) > 0) && Rank(t.job) < Rank(s.job)
            && (Rank(t.job) > 6 ==> snap.source == snap.entry || !NeedsCopy(snap, t))
            && (if Rank(t.job) >= 3 then t.row == row else t.row == RestoredFields(row, snap.meta))
            && (t.job == Done ==> Restored(snap, row, t))
  {
  }

  lemma {:induction false} Finishes(snap: Snapshot, s: Store, row: Fields, n: nat)
    requires Inv(snap, s) && n > Rank(s.job)
    requires Rank(s.job) > 0 || s.job == Closing || Restored(snap, row, s)
    requires Rank(s.job) > 6 ==> snap.source == snap.entry || !NeedsCopy(snap, s)
    requires if Rank(s.job) >= 3 then s.row == row else s.row == RestoredFields(row, snap.meta)
    ensures Restored(snap, row, Uncut(snap, s, n))
    decreases n
  {
    var t := Step(snap, s, FINE);
    if Rank(s.job) > 0 {
      FineStep(snap, s, row);
      EventKeeps(snap, s, Go(FINE));
      Finishes(snap, t, row, n - 1);
    } else {
      assert Restored(snap, row, t);
      Stable(snap, t, n - 1);
    }
  }

  lemma {:induction false} Stable(snap: Snapshot, s: Store, n: nat)
    requires Resting(s.job)
    ensures Uncut(snap, s, n) == s
    decreases n
  {
    if n > 0 { Stable(snap, s, n - 1); }
  }

  lemma BadCopyFails(snap: Snapshot, s: Store)
    requires Resting(s.job) && NeedsCopy(snap, s) && snap.source != snap.entry
    ensures var t := Uncut(snap, s.(job := Beginning), ENOUGH); t.job == Failed && t.live == s.live
  {
    var s1 := Step(snap, s.(job := Beginning), FINE);
    var s2 := Step(snap, s1, FINE);
    var s3 := Step(snap, s2, FINE);
    assert s1.job == Discarding && s2.job == Copying && s3.job == Failed;
    assert Uncut(snap, s.(job := Beginning), ENOUGH) == Uncut(snap, s3, ENOUGH - 3) by {
      assert Uncut(snap, s1, ENOUGH - 1) == Uncut(snap, s2, ENOUGH - 2) == Uncut(snap, s3, ENOUGH - 3);
    }
    Stable(snap, s3, ENOUGH - 3);
  }

  /** After any run, with its crashes, errors and edits, a rerun that is let run to the
      end restores the instance exactly when it needs no new copy or the snapshot's tree
      still is what its manifest says. */
  lemma RerunConverges(snap: Snapshot, stores: seq<Store>, events: seq<Event>, i: nat)
    requires Run(snap, stores, events) && i < |stores| && Resting(stores[i].job)
    ensures var s := stores[i];
            Restored(snap, s.row, Uncut(snap, s.(job := Beginning), ENOUGH))
            <==> (snap.source == snap.entry || !NeedsCopy(snap, s))
  {
    RunInv(snap, stores, events, i);
    var s := stores[i];
    if snap.source == snap.entry || !NeedsCopy(snap, s) {
      Finishes(snap, s.(job := Beginning), s.row, ENOUGH);
    } else {
      BadCopyFails(snap, s);
    }
  }

  // --- Earlier backups ------------------------------------------------------------------------

  lemma EventKeepsBackups(snap: Snapshot, s: Store, e: Event, a: nat)
    requires a in s.backups && a < Attempt(s)
    ensures var t := Occurs(snap, s, e); a < Attempt(t) && a in t.backups && t.backups[a] == s.backups[a]
  {
  }

  /** The backup of an attempt that a later one followed stays for good. */
  lemma {:induction false} EarlierBackupsStay(snap: Snapshot, stores: seq<Store>, events: seq<Event>, i: nat, j: nat, a: nat)
    requires Run(snap, stores, events) && i <= j < |stores| && a in stores[i].backups && a < Attempt(stores[i])
    ensures a < Attempt(stores[j]) && a in stores[j].backups && stores[j].backups[a] == stores[i].backups[a]
    decreases j - i
  {
    if i < j {
      EarlierBackupsStay(snap, stores, events, i, j - 1, a);
      EventKeepsBackups(snap, stores[j - 1], events[j - 1], a);
    }
  }

  // --- When somebody else makes the live directory ---------------------------------------------

  /** Mid-swap, with a good staged copy, every uncut rerun refuses exactly when there is
      both a live tree and this attempt's backup; and it refuses without changing anything. */
  lemma RefusesBoth(snap: Snapshot, s: Store)
    requires At(s, Swapping) && s.staged == Some(snap.entry) && Resting(s.job)
    ensures var t := Uncut(snap, s.(job := Beginning), ENOUGH);
            && (t.job == Failed <==> s.live.Some? && Attempt(s) in s.backups)
            && (t.job == Failed ==> t == s.(job := Failed))
  {
    var s1 := Step(snap, s.(job := Beginning), FINE);
    assert s1.job == Swapping0;
    assert Uncut(snap, s.(job := Beginning), ENOUGH) == Uncut(snap, s1, ENOUGH - 1);
    var s2 := Step(snap, s1, FINE);
    assert Uncut(snap, s1, ENOUGH - 1) == Uncut(snap, s2, ENOUGH - 2);
    if s.live.Some? && Attempt(s) in s.backups {
      Stable(snap, s2, ENOUGH - 2);
    } else {
      LateSucceeds(snap, s2, ENOUGH - 2);
    }
  }

  /** Past the swap nothing but an error stops it. */
  lemma {:induction false} LateSucceeds(snap: Snapshot, s: Store, n: nat)
    requires n > Rank(s.job)
    requires s.job == MovingIn ==> s.staged == Some(snap.entry)
    requires s.job == Verifying ==> s.live == Some(snap.entry)
    requires s.job in {MovingIn, Verifying, Committing, Servicing, Cleaning, Closing, Done}
    ensures Uncut(snap, s, n).job != Failed
    decreases n
  {
    if s.job == Done || s.job == Closing {
      Stable(snap, Step(snap, s, FINE), n - 1);
    } else {
      LateSucceeds(snap, Step(snap, s, FINE), n - 1);
    }
  }
}
