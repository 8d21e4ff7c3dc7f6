/** prepare_upgrade_snapshot as it is written; every method is a run of the machine. */
module SnapshotPrepareOps {
  import opened Options
  import opened Runs
  import opened SnapshotCopy
  import opened SnapshotPrepare

  function Steps(env: Env, luck: nat -> Luck): (Store, nat) -> Store {
    (s: Store, n: nat) => Step(env, s, luck(n))
  }

  /** What _snapshot_instances has done when the instances of `done` were dealt with. */
  ghost predicate RecordedSoFar(env: Env, snap: Snap, done: set<nat>, now: Snap, entries: Entries) {
    && now.held.shared == snap.held.shared && now.manifest == snap.manifest
    && now.held.instances.Keys == snap.held.instances.Keys + done
    && now.records.Keys == done && entries.Keys == done && done <= env.inputs.instances.Keys
    && (forall id | id in snap.held.instances && id !in done :: now.held.instances[id] == snap.held.instances[id])
    && forall id | id in done :: RecordedAt(env, At(snap.held.instances, id, EMPTY), now, entries, id)
  }

  ghost predicate RecordedAt(env: Env, tree: Folder, now: Snap, entries: Entries, id: nat) {
    && id in env.inputs.instances && id in now.held.instances && id in now.records && id in entries
    && DigestsOf(env.hash, tree.files) == env.inputs.instances[id].files
    && now.held.instances[id] == WithRoot(tree)
    && now.records[id] == env.inputs.instances[id].metadata
    && entries[id] == Entry(Inventory(env.hash, tree.files), WithRoot(tree).dirs, env.hash(now.records[id]))
  }

  lemma RecordingBegins(env: Env, snap: Snap)
    requires snap.records == map[]
    ensures RecordedSoFar(env, snap, {}, snap, map[])
  {
  }

  function RecordOne(env: Env, now: Snap, id: nat, tree: Folder): Snap
    requires id in env.inputs.instances
  {
    now.(held := now.held.(instances := now.held.instances[id := tree]),
         records := now.records[id := env.inputs.instances[id].metadata])
  }

  lemma RecordingStops(env: Env, snap: Snap, done: set<nat>, now: Snap, entries: Entries, id: nat)
    requires RecordedSoFar(env, snap, done, now, entries) && id in env.inputs.instances && id !in done
    requires DigestsOf(env.hash, At(now.held.instances, id, EMPTY).files) != env.inputs.instances[id].files
    ensures !StillCaptured(env, snap.held)
  {
    assert At(now.held.instances, id, EMPTY) == At(snap.held.instances, id, EMPTY);
  }

  lemma RecordingGoesOn(env: Env, snap: Snap, done: set<nat>, now: Snap, entries: Entries, id: nat)
    requires RecordedSoFar(env, snap, done, now, entries) && id in env.inputs.instances && id !in done
    requires DigestsOf(env.hash, At(now.held.instances, id, EMPTY).files) == env.inputs.instances[id].files
    ensures var tree := WithRoot(At(now.held.instances, id, EMPTY));
            RecordedSoFar(env, snap, done + {id}, RecordOne(env, now, id, tree), entries[id := EntryFor(env, id, tree)])
  {
    var tree := At(snap.held.instances, id, EMPTY);
    assert At(now.held.instances, id, EMPTY) == tree;
    var now' := RecordOne(env, now, id, WithRoot(tree));
    var entries' := entries[id := EntryFor(env, id, WithRoot(tree))];
    RecordedHere(env, tree, now, entries, id);
    forall i | i in done ensures RecordedAt(env, At(snap.held.instances, i, EMPTY), now', entries', i) {
      RecordedElsewhere(env, At(snap.held.instances, i, EMPTY), now, entries, id, WithRoot(tree), i);
    }
  }

  function EntryFor(env: Env, id: nat, tree: Folder): Entry
    requires id in env.inputs.instances
  {
    Entry(Inventory(env.hash, tree.files), tree.dirs, env.hash(env.inputs.instances[id].metadata))
  }

  lemma RecordedHere(env: Env, tree: Folder, now: Snap, entries: Entries, id: nat)
    requires id in env.inputs.instances && DigestsOf(env.hash, tree.files) == env.inputs.instances[id].files
    ensures RecordedAt(env, tree, RecordOne(env, now, id, WithRoot(tree)), entries[id := EntryFor(env, id, WithRoot(tree))], id)
  {
  }

  lemma RecordedElsewhere(env: Env, there: Folder, now: Snap, entries: Entries, id: nat, tree: Folder, i: nat)
    requires RecordedAt(env, there, now, entries, i) && id in env.inputs.instances && i != id
    ensures RecordedAt(env, there, RecordOne(env, now, id, tree), entries[id := EntryFor(env, id, tree)], i)
  {
  }

  lemma RecordingEnds(env: Env, snap: Snap, now: Snap, entries: Entries)
    requires RecordedSoFar(env, snap, env.inputs.instances.Keys, now, entries)
    ensures now == Recorded(env, snap) && entries == EntriesOf(env, snap.held) && StillCaptured(env, snap.held)
  {
    InstancesEnd(env, snap, now, entries);
    RecordsEnd(env, snap, now, entries);
    EntriesEnd(env, snap, now, entries);
    CaptureEnds(env, snap, now, entries);
  }

  /** Every captured instance was dealt with. */
  ghost predicate AllRecorded(env: Env, snap: Snap, now: Snap, entries: Entries) {
    forall id :: id in env.inputs.instances ==> RecordedAt(env, At(snap.held.instances, id, EMPTY), now, entries, id)
  }

  lemma InstancesEnd(env: Env, snap: Snap, now: Snap, entries: Entries)
    requires AllRecorded(env, snap, now, entries)
    requires now.held.instances.Keys == snap.held.instances.Keys + env.inputs.instances.Keys
    requires forall id :: id in snap.held.instances && id !in env.inputs.instances ==>
               id in now.held.instances && now.held.instances[id] == snap.held.instances[id]
    ensures now.held.instances == Recorded(env, snap).held.instances
  {
    var all := Recorded(env, snap).held.instances;
    assert all.Keys == now.held.instances.Keys;
    forall id | id in all ensures id in now.held.instances && now.held.instances[id] == all[id] {
      InstanceEnds(env, snap, now, entries, id);
    }
  }

  lemma InstanceEnds(env: Env, snap: Snap, now: Snap, entries: Entries, id: nat)
    requires id in Recorded(env, snap).held.instances
    requires id in env.inputs.instances ==> RecordedAt(env, At(snap.held.instances, id, EMPTY), now, entries, id)
    requires id !in env.inputs.instances ==>
               id in snap.held.instances && id in now.held.instances && now.held.instances[id] == snap.held.instances[id]
    ensures id in now.held.instances && now.held.instances[id] == Recorded(env, snap).held.instances[id]
  {
  }

  lemma RecordsEnd(env: Env, snap: Snap, now: Snap, entries: Entries)
    requires AllRecorded(env, snap, now, entries) && now.records.Keys == env.inputs.instances.Keys
    ensures now.records == Recorded(env, snap).records
  {
  }

  lemma EntriesEnd(env: Env, snap: Snap, now: Snap, entries: Entries)
    requires AllRecorded(env, snap, now, entries) && entries.Keys == env.inputs.instances.Keys
    ensures entries == EntriesOf(env, snap.held)
  {
  }

  lemma CaptureEnds(env: Env, snap: Snap, now: Snap, entries: Entries)
    requires AllRecorded(env, snap, now, entries)
    ensures StillCaptured(env, snap.held)
  {
    forall id | id in env.inputs.instances
      ensures DigestsOf(env.hash, At(snap.held.instances, id, EMPTY).files) == env.inputs.instances[id].files
    {
      assert RecordedAt(env, At(snap.held.instances, id, EMPTY), now, entries, id);
    }
  }

  /** One operation's directories, presets and row. */
  class Operation {
    var staging: Option<Snap>
    var published: Option<Snap>
    var presets: bool
    var complete: bool

    constructor ()
      ensures Now(Resting) == NEW_STORE
    {
      staging, published, presets, complete := None, None, false, false;
    }

    ghost function Now(stage: Stage): Store
      reads this
    {
      Store(staging, published, presets, complete, stage)
    }

    /** Leftovers of an earlier attempt are preparation-only. */
    method DropLeftovers(env: Env, luck: nat -> Luck, ghost run: nat -> Store, n: nat) returns (ok: bool, m: nat)
      requires IsRun(Steps(env, luck), run) && Now(DroppingStaging) == run(n)
      modifies `staging, `published, `presets
      ensures Now(if ok then Materializing else Raised(false)) == run(m)
    {
      OneStep(Steps(env, luck), run, n);
      if luck(n).fails {
        staging := Remains(staging, luck(n).junk);
        return false, n + 1;
      }
      staging := None;
      OneStep(Steps(env, luck), run, n + 1);
      if luck(n + 1).fails {
        published := Remains(published, luck(n + 1).junk);
        return false, n + 2;
      }
      published := None;
      OneStep(Steps(env, luck), run, n + 2);
      if luck(n + 2).fails { return false, n + 3; }
      presets := false;
      return true, n + 3;
    }

    /** _snapshot_instances: the staged copies are compared with the capture, and the
        entries are what is staged. */
    method SnapshotInstances(env: Env) returns (ok: bool, entries: Entries)
      requires staging.Some? && staging.value.records == map[]
      modifies `staging
      ensures staging.Some? && staging.value.manifest == old(staging).value.manifest
      ensures ok == StillCaptured(env, old(staging).value.held)
      ensures ok ==> staging == Some(Recorded(env, old(staging).value)) && entries == EntriesOf(env, old(staging).value.held)
    {
      ghost var snap := staging.value;
      var todo := env.inputs.instances.Keys;
      ghost var done: set<nat> := {};
      entries := map[];
      RecordingBegins(env, snap);
      while todo != {}
        invariant todo == env.inputs.instances.Keys - done && done <= env.inputs.instances.Keys
        invariant staging.Some? && RecordedSoFar(env, snap, done, staging.value, entries)
      {
        var id :| id in todo;
        var now := staging.value;
        var tree := WithRoot(At(now.held.instances, id, EMPTY));
        if DigestsOf(env.hash, tree.files) != env.inputs.instances[id].files {
          RecordingStops(env, snap, done, now, entries, id);
          return false, map[];
        }
        RecordingGoesOn(env, snap, done, now, entries, id);
        staging := Some(RecordOne(env, now, id, tree));
        entries := entries[id := EntryFor(env, id, tree)];
        todo, done := todo - {id}, done + {id};
      }
      assert done == env.inputs.instances.Keys;
      RecordingEnds(env, snap, staging.value, entries);
      ok := true;
    }

    /** Builds the snapshot aside, with its presets and its manifest. */
    method Build(env: Env, luck: nat -> Luck, ghost run: nat -> Store, n: nat) returns (ok: bool, m: nat)
      requires IsRun(Steps(env, luck), run) && Now(Materializing) == run(n)
      modifies `staging, `presets
      ensures Now(if ok then Publishing else Undoing(true, 0)) == run(m)
    {
      OneStep(Steps(env, luck), run, n);
      var copied := Materialize(env.hash, env.roots, env.inputs, luck(n).readings);
      if luck(n).fails || copied.None? {
        staging := Remains(staging, luck(n).junk);
        return false, n + 1;
      }
      staging := Some(Snap(copied.value, map[], None));
      var entries: Entries;
      ok, entries := Compare(env, luck, run, n + 1);
      if !ok { return false, n + 2; }
      OneStep(Steps(env, luck), run, n + 2);
      presets := true;
      if luck(n + 2).fails { return false, n + 3; }
      OneStep(Steps(env, luck), run, n + 3);
      if luck(n + 3).fails { return false, n + 4; }
      staging := Some(staging.value.(manifest := Some(Manifest(env.inputs.trees, entries))));
      return true, n + 4;
    }

    method Compare(env: Env, luck: nat -> Luck, ghost run: nat -> Store, n: nat) returns (ok: bool, entries: Entries)
      requires IsRun(Steps(env, luck), run) && Now(Inventorying) == run(n)
      requires staging.Some? && staging.value.records == map[]
      modifies `staging
      ensures Now(if ok then SavingPresets(entries) else Undoing(true, 0)) == run(n + 1)
      ensures ok ==> staging.Some?
    {
      OneStep(Steps(env, luck), run, n);
      ok, entries := SnapshotInstances(env);
      if luck(n).fails || !ok {
        staging := Remains(staging, luck(n).junk);
        return false, map[];
      }
    }

    /** Renames it into place, verifies what was published and records it. */
    method Publish(env: Env, luck: nat -> Luck, ghost run: nat -> Store, n: nat) returns (ok: bool, m: nat)
      requires IsRun(Steps(env, luck), run) && Now(Publishing) == run(n)
      modifies `staging, `published, `complete
      ensures Now(if ok then Returned else Undoing(true, 0)) == run(m)
    {
      OneStep(Steps(env, luck), run, n);
      if luck(n).fails { return false, n + 1; }
      published, staging := staging, None;
      OneStep(Steps(env, luck), run, n + 1);
      if luck(n + 1).fails || !Verified(env.hash, published) { return false, n + 2; }
      OneStep(Steps(env, luck), run, n + 2);
      complete := !luck(n + 2).fails || luck(n + 2).lost;
      return !luck(n + 2).fails, n + 3;
    }

    /** Every removal is tried, whatever became of the one before. */
    method Cleanup(env: Env, luck: nat -> Luck, ghost run: nat -> Store, n: nat) returns (clean: bool)
      requires IsRun(Steps(env, luck), run) && Now(Undoing(true, 0)) == run(n)
      modifies `staging, `published, `presets
      ensures Now(Raised(clean)) == run(n + 3)
    {
      OneStep(Steps(env, luck), run, n);
      staging := if luck(n).fails then Remains(staging, luck(n).junk) else None;
      OneStep(Steps(env, luck), run, n + 1);
      published := if luck(n + 1).fails then Remains(published, luck(n + 1).junk) else None;
      OneStep(Steps(env, luck), run, n + 2);
      presets := if luck(n + 2).fails then presets else false;
      clean := !luck(n).fails && !luck(n + 1).fails && !luck(n + 2).fails;
    }

    /** prepare_upgrade_snapshot; it ends where the machine ends. */
    method Prepare(env: Env, luck: nat -> Luck) returns (stage: Stage, ghost m: nat)
      modifies this
      ensures stage == Returned || stage.Raised?
      ensures Now(stage) == Tried(Steps(env, luck), old(Now(Entering)), m)
    {
      ghost var start := Now(Entering);
      ghost var run := (k: nat) => Tried(Steps(env, luck), start, k);
      TriedIsRun(Steps(env, luck), start);
      OneStep(Steps(env, luck), run, 0);
      if luck(0).fails { return Raised(false), 1; }
      if complete {
        return if Verified(env.hash, published) then Returned else Raised(false), 1;
      }
      var ok, n := DropLeftovers(env, luck, run, 1);
      if !ok { return Raised(false), n; }
      ok, n := Build(env, luck, run, n);
      if ok { ok, n := Publish(env, luck, run, n); }
      if ok { return Returned, n; }
      var clean := Cleanup(env, luck, run, n);
      return Raised(clean), n + 3;
    }
  }
}
