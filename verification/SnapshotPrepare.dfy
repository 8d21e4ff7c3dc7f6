/**
 * Publishing the snapshot of a host before an upgrade: its inputs are copied aside and
 * inventoried, renamed into place, read again, and only then recorded as complete.
 * Removals and copies are not atomic, files may drift until they were read again, and a
 * commit that raises may have gone through.
 */
module SnapshotPrepare {
  import opened Options
  import opened SnapshotCopy

  /** A manifest's entry for an instance: its files and directories, and instance.json. */
  datatype Entry = Entry(files: map<Path, Info>, dirs: map<Path, nat>, metadata: Digest)

  datatype Info = Info(digest: Digest, mode: nat)

  datatype Manifest = Manifest(trees: map<string, Digests>, instances: map<nat, Entry>)

  /** A snapshot directory; `records` are the instance.json files. */
  datatype Snap = Snap(held: Held, records: map<nat, Bytes>, manifest: Option<Manifest>)

  type Entries = map<nat, Entry>

  /** The stages of prepare_upgrade_snapshot, with the entries that it has in hand. */
  datatype Stage =
    | Resting
    | Returned
    | Raised(clean: bool)       // whether the cleanup after a failure went through
    | Entering
    | DroppingStaging
    | DroppingPublished
    | DroppingPresets
    | Materializing
    | Inventorying
    | SavingPresets(entries: Entries)
    | WritingManifest(entries: Entries)
    | Publishing
    | Verifying
    | Recording
    | Undoing(ok: bool, step: nat)

  /** `presets` says whether fallback presets of this operation exist; `complete` is the
      flag of the operation's row. */
  datatype Store = Store(staging: Option<Snap>, published: Option<Snap>, presets: bool, complete: bool, stage: Stage)

  const NEW_STORE: Store := Store(None, None, false, false, Resting)

  predicate AtRest(stage: Stage) {
    stage == Resting || stage == Returned || stage.Raised?
  }

  /** What a call is about: the digest function, the known shared trees, the capture. */
  datatype Env = Env(hash: Bytes -> Digest, roots: set<string>, inputs: Inputs)

  /** Whether an operation raises, what it leaves if it does, whether a commit that raised
      had gone through, and what copying sees of the live files. */
  datatype Luck = Luck(fails: bool, junk: Option<Snap>, lost: bool, readings: Readings)

  function AllWell(readings: Readings): Luck {
    Luck(false, None, false, readings)
  }

  /** tree_inventory */
  function Inventory(hash: Bytes -> Digest, files: map<Path, File>): map<Path, Info> {
    map p | p in files :: Info(hash(files[p].bytes), files[p].mode)
  }

  /** os.makedirs(tree, exist_ok=True) */
  function WithRoot(folder: Folder): Folder {
    folder.(dirs := map[[] := NEW_DIR_MODE] + folder.dirs)
  }

  /** The staged copy of every instance still matches the capture. */
  predicate StillCaptured(env: Env, held: Held) {
    forall id | id in env.inputs.instances ::
      DigestsOf(env.hash, At(held.instances, id, EMPTY).files) == env.inputs.instances[id].files
  }

  /** _snapshot_instances: what is staged afterwards, and the entries. */
  function Recorded(env: Env, snap: Snap): Snap {
    Snap(Held(snap.held.shared,
              snap.held.instances + map id | id in env.inputs.instances :: WithRoot(At(snap.held.instances, id, EMPTY))),
         map id | id in env.inputs.instances :: env.inputs.instances[id].metadata,
         snap.manifest)
  }

  function EntriesOf(env: Env, held: Held): Entries {
    map id | id in env.inputs.instances :: EntryOf(env, held, id)
  }

  function EntryOf(env: Env, held: Held, id: nat): Entry
    requires id in env.inputs.instances
  {
    var tree := At(held.instances, id, EMPTY);
    Entry(Inventory(env.hash, tree.files), WithRoot(tree).dirs, env.hash(env.inputs.instances[id].metadata))
  }

  /** _verify_published: everything the manifest lists is read again. */
  predicate Verified(hash: Bytes -> Digest, snap: Option<Snap>) {
    && snap.Some? && snap.value.manifest.Some?
    && var manifest := snap.value.manifest.value;
    && (forall key | key in manifest.trees ::
          DigestsOf(hash, At(snap.value.held.shared, key, EMPTY).files) == manifest.trees[key])
    && (forall id | id in manifest.instances ::
          && Inventory(hash, At(snap.value.held.instances, id, EMPTY).files) == manifest.instances[id].files
          && At(snap.value.held.instances, id, EMPTY).dirs == manifest.instances[id].dirs
          && id in snap.value.records && hash(snap.value.records[id]) == manifest.instances[id].metadata)
  }

  function Raise(s: Store): Store {
    s.(stage := Undoing(true, 0))
  }

  /** What a removal or copy cut short leaves; no manifest that was not there before. */
  function Remains(was: Option<Snap>, junk: Option<Snap>): Option<Snap> {
    match junk
    case None => None
    case Some(snap) =>
      Some(snap.(manifest := if was.None? || snap.manifest.None? then None else was.value.manifest))
  }

  /** One operation of prepare_upgrade_snapshot. */
  function Step(env: Env, s: Store, luck: Luck): Store {
    match s.stage
    case Entering =>
      if luck.fails then s.(stage := Raised(false))
      else if s.complete then s.(stage := if Verified(env.hash, s.published) then Returned else Raised(false))
      else s.(stage := DroppingStaging)
    case DroppingStaging =>
      if luck.fails then s.(staging := Remains(s.staging, luck.junk), stage := Raised(false))
      else s.(staging := None, stage := DroppingPublished)
    case DroppingPublished =>
      if luck.fails then s.(published := Remains(s.published, luck.junk), stage := Raised(false))
      else s.(published := None, stage := DroppingPresets)
    case DroppingPresets =>
      if luck.fails then s.(stage := Raised(false)) else s.(presets := false, stage := Materializing)
    case Materializing =>
      var copied := Materialized(env.hash, env.roots, env.inputs, luck.readings);
      if luck.fails || copied.None? then Raise(s).(staging := Remains(s.staging, luck.junk))
      else s.(staging := Some(Snap(copied.value, map[], None)), stage := Inventorying)
    case Inventorying =>
      if luck.fails || s.staging.None? || !StillCaptured(env, s.staging.value.held)
      then Raise(s).(staging := Remains(s.staging, luck.junk))
      else s.(staging := Some(Recorded(env, s.staging.value)), stage := SavingPresets(EntriesOf(env, s.staging.value.held)))
    case SavingPresets(entries) =>
      if luck.fails then Raise(s).(presets := true) else s.(presets := true, stage := WritingManifest(entries))
    case WritingManifest(entries) =>
      if luck.fails || s.staging.None? then Raise(s)
      else s.(staging := Some(s.staging.value.(manifest := Some(Manifest(env.inputs.trees, entries)))), stage := Publishing)
    case Publishing =>
      if luck.fails then Raise(s) else s.(published := s.staging, staging := None, stage := Verifying)
    case Verifying =>
      if luck.fails || !Verified(env.hash, s.published) then Raise(s) else s.(stage := Recording)
    case Recording =>
      if luck.fails then Raise(s).(complete := luck.lost) else s.(complete := true, stage := Returned)
    case Undoing(ok, step) => Undo(s, luck, ok, step)
    case _ => s
  }

  /** _cleanup_preparation: staging, published, presets, each error logged. */
  function Undo(s: Store, luck: Luck, ok: bool, step: nat): Store {
    if step == 0 then
      s.(staging := if luck.fails then Remains(s.staging, luck.junk) else None, stage := Undoing(ok && !luck.fails, 1))
    else if step == 1 then
      s.(published := if luck.fails then Remains(s.published, luck.junk) else None, stage := Undoing(ok && !luck.fails, 2))
    else
      s.(presets := if luck.fails then s.presets else false, stage := Raised(ok && !luck.fails))
  }

  /** A crash; what was being removed or copied is left half done. */
  function Killed(s: Store, junk: Option<Snap>): Store {
    match s.stage
    case DroppingStaging => s.(staging := Remains(s.staging, junk), stage := Resting)
    case DroppingPublished => s.(published := Remains(s.published, junk), stage := Resting)
    case Materializing => s.(staging := Remains(s.staging, junk), stage := Resting)
    case Inventorying => s.(staging := Remains(s.staging, junk), stage := Resting)
    case SavingPresets(_) => s.(presets := true, stage := Resting)
    case Undoing(_, step) =>
      if step == 0 then s.(staging := Remains(s.staging, junk), stage := Resting)
      else if step == 1 then s.(published := Remains(s.published, junk), stage := Resting)
      else s.(stage := Resting)
    case _ => s.(stage := Resting)
  }

  datatype Event = Call | Go(luck: Luck) | Die(junk: Option<Snap>) | Rot

  /** Anything but the manifest may change. */
  ghost predicate Drifts(was: Option<Snap>, snap: Option<Snap>) {
    if was.None? then snap.None? else snap.Some? && snap.value.manifest == was.value.manifest
  }

  /** Files may drift at any time until they were read again. */
  ghost predicate Follows(env: Env, s: Store, e: Event, s': Store) {
    match e
    case Call => AtRest(s.stage) && s' == s.(stage := Entering)
    case Go(luck) => !AtRest(s.stage) && s' == Step(env, s, luck)
    case Die(junk) => s' == Killed(s, junk)
    case Rot =>
      && !s.complete && s.stage != Recording
      && Drifts(s.staging, s'.staging) && Drifts(s.published, s'.published)
      && s' == s.(staging := s'.staging, published := s'.published)
  }

  ghost predicate Run(env: Env, stores: seq<Store>, events: seq<Event>) {
    && |stores| == |events| + 1 && stores[0] == NEW_STORE
    && forall i {:trigger events[i]} :: 0 <= i < |events| ==> Follows(env, stores[i], events[i], stores[i + 1])
  }

  // --- What complete means ---------------------------------------------------------------

  /** The directory holds what was captured, file by file, and its manifest says so. */
  ghost predicate Whole(env: Env, snap: Option<Snap>) {
    && Verified(env.hash, snap) && Lists(env, snap.value.manifest.value)
    && (forall key | key in env.inputs.trees ::
          DigestsOf(env.hash, At(snap.value.held.shared, key, EMPTY).files) == env.inputs.trees[key])
    && (forall id | id in env.inputs.instances ::
          && DigestsOf(env.hash, At(snap.value.held.instances, id, EMPTY).files) == env.inputs.instances[id].files
          && id in snap.value.records && env.hash(snap.value.records[id]) == env.hash(env.inputs.instances[id].metadata))
  }

  /** Entries for exactly the captured instances, with the captured digests. */
  ghost predicate EntriesFit(env: Env, entries: Entries) {
    && entries.Keys == env.inputs.instances.Keys
    && forall id | id in entries ::
         && (map p | p in entries[id].files :: entries[id].files[p].digest) == env.inputs.instances[id].files
         && entries[id].metadata == env.hash(env.inputs.instances[id].metadata)
  }

  ghost predicate Lists(env: Env, manifest: Manifest) {
    manifest.trees == env.inputs.trees && EntriesFit(env, manifest.instances)
  }

  /** A manifest that is there lists what was captured. */
  ghost predicate ListsIfAny(env: Env, snap: Option<Snap>) {
    snap.Some? && snap.value.manifest.Some? ==> Lists(env, snap.value.manifest.value)
  }

  ghost predicate Inv(env: Env, s: Store) {
    && ListsIfAny(env, s.staging) && ListsIfAny(env, s.published)
    && (s.complete ==> AtRest(s.stage) || s.stage == Entering || s.stage.Undoing?)
    && match s.stage
       case SavingPresets(entries) => EntriesFit(env, entries) && s.published == None
       case WritingManifest(entries) => EntriesFit(env, entries) && s.published == None
       case Materializing => s.staging == None && s.published == None
       case Inventorying => s.published == None
       case DroppingPublished => s.staging == None
       case DroppingPresets => s.staging == None && s.published == None
       case Verifying => s.staging == None
       case Recording => Whole(env, s.published) && s.staging == None
       case Undoing(ok, step) =>
         ok ==> (step >= 1 ==> s.staging == None) && (step >= 2 ==> s.published == None)
       case Raised(clean) => clean ==> s.staging == None && s.published == None && !s.presets
       case _ => true
  }

  /** What the inventory checked is what the entries list. */
  lemma EntriesAreCaptured(env: Env, held: Held)
    requires StillCaptured(env, held)
    ensures EntriesFit(env, EntriesOf(env, held))
  {
    var entries := EntriesOf(env, held);
    forall id | id in entries
      ensures (map p | p in entries[id].files :: entries[id].files[p].digest) == env.inputs.instances[id].files
    {
      assert (map p | p in entries[id].files :: entries[id].files[p].digest)
          == DigestsOf(env.hash, At(held.instances, id, EMPTY).files);
    }
  }

  /** Reading again what a manifest of the capture lists leaves no room for drift. */
  lemma VerifiedIsWhole(env: Env, snap: Option<Snap>)
    requires Verified(env.hash, snap) && ListsIfAny(env, snap)
    ensures Whole(env, snap)
  {
    var manifest := snap.value.manifest.value;
    forall id | id in env.inputs.instances
      ensures DigestsOf(env.hash, At(snap.value.held.instances, id, EMPTY).files) == env.inputs.instances[id].files
    {
      assert id in manifest.instances;
      assert DigestsOf(env.hash, At(snap.value.held.instances, id, EMPTY).files)
          == (map p | p in manifest.instances[id].files :: manifest.instances[id].files[p].digest);
    }
  }

  lemma StepKeeps(env: Env, s: Store, luck: Luck)
    requires Inv(env, s)
    ensures Inv(env, Step(env, s, luck))
  {
    if s.stage == Inventorying {
      if s.staging.Some? && StillCaptured(env, s.staging.value.held) { EntriesAreCaptured(env, s.staging.value.held); }
    } else if s.stage == Verifying {
      if Verified(env.hash, s.published) { VerifiedIsWhole(env, s.published); }
    } else {
      OtherStepKeeps(env, s, luck);
    }
  }

  lemma OtherStepKeeps(env: Env, s: Store, luck: Luck)
    requires Inv(env, s) && s.stage != Inventorying && s.stage != Verifying
    ensures Inv(env, Step(env, s, luck))
  {
  }

  /** Every operation, crash and drift keeps what is known of the stages and manifests. */
  lemma EventKeeps(env: Env, s: Store, e: Event, s': Store)
    requires Inv(env, s) && Follows(env, s, e, s')
    ensures Inv(env, s')
  {
    if e.Go? { StepKeeps(env, s, e.luck); }
  }

  lemma {:induction false} RunInv(env: Env, stores: seq<Store>, events: seq<Event>, i: nat)
    requires Run(env, stores, events) && i < |stores|
    ensures Inv(env, stores[i])
  {
    if i > 0 {
      RunInv(env, stores, events, i - 1);
      EventKeeps(env, stores[i - 1], events[i - 1], stores[i]);
    }
  }

  /** In every run: a call returns, and an operation is recorded as complete, only with a
      published directory that holds exactly what was captured; and a failure whose
      cleanup went through leaves nothing. */
  lemma CompleteMeansWhole(env: Env, stores: seq<Store>, events: seq<Event>, i: nat)
    requires Run(env, stores, events) && i < |events|
    ensures stores[i + 1].stage == Returned && stores[i].stage != Returned ==> Whole(env, stores[i + 1].published)
    ensures stores[i + 1].complete && !stores[i].complete ==> Whole(env, stores[i + 1].published)
    ensures stores[i + 1].stage == Raised(true) ==>
              stores[i + 1].staging == None && stores[i + 1].published == None && !stores[i + 1].presets
  {
    RunInv(env, stores, events, i);
    RunInv(env, stores, events, i + 1);
    assert Follows(env, stores[i], events[i], stores[i + 1]);
    var s := stores[i];
    if s.stage == Entering && Verified(env.hash, s.published) { VerifiedIsWhole(env, s.published); }
  }

  // --- A commit that raised --------------------------------------------------------------

  /** A cleanup removes what is recorded as complete, or part of it. */
  ghost predicate Destroys(env: Env, s: Store, s': Store) {
    s.complete && s.stage.Undoing? && s.stage.step == 1 && !Whole(env, s'.published)
  }

  ghost predicate WholeIfComplete(env: Env, s: Store) {
    s.complete ==> Whole(env, s.published)
  }

  lemma WholeUnlessDestroyed(env: Env, s: Store, e: Event, s': Store)
    requires Inv(env, s) && Follows(env, s, e, s') && WholeIfComplete(env, s)
    ensures WholeIfComplete(env, s') || Destroys(env, s, s')
  {
  }

  /** What is recorded as complete is whole throughout a run exactly when no cleanup after
      a lost commit reached its published directory and left it otherwise. */
  lemma {:induction false} WholeExactly(env: Env, stores: seq<Store>, events: seq<Event>)
    requires Run(env, stores, events)
    ensures (forall i :: 0 <= i < |stores| ==> WholeIfComplete(env, stores[i]))
        <==> forall i :: 0 <= i < |events| ==> !Destroys(env, stores[i], stores[i + 1])
  {
    if forall i :: 0 <= i < |events| ==> !Destroys(env, stores[i], stores[i + 1]) {
      forall i | 0 <= i < |stores| ensures WholeIfComplete(env, stores[i]) {
        StaysWhole(env, stores, events, i);
      }
    } else {
      var i :| 0 <= i < |events| && Destroys(env, stores[i], stores[i + 1]);
      DestroyedIsNotWhole(env, stores, events, i);
    }
  }

  lemma DestroyedIsNotWhole(env: Env, stores: seq<Store>, events: seq<Event>, i: nat)
    requires Run(env, stores, events) && i < |events| && Destroys(env, stores[i], stores[i + 1])
    ensures !WholeIfComplete(env, stores[i + 1])
  {
    CompleteStays(env, stores, events, i, i + 1);
  }

  lemma {:induction false} StaysWhole(env: Env, stores: seq<Store>, events: seq<Event>, i: nat)
    requires Run(env, stores, events) && i < |stores|
    requires forall j :: 0 <= j < i ==> !Destroys(env, stores[j], stores[j + 1])
    ensures WholeIfComplete(env, stores[i])
  {
    if i > 0 {
      StaysWhole(env, stores, events, i - 1);
      RunInv(env, stores, events, i - 1);
      WholeUnlessDestroyed(env, stores[i - 1], events[i - 1], stores[i]);
    }
  }

  /** The flag is never taken back. */
  lemma {:induction false} CompleteStays(env: Env, stores: seq<Store>, events: seq<Event>, i: nat, j: nat)
    requires Run(env, stores, events) && i <= j < |stores| && stores[i].complete
    ensures stores[j].complete
    decreases j - i
  {
    if i < j {
      CompleteStays(env, stores, events, i, j - 1);
      RunInv(env, stores, events, j - 1);
      assert Follows(env, stores[j - 1], events[j - 1], stores[j]);
    }
  }

  /** A commit that raised although it had gone through. */
  ghost predicate CommitLost(s: Store, e: Event) {
    s.stage == Recording && e.Go? && e.luck.fails && e.luck.lost
  }

  /** Without a lost commit no rerun, error or crash removes or changes what is recorded
      as complete. */
  lemma {:induction false} UntouchedUnlessLost(env: Env, stores: seq<Store>, events: seq<Event>, i: nat, j: nat)
    requires Run(env, stores, events) && i <= j < |stores|
    requires forall k :: 0 <= k < j ==> !CommitLost(stores[k], events[k])
    ensures stores[j].complete ==> !stores[j].stage.Undoing? && Whole(env, stores[j].published)
    ensures stores[i].complete ==> stores[j].complete && stores[j].published == stores[i].published
    decreases j
  {
    if j > 0 {
      UntouchedUnlessLost(env, stores, events, if i == j then j - 1 else i, j - 1);
      RunInv(env, stores, events, j - 1);
      UntouchedByOne(env, stores[j - 1], events[j - 1], stores[j]);
    }
  }

  lemma UntouchedByOne(env: Env, s: Store, e: Event, s': Store)
    requires Inv(env, s) && Follows(env, s, e, s') && !CommitLost(s, e)
    requires s.complete ==> !s.stage.Undoing? && Whole(env, s.published)
    ensures s'.complete ==> !s'.stage.Undoing? && Whole(env, s'.published)
    ensures s.complete ==> s'.complete && s'.published == s.published
  {
  }

  // --- Reruns rebuild --------------------------------------------------------------------

  /** n operations without a failure. */
  function Uncut(env: Env, s: Store, readings: Readings, n: nat): Store
    decreases n
  {
    if n == 0 then s else Uncut(env, Step(env, s, AllWell(readings)), readings, n - 1)
  }

  function Rank(stage: Stage): nat {
    match stage
    case Entering => 14
    case DroppingStaging => 13
    case DroppingPublished => 12
    case DroppingPresets => 11
    case Materializing => 10
    case Inventorying => 9
    case SavingPresets(_) => 8
    case WritingManifest(_) => 7
    case Publishing => 6
    case Verifying => 5
    case Recording => 4
    case Undoing(_, step) => if step < 3 then 3 - step else 1
    case _ => 0
  }

  predicate Copyable(env: Env, readings: Readings) {
    AllFaithful(env.hash, env.roots, env.inputs, readings)
  }

  /** What an attempt that is let run has made at each stage. */
  ghost predicate Building(env: Env, readings: Readings, s: Store) {
    && Inv(env, s) && !s.complete
    && match s.stage
       case Entering => true
       case DroppingStaging => true
       case DroppingPublished => true
       case DroppingPresets => true
       case Materializing => true
       case Inventorying =>
         Copyable(env, readings) && s.staging == Some(Snap(Materialized(env.hash, env.roots, env.inputs, readings).value, map[], None))
       case SavingPresets(entries) => Copyable(env, readings) && AsRecorded(env, s.staging, entries)
       case WritingManifest(entries) => Copyable(env, readings) && AsRecorded(env, s.staging, entries)
       case Publishing => Copyable(env, readings) && Verified(env.hash, s.staging)
       case Verifying => Copyable(env, readings) && Verified(env.hash, s.published)
       case Recording => Copyable(env, readings)
       case Undoing(ok, _) => !Copyable(env, readings) && ok
       case Raised(clean) => !Copyable(env, readings) && clean
       case _ => false
  }

  /** Staged, and once the manifest is there, verified. */
  ghost predicate AsRecorded(env: Env, staging: Option<Snap>, entries: Entries) {
    && staging.Some?
    && Verified(env.hash, Some(staging.value.(manifest := Some(Manifest(env.inputs.trees, entries)))))
  }

  lemma RecordedVerifies(env: Env, readings: Readings)
    requires Copyable(env, readings)
    ensures var snap := Snap(Materialized(env.hash, env.roots, env.inputs, readings).value, map[], None);
            StillCaptured(env, snap.held) && AsRecorded(env, Some(Recorded(env, snap)), EntriesOf(env, snap.held))
  {
    MaterializedIsCaptured(env.hash, env.roots, env.inputs, readings);
    WhatIsRecorded(env, Snap(Materialized(env.hash, env.roots, env.inputs, readings).value, map[], None));
  }

  lemma WhatIsRecorded(env: Env, snap: Snap)
    requires forall key | key in env.inputs.trees ::
               DigestsOf(env.hash, At(snap.held.shared, key, EMPTY).files) == env.inputs.trees[key]
    ensures AsRecorded(env, Some(Recorded(env, snap)), EntriesOf(env, snap.held))
  {
    var recorded := Recorded(env, snap);
    forall id | id in env.inputs.instances
      ensures At(recorded.held.instances, id, EMPTY) == WithRoot(At(snap.held.instances, id, EMPTY))
    {
    }
  }

  lemma BuildingGoesOn(env: Env, readings: Readings, s: Store)
    requires Building(env, readings, s) && Rank(s.stage) > 0
    ensures GoesOn(env, readings, s)
  {
    StepKeeps(env, s, AllWell(readings));
    if s.stage == Inventorying { InventoryGoesOn(env, readings, s); } else { OthersGoOn(env, readings, s); }
  }

  ghost predicate GoesOn(env: Env, readings: Readings, s: Store) {
    var t := Step(env, s, AllWell(readings));
    && Rank(t.stage) < Rank(s.stage)
    && (Copyable(env, readings) && s.stage != Recording ==> Rank(t.stage) == Rank(s.stage) - 1)
    && if s.stage == Recording then t.complete && t.stage == Returned && Whole(env, t.published)
       else Building(env, readings, t)
  }

  lemma InventoryGoesOn(env: Env, readings: Readings, s: Store)
    requires Building(env, readings, s) && s.stage == Inventorying && Inv(env, Step(env, s, AllWell(readings)))
    ensures GoesOn(env, readings, s)
  {
    RecordedVerifies(env, readings);
  }

  lemma OthersGoOn(env: Env, readings: Readings, s: Store)
    requires Building(env, readings, s) && Rank(s.stage) > 0 && s.stage != Inventorying
    requires Inv(env, Step(env, s, AllWell(readings)))
    ensures GoesOn(env, readings, s)
  {
  }

  lemma RestsAlready(env: Env, s: Store, readings: Readings, n: nat)
    requires AtRest(s.stage)
    ensures Uncut(env, s, readings, n) == s
    decreases n
  {
  }

  lemma {:induction false} Builds(env: Env, readings: Readings, s: Store, n: nat)
    requires Building(env, readings, s) && n >= Rank(s.stage)
    ensures var end := Uncut(env, s, readings, n);
            if Copyable(env, readings) then end.stage == Returned && end.complete && Whole(env, end.published)
            else end.stage == Raised(true) && !end.complete && end.staging == None && end.published == None && !end.presets
    decreases n
  {
    if Rank(s.stage) == 0 {
      RestsAlready(env, s, readings, n);
    } else {
      BuildingGoesOn(env, readings, s);
      var t := Step(env, s, AllWell(readings));
      if s.stage == Recording { RestsAlready(env, t, readings, n - 1); } else { Builds(env, readings, t, n - 1); }
    }
  }

  /** After any run, a call that is let run: unless already complete it builds and records
      a whole snapshot exactly when what it copies is as captured, and else leaves nothing;
      what is recorded as complete is returned exactly when it is still whole. */
  lemma RerunRebuilds(env: Env, stores: seq<Store>, events: seq<Event>, i: nat, readings: Readings)
    requires Run(env, stores, events) && i < |stores| && AtRest(stores[i].stage)
    ensures var s := stores[i];
            var end := Uncut(env, s.(stage := Entering), readings, 14);
            if s.complete then
              end == s.(stage := if Whole(env, s.published) then Returned else Raised(false))
            else if Copyable(env, readings) then
              end.stage == Returned && end.complete && Whole(env, end.published)
            else
              end.stage == Raised(true) && !end.complete && end.staging == None && end.published == None && !end.presets
  {
    RunInv(env, stores, events, i);
    var s := stores[i].(stage := Entering);
    if s.complete {
      if Verified(env.hash, s.published) { VerifiedIsWhole(env, s.published); }
      RestsAlready(env, Step(env, s, AllWell(readings)), readings, 13);
    } else {
      Builds(env, readings, s, 14);
    }
  }

  // --- The run of a lost commit ----------------------------------------------------------

  /** Everything goes well but for the commit, which raises although it went through. */
  function LostLuck(readings: Readings, n: nat): Luck {
    AllWell(readings).(fails := n == 11, lost := n == 11)
  }

  function LostEvent(readings: Readings, n: nat): Event {
    if n == 0 then Call else Go(LostLuck(readings, n))
  }

  function LostStore(env: Env, readings: Readings, n: nat): Store {
    if n == 0 then NEW_STORE
    else if n == 1 then NEW_STORE.(stage := Entering)
    else Step(env, LostStore(env, readings, n - 1), LostLuck(readings, n - 1))
  }

  lemma {:induction false} UntilTheCommit(env: Env, readings: Readings, n: nat)
    requires Copyable(env, readings) && 1 <= n <= 11
    ensures var s := LostStore(env, readings, n); Building(env, readings, s) && Rank(s.stage) == 15 - n
  {
    if n > 1 {
      UntilTheCommit(env, readings, n - 1);
      BuildingGoesOn(env, readings, LostStore(env, readings, n - 1));
    }
  }

  /** A first call of any capture that can be copied: a commit that raised although it had
      gone through makes the cleanup delete what is recorded as complete. */
  lemma LostCommitDeletes(env: Env, readings: Readings)
    requires Copyable(env, readings)
    ensures var stores := seq(16, (n: nat) => LostStore(env, readings, n));
            var events := seq(15, (n: nat) => LostEvent(readings, n));
            && Run(env, stores, events) && CommitLost(stores[11], events[11]) && Destroys(env, stores[13], stores[14])
            && stores[15] == Store(None, None, false, true, Raised(true))
  {
    var stores := seq(16, (n: nat) => LostStore(env, readings, n));
    var events := seq(15, (n: nat) => LostEvent(readings, n));
    forall n | 0 <= n < 15 ensures Follows(env, stores[n], events[n], stores[n + 1]) {
      if 1 <= n <= 11 { UntilTheCommit(env, readings, n); } else if n > 11 { AfterTheCommit(env, readings); }
    }
    UntilTheCommit(env, readings, 11);
    AfterTheCommit(env, readings);
  }

  lemma AfterTheCommit(env: Env, readings: Readings)
    requires Copyable(env, readings)
    ensures LostStore(env, readings, 12).stage == Undoing(true, 0) && LostStore(env, readings, 12).complete
    ensures LostStore(env, readings, 13).stage == Undoing(true, 1) && LostStore(env, readings, 13).complete
    ensures LostStore(env, readings, 14).stage == Undoing(true, 2) && LostStore(env, readings, 14).complete
    ensures LostStore(env, readings, 14).published == None
    ensures LostStore(env, readings, 15) == Store(None, None, false, true, Raised(true))
  {
    UntilTheCommit(env, readings, 11);
    assert LostStore(env, readings, 11).stage == Recording;
    assert LostStore(env, readings, 12) == Raise(LostStore(env, readings, 11)).(complete := true);
    assert LostStore(env, readings, 13) == Undo(LostStore(env, readings, 12), LostLuck(readings, 12), true, 0);
    assert LostStore(env, readings, 14) == Undo(LostStore(env, readings, 13), LostLuck(readings, 13), true, 1);
    assert LostStore(env, readings, 15) == Undo(LostStore(env, readings, 14), LostLuck(readings, 14), true, 2);
  }

  /** There is such a call: an instance of one file, and nothing that changes. */
  lemma SomethingCopyable(hash: Bytes -> Digest, bytes: Bytes)
    ensures var file := map[["server.cfg"] := File(bytes, 0x1a4)];
            var env := Env(hash, {}, Inputs(map[], map[1 := Capture(DigestsOf(hash, file), "{}")]));
            Copyable(env, Readings(map[], map[1 := Reading({["server.cfg"]}, file, map[[] := NEW_DIR_MODE])]))
  {
    var path: Path := ["server.cfg"];
    var folder := Folder(map[path := File(bytes, 0x1a4)], map[[] := NEW_DIR_MODE]);
    assert Above({path}) == {[]} by { assert path[..0] == []; }
    assert Above({[]}) == {};
    assert folder.files.Keys == {path} && folder.dirs.Keys == {[]};
    UnchangedIsFaithful(hash, folder);
  }
}
