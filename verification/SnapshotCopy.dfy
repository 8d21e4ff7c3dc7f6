/**
 * Copying captured directories while their files may change: each file is read once, at
 * a time of its own, and the bytes that were hashed are the bytes that are written.
 */
module SnapshotCopy {
  import opened Options

  /** A path below a root, as its parts; the root is []. */
  type Path = seq<string>
  type Bytes = string
  type Digest = string
  type Digests = map<Path, Digest>

  datatype File = File(bytes: Bytes, mode: nat)

  /** What is below a root; nothing when there is no such root. */
  datatype Folder = Folder(files: map<Path, File>, dirs: map<Path, nat>)

  const EMPTY: Folder := Folder(map[], map[])

  const NEW_DIR_MODE: nat := 0x1ed  // 0o755

  function DigestsOf(hash: Bytes -> Digest, files: map<Path, File>): Digests {
    map p | p in files :: hash(files[p].bytes)
  }

  function At<K, V>(m: map<K, V>, key: K, default: V): V {
    if key in m then m[key] else default
  }

  /** What one copy saw of its source: the listing it began with, what opening and reading
      each path gave when its turn came (nothing if that raised), and the directories it
      walked at the end. Nothing relates the three: the source may change in between. */
  datatype Reading = Reading(listed: set<Path>, found: map<Path, File>, dirs: map<Path, nat>)

  const NOTHING: Reading := Reading({}, map[], map[])

  datatype Problem = Added(path: Path) | Missing(path: Path) | Changed(path: Path)

  /** A path _safe_join accepts. */
  predicate Safe(p: Path) {
    p != [] && forall part | part in p :: part != "" && part != "." && part != ".."
  }

  /** The directories above some paths. */
  function Above(paths: set<Path>): set<Path> {
    set p, k | p in paths && 0 <= k < |p| :: p[..k]
  }

  /** The file is there and its bytes have the captured digest. */
  predicate Right(hash: Bytes -> Digest, captured: Digests, reading: Reading, p: Path)
    requires p in captured
  {
    p in reading.found && hash(reading.found[p].bytes) == captured[p]
  }

  /** The captured paths of `done` that were read with the captured digest. */
  function Taken(hash: Bytes -> Digest, captured: Digests, reading: Reading, done: set<Path>): map<Path, File> {
    reading.found - (set p | p in reading.found && !(p in done && p in captured && Right(hash, captured, reading, p)))
  }

  /** What is reported of the captured paths of `done`. */
  function Drift(hash: Bytes -> Digest, captured: Digests, reading: Reading, done: set<Path>): set<Problem> {
    (set p | p in reading.listed && p !in captured :: Added(p))
    + (set p | p in done && p in captured && p !in reading.found :: Missing(p))
    + (set p | p in done && p in captured && p in reading.found && !Right(hash, captured, reading, p) :: Changed(p))
  }

  /** No file where another path needs a directory. */
  predicate Fits(files: set<Path>, dirs: set<Path>) {
    forall p | p in files :: p !in Above(files) && p !in dirs && p !in Above(dirs)
  }

  function NewDirs(paths: set<Path>): map<Path, nat> {
    map d | d in paths :: NEW_DIR_MODE
  }

  datatype Copy = Stopped | Copied(folder: Folder, problems: set<Problem>)

  /** What becomes of a copy into a new directory. */
  function CopyOf(hash: Bytes -> Digest, captured: Digests, reading: Reading): Copy {
    var files := Taken(hash, captured, reading, captured.Keys);
    if (forall p | p in captured :: Safe(p)) && Fits(files.Keys, reading.dirs.Keys) then
      Copied(Folder(files, NewDirs(Above(files.Keys) + Above(reading.dirs.Keys)) + reading.dirs),
             Drift(hash, captured, reading, captured.Keys))
    else Stopped
  }

  /** Nothing raised and nothing to report. */
  predicate Faithful(hash: Bytes -> Digest, captured: Digests, reading: Reading) {
    var copy := CopyOf(hash, captured, reading);
    copy.Copied? && copy.problems == {}
  }

  function FolderOf(hash: Bytes -> Digest, captured: Digests, reading: Reading): (folder: Folder)
    requires Faithful(hash, captured, reading)
  {
    CopyOf(hash, captured, reading).folder
  }

  /** Whatever changed, and whenever: no problem is reported exactly when no file was
      added and the copy's digests are the captured ones. */
  lemma {:induction false} CopyIsCaptured(hash: Bytes -> Digest, captured: Digests, reading: Reading)
    requires CopyOf(hash, captured, reading).Copied?
    ensures var copy := CopyOf(hash, captured, reading);
            copy.problems == {} <==>
              DigestsOf(hash, copy.folder.files) == captured && reading.listed <= captured.Keys
  {
    NoDriftExactly(hash, captured, reading);
    var copy := CopyOf(hash, captured, reading);
    var digests := DigestsOf(hash, copy.folder.files);
    assert digests == captured <==> captured.Keys <= digests.Keys;
    assert forall p :: p in digests <==> p in captured && Right(hash, captured, reading, p);
  }

  lemma NoDriftExactly(hash: Bytes -> Digest, captured: Digests, reading: Reading)
    ensures Drift(hash, captured, reading, captured.Keys) == {} <==>
              reading.listed <= captured.Keys && forall p | p in captured :: Right(hash, captured, reading, p)
  {
    var drift := Drift(hash, captured, reading, captured.Keys);
    assert forall p :: Added(p) in drift <==> p in reading.listed && p !in captured;
    assert forall p :: Missing(p) in drift <==> p in captured && p !in reading.found;
    assert forall p :: Changed(p) in drift <==> p in captured && p in reading.found && !Right(hash, captured, reading, p);
  }

  /** A capture of a folder that is a tree, read while nothing changes, is copied file by
      file and directory by directory. */
  lemma UnchangedIsFaithful(hash: Bytes -> Digest, folder: Folder)
    requires Fits(folder.files.Keys, folder.dirs.Keys) && forall p | p in folder.files :: Safe(p)
    requires Above(folder.files.Keys) + Above(folder.dirs.Keys) <= folder.dirs.Keys
    ensures var captured := DigestsOf(hash, folder.files);
            var reading := Reading(folder.files.Keys, folder.files, folder.dirs);
            Faithful(hash, captured, reading) && FolderOf(hash, captured, reading) == folder
  {
    var captured := DigestsOf(hash, folder.files);
    var reading := Reading(folder.files.Keys, folder.files, folder.dirs);
    var files := Taken(hash, captured, reading, captured.Keys);
    assert files == folder.files;
    assert Drift(hash, captured, reading, captured.Keys) == {};
    assert NewDirs(Above(files.Keys) + Above(reading.dirs.Keys)) + reading.dirs == folder.dirs;
  }

  // --- A whole capture -------------------------------------------------------------------

  datatype Capture = Capture(files: Digests, metadata: Bytes)

  /** The confirmed capture: shared trees by key, instances by id. */
  datatype Inputs = Inputs(trees: map<string, Digests>, instances: map<nat, Capture>)

  function Configs(instances: map<nat, Capture>): map<nat, Digests> {
    map id | id in instances :: instances[id].files
  }

  datatype Readings = Readings(shared: map<string, Reading>, instances: map<nat, Reading>)

  datatype Held = Held(shared: map<string, Folder>, instances: map<nat, Folder>)

  predicate FaithfulOn<K>(hash: Bytes -> Digest, trees: map<K, Digests>, readings: map<K, Reading>, done: set<K>) {
    forall key | key in done && key in trees :: Faithful(hash, trees[key], At(readings, key, NOTHING))
  }

  function Folders<K>(hash: Bytes -> Digest, trees: map<K, Digests>, readings: map<K, Reading>, done: set<K>): map<K, Folder>
    requires FaithfulOn(hash, trees, readings, done)
  {
    map key | key in done && key in trees :: FolderOf(hash, trees[key], At(readings, key, NOTHING))
  }

  predicate AllFaithful(hash: Bytes -> Digest, roots: set<string>, inputs: Inputs, readings: Readings) {
    && inputs.trees.Keys <= roots
    && FaithfulOn(hash, inputs.trees, readings.shared, inputs.trees.Keys)
    && FaithfulOn(hash, Configs(inputs.instances), readings.instances, inputs.instances.Keys)
  }

  /** What materialize_upgrade_inputs leaves in a new directory, unless it raises. */
  function Materialized(hash: Bytes -> Digest, roots: set<string>, inputs: Inputs, readings: Readings): Option<Held> {
    if !AllFaithful(hash, roots, inputs, readings) then None
    else Some(Held(Folders(hash, inputs.trees, readings.shared, inputs.trees.Keys),
                   Folders(hash, Configs(inputs.instances), readings.instances, inputs.instances.Keys)))
  }

  lemma FoldersAreCaptured<K>(hash: Bytes -> Digest, trees: map<K, Digests>, readings: map<K, Reading>)
    requires FaithfulOn(hash, trees, readings, trees.Keys)
    ensures var folders := Folders(hash, trees, readings, trees.Keys);
            folders.Keys == trees.Keys && forall key | key in trees :: DigestsOf(hash, folders[key].files) == trees[key]
  {
    forall key | key in trees
      ensures DigestsOf(hash, FolderOf(hash, trees[key], At(readings, key, NOTHING)).files) == trees[key]
    {
      CopyIsCaptured(hash, trees[key], At(readings, key, NOTHING));
    }
  }

  /** Whatever changes while it runs, what was materialized has the captured digests. */
  lemma MaterializedIsCaptured(hash: Bytes -> Digest, roots: set<string>, inputs: Inputs, readings: Readings)
    requires Materialized(hash, roots, inputs, readings).Some?
    ensures var held := Materialized(hash, roots, inputs, readings).value;
            && held.shared.Keys == inputs.trees.Keys && held.instances.Keys == inputs.instances.Keys
            && (forall key | key in inputs.trees :: DigestsOf(hash, held.shared[key].files) == inputs.trees[key])
            && (forall id | id in inputs.instances :: DigestsOf(hash, held.instances[id].files) == inputs.instances[id].files)
  {
    FoldersAreCaptured(hash, inputs.trees, readings.shared);
    FoldersAreCaptured(hash, Configs(inputs.instances), readings.instances);
  }

  // --- As it is written ------------------------------------------------------------------

  lemma OneMoreRead(hash: Bytes -> Digest, captured: Digests, reading: Reading, done: set<Path>, p: Path)
    requires p in captured && p !in done
    ensures Taken(hash, captured, reading, done + {p}) ==
            if Right(hash, captured, reading, p) then Taken(hash, captured, reading, done)[p := reading.found[p]]
            else Taken(hash, captured, reading, done)
    ensures Drift(hash, captured, reading, done + {p}) == Drift(hash, captured, reading, done) +
            if p !in reading.found then {Missing(p)} else if !Right(hash, captured, reading, p) then {Changed(p)} else {}
  {
  }

  /** One more path is written where nothing is in its way. */
  lemma FitsOneMore(files: set<Path>, p: Path)
    requires Fits(files, {}) && p !in files
    ensures Fits(files + {p}, {}) <==> p !in Above(files) && forall k | 0 <= k < |p| :: p[..k] !in files
    ensures Above(files + {p}) == Above(files) + Above({p})
    ensures Above({}) == {}
  {
    assert Above({}) == {};
    assert Above(files + {p}) == Above(files) + Above({p});
    forall k | 0 <= k < |p| ensures p[..k] in Above({p}) {
    }
  }

  /** A directory that a tree is copied into. */
  class Destination {
    var files: map<Path, File>
    var dirs: map<Path, nat>

    constructor ()
      ensures files == map[] && dirs == map[]
    {
      files, dirs := map[], map[];
    }

    ghost function Now(): Folder
      reads this
    {
      Folder(files, dirs)
    }

    /** os.makedirs of what is above a file, and the file; or a path in the way. */
    method Write(p: Path, file: File) returns (ok: bool)
      modifies this
      ensures ok == !InTheWay(old(Now()), p)
      ensures Now() == if ok then Written(old(Now()), p, file) else old(Now())
    {
      if InTheWay(Folder(files, dirs), p) { return false; }
      dirs := NewDirs(Above({p})) + dirs;
      files := files[p := file];
      return true;
    }

    /** _copy_verified_tree, into a new directory. */
    method CopyVerified(hash: Bytes -> Digest, captured: Digests, reading: Reading)
      returns (raised: bool, problems: set<Problem>)
      requires files == map[] && dirs == map[]
      modifies this
      ensures CopyOf(hash, captured, reading) == if raised then Stopped else Copied(Now(), problems)
    {
      problems := set p | p in reading.listed && p !in captured :: Added(p);
      var todo := captured.Keys;
      ghost var done: set<Path> := {};
      Begin(hash, captured, reading);
      while todo != {}
        invariant todo == captured.Keys - done && done <= captured.Keys
        invariant SoFar(hash, captured, reading, done, Now(), problems)
      {
        var p :| p in todo;
        if !Safe(p) { return true, problems; }
        if p !in reading.found {
          NotTaken(hash, captured, reading, done, p, Now(), problems);
          problems := problems + {Missing(p)};
        } else if hash(reading.found[p].bytes) != captured[p] {
          NotTaken(hash, captured, reading, done, p, Now(), problems);
          problems := problems + {Changed(p)};
        } else {
          ghost var before := Now();
          var ok := Write(p, reading.found[p]);
          if !ok {
            IsBlocked(hash, captured, reading, done, p, before, problems);
            return true, problems;
          }
          IsTaken(hash, captured, reading, done, p, before, problems);
        }
        todo, done := todo - {p}, done + {p};
      }
      assert done == captured.Keys;
      var ok := CopyDirectories(reading.dirs);
      raised := !ok;
    }

    /** _copy_directories: the modes are applied when everything is there. */
    method CopyDirectories(found: map<Path, nat>) returns (ok: bool)
      requires Fits(files.Keys, {}) && dirs == NewDirs(Above(files.Keys))
      modifies `dirs
      ensures ok <==> Fits(files.Keys, found.Keys)
      ensures ok ==> dirs == NewDirs(Above(files.Keys) + Above(found.Keys)) + found
    {
      var todo := found.Keys;
      ghost var done: set<Path> := {};
      WalkBegins(files.Keys);
      while todo != {}
        invariant todo == found.Keys - done && done <= found.Keys
        invariant Walked(files.Keys, done, dirs)
      {
        var d :| d in todo;
        WalkOneMore(files.Keys, done, d, dirs, found.Keys);
        if d in files || exists k | 0 <= k < |d| :: d[..k] in files { return false; }
        dirs := NewDirs(Above({d}) + {d}) + dirs;
        todo, done := todo - {d}, done + {d};
      }
      assert done == found.Keys;
      dirs := dirs + found;
      return true;
    }
  }

  /** What holds of the copy when the paths of `done` were dealt with. */
  ghost predicate SoFar(hash: Bytes -> Digest, captured: Digests, reading: Reading, done: set<Path>, to: Folder, problems: set<Problem>) {
    && (forall p | p in done :: Safe(p))
    && to == Folder(Taken(hash, captured, reading, done), NewDirs(Above(to.files.Keys))) && Fits(to.files.Keys, {})
    && problems == Drift(hash, captured, reading, done)
  }

  lemma Begin(hash: Bytes -> Digest, captured: Digests, reading: Reading)
    ensures SoFar(hash, captured, reading, {}, EMPTY, set p | p in reading.listed && p !in captured :: Added(p))
  {
    assert Above({}) == {};
    assert NewDirs({}) == map[];
    assert Taken(hash, captured, reading, {}) == map[];
  }

  lemma NotTaken(hash: Bytes -> Digest, captured: Digests, reading: Reading, done: set<Path>, p: Path, to: Folder, problems: set<Problem>)
    requires SoFar(hash, captured, reading, done, to, problems)
    requires p in captured && p !in done && Safe(p) && !Right(hash, captured, reading, p)
    ensures SoFar(hash, captured, reading, done + {p}, to, problems + {if p !in reading.found then Missing(p) else Changed(p)})
  {
    OneMoreRead(hash, captured, reading, done, p);
  }

  predicate InTheWay(to: Folder, p: Path) {
    p in to.dirs || exists k | 0 <= k < |p| :: p[..k] in to.files
  }

  function Written(to: Folder, p: Path, file: File): Folder {
    Folder(to.files[p := file], NewDirs(Above({p})) + to.dirs)
  }

  lemma FitsStill(to: Folder, p: Path, file: File)
    requires Fits(to.files.Keys, {}) && to.dirs == NewDirs(Above(to.files.Keys)) && p !in to.files && !InTheWay(to, p)
    ensures var to' := Written(to, p, file); Fits(to'.files.Keys, {}) && to'.dirs == NewDirs(Above(to'.files.Keys))
  {
    FitsOneMore(to.files.Keys, p);
    assert Written(to, p, file).files.Keys == to.files.Keys + {p};
  }

  lemma IsTaken(hash: Bytes -> Digest, captured: Digests, reading: Reading, done: set<Path>, p: Path, to: Folder, problems: set<Problem>)
    requires SoFar(hash, captured, reading, done, to, problems) && !InTheWay(to, p)
    requires p in captured && p !in done && Safe(p) && Right(hash, captured, reading, p)
    ensures SoFar(hash, captured, reading, done + {p}, Written(to, p, reading.found[p]), problems)
  {
    OneMoreRead(hash, captured, reading, done, p);
    FitsStill(to, p, reading.found[p]);
  }

  lemma IsBlocked(hash: Bytes -> Digest, captured: Digests, reading: Reading, done: set<Path>, p: Path, to: Folder, problems: set<Problem>)
    requires SoFar(hash, captured, reading, done, to, problems) && done <= captured.Keys && InTheWay(to, p)
    requires p in captured && p !in done && Right(hash, captured, reading, p)
    ensures CopyOf(hash, captured, reading) == Stopped
  {
    OneMoreRead(hash, captured, reading, done, p);
    FitsOneMore(to.files.Keys, p);
    CannotFit(hash, captured, reading, done + {p});
  }

  ghost predicate Walked(files: set<Path>, done: set<Path>, dirs: map<Path, nat>) {
    Fits(files, done) && dirs == NewDirs(Above(files) + Above(done) + done)
  }

  lemma WalkBegins(files: set<Path>)
    requires Fits(files, {})
    ensures Walked(files, {}, NewDirs(Above(files)))
  {
    assert Above({}) == {};
    assert Above(files) + {} + {} == Above(files);
  }

  lemma WalkOneMore(files: set<Path>, done: set<Path>, d: Path, dirs: map<Path, nat>, all: set<Path>)
    requires Walked(files, done, dirs) && done <= all && d in all
    ensures if d in files || exists k | 0 <= k < |d| :: d[..k] in files then !Fits(files, all)
            else Walked(files, done + {d}, NewDirs(Above({d}) + {d}) + dirs)
  {
    assert Above(done + {d}) == Above(done) + Above({d});
    forall k | 0 <= k < |d| ensures d[..k] in Above({d}) {
    }
    if d in files || exists k | 0 <= k < |d| :: d[..k] in files {
      assert Above({d}) <= Above(all);
    } else {
      assert NewDirs(Above({d}) + {d}) + dirs == NewDirs(Above(files) + Above(done + {d}) + (done + {d}));
    }
  }

  lemma CannotFit(hash: Bytes -> Digest, captured: Digests, reading: Reading, done: set<Path>)
    requires done <= captured.Keys && !Fits(Taken(hash, captured, reading, done).Keys, {})
    ensures CopyOf(hash, captured, reading) == Stopped
  {
    var files := Taken(hash, captured, reading, captured.Keys).Keys;
    assert Above({}) == {};
    assert Taken(hash, captured, reading, done).Keys <= files;
    assert Above(Taken(hash, captured, reading, done).Keys) <= Above(files);
  }

  ghost predicate CopiedSoFar<K>(hash: Bytes -> Digest, trees: map<K, Digests>, readings: map<K, Reading>,
                                 done: set<K>, changed: bool, folders: map<K, Folder>) {
    && (!changed <==> FaithfulOn(hash, trees, readings, done))
    && (!changed ==> folders == Folders(hash, trees, readings, done))
  }

  lemma CopiedOneMore<K>(hash: Bytes -> Digest, trees: map<K, Digests>, readings: map<K, Reading>,
                         done: set<K>, changed: bool, folders: map<K, Folder>, key: K, folder: Folder, problems: set<Problem>)
    requires CopiedSoFar(hash, trees, readings, done, changed, folders) && key in trees && key !in done
    requires CopyOf(hash, trees[key], At(readings, key, NOTHING)) == Copied(folder, problems)
    ensures CopiedSoFar(hash, trees, readings, done + {key}, changed || problems != {}, folders[key := folder])
  {
    assert FaithfulOn(hash, trees, readings, done + {key}) <==>
           FaithfulOn(hash, trees, readings, done) && Faithful(hash, trees[key], At(readings, key, NOTHING));
  }

  lemma Uncopied<K>(hash: Bytes -> Digest, trees: map<K, Digests>, readings: map<K, Reading>, key: K)
    requires key in trees && CopyOf(hash, trees[key], At(readings, key, NOTHING)) == Stopped
    ensures !FaithfulOn(hash, trees, readings, trees.Keys)
  {
    assert !Faithful(hash, trees[key], At(readings, key, NOTHING));
  }

  /** Every tree is copied and checked; one that is unknown or unsafe ends it. */
  method CopyAll<K>(hash: Bytes -> Digest, roots: set<K>, trees: map<K, Digests>, readings: map<K, Reading>)
    returns (raised: bool, changed: bool, folders: map<K, Folder>)
    ensures !raised && !changed <==> trees.Keys <= roots && FaithfulOn(hash, trees, readings, trees.Keys)
    ensures !raised && !changed ==> folders == Folders(hash, trees, readings, trees.Keys)
  {
    raised, changed, folders := false, false, map[];
    var todo := trees.Keys;
    ghost var done: set<K> := {};
    while todo != {}
      invariant todo == trees.Keys - done && done <= trees.Keys && done <= roots
      invariant CopiedSoFar(hash, trees, readings, done, changed, folders)
    {
      var key :| key in todo;
      if key !in roots { return true, changed, folders; }
      var to := new Destination();
      var failed, problems := to.CopyVerified(hash, trees[key], At(readings, key, NOTHING));
      if failed {
        Uncopied(hash, trees, readings, key);
        return true, changed, folders;
      }
      CopiedOneMore(hash, trees, readings, done, changed, folders, key, to.Now(), problems);
      changed := changed || problems != {};
      folders := folders[key := Folder(to.files, to.dirs)];
      todo, done := todo - {key}, done + {key};
    }
    assert done == trees.Keys;
  }

  /** materialize_upgrade_inputs: it raises after all trees were checked. */
  method Materialize(hash: Bytes -> Digest, roots: set<string>, inputs: Inputs, readings: Readings) returns (r: Option<Held>)
    ensures r == Materialized(hash, roots, inputs, readings)
  {
    var raised, changed, shared := CopyAll(hash, roots, inputs.trees, readings.shared);
    if raised { return None; }
    var configs := Configs(inputs.instances);
    assert configs.Keys == inputs.instances.Keys;
    var raised', changed', instances := CopyAll(hash, configs.Keys, configs, readings.instances);
    if raised' || changed || changed' { return None; }
    return Some(Held(shared, instances));
  }
}
