/** The two commands as loops over a host's files; each is a run of the machine. */
module ManagedFilesOps {
  import opened Options
  import opened Runs
  import opened ManagedFiles
  import opened ManagedFilesProofs
  import opened ManagedFilesUndo

  lemma {:induction false} AfterMore(site: Site, h: Host, n: nat)
    ensures After(site, h, n + 1) == Go(site, After(site, h, n))
    decreases n
  {
    if n > 0 { AfterMore(site, Go(site, h), n - 1); }
  }

  lemma {:induction false} AfterSum(site: Site, h: Host, n: nat, m: nat)
    ensures After(site, h, n + m) == After(site, After(site, h, n), m)
    decreases n
  {
    if n > 0 { AfterSum(site, Go(site, h), n - 1, m); }
  }

  /** However many operations two uncut runs of a command took, they end alike: the
      methods below end where the machine does. */
  lemma EndsAlike(site: Site, h: Host, n: nat, m: nat)
    requires !Working(After(site, h, n).job) && !Working(After(site, h, m).job)
    ensures After(site, h, n) == After(site, h, m)
  {
    if n <= m {
      AfterSum(site, h, n, m - n);
      Stays(site, After(site, h, n), m - n);
    } else {
      AfterSum(site, h, m, n - m);
      Stays(site, After(site, h, m), n - m);
    }
  }

  function Steps(site: Site): (Host, nat) -> Host {
    (h: Host, n: nat) => Go(site, h)
  }

  lemma AfterIsRun(site: Site, start: Host)
    ensures IsRun(Steps(site), (k: nat) => After(site, start, k))
  {
    forall k: nat ensures After(site, start, k + 1) == Go(site, After(site, start, k)) {
      AfterMore(site, start, k);
    }
  }

  /** A mkdir only moves the first gap down the path. */
  lemma GapMoves(site: Site, tree: Tree, dest: Path, node: Node)
    requires Write(site, tree, dest, node).Made?
    ensures var k := FirstGap(tree, dest, 0).value;
            var next := FirstGap(Write(site, tree, dest, node).tree, dest, 0);
            next.Some? ==> next.value > k
  {
    var k, made := FirstGap(tree, dest, 0).value, Write(site, tree, dest, node).tree;
    FirstGapFound(tree, made, dest, 0, k);
  }

  lemma {:induction false} FirstGapFound(tree: Tree, made: Tree, p: Path, j: nat, k: nat)
    requires j <= k < |p| && FirstGap(tree, p, j) == Some(k) && made == tree[p[..k] := Dir]
    ensures FirstGap(made, p, j).Some? ==> FirstGap(made, p, j).value > k
    decreases k - j
  {
    if j < k {
      assert p[..j] != p[..k];
      FirstGapFound(tree, made, p, j + 1, k);
    }
  }

  class Files {
    var tree: Tree
    var backups: map<nat, Bytes>
    var manifest: Option<Manifest>

    constructor (orig: Tree)
      ensures tree == orig && backups == map[] && manifest == None
    {
      tree, backups, manifest := orig, map[], None;
    }

    ghost function Now(job: Job): Host
      reads this
    {
      Host(tree, backups, manifest, job)
    }

    /** The directories above a destination that are missing, climbing from the bottom. */
    method MissingAbove(site: Site, dir: Path) returns (missing: Option<seq<Path>>)
      ensures missing == Missing(site, tree, dir)
    {
      var at, found := dir, [];
      assert Missing(site, tree, dir).Some? ==> Missing(site, tree, dir).value + [] == Missing(site, tree, dir).value;
      while Inside(at, site.qlds) && Lstat(tree, at).Absent?
        invariant Missing(site, tree, at).None? <==> Missing(site, tree, dir).None?
        invariant Missing(site, tree, at).Some? ==>
                    Missing(site, tree, dir).value == Missing(site, tree, at).value + found
        decreases |at|
      {
        ghost var above := Missing(site, tree, Parent(at));
        assert above.Some? ==> above.value + ([at] + found) == (above.value + [at]) + found;
        found := [at] + found;
        at := Parent(at);
      }
      if Inside(at, site.qlds) && Lstat(tree, at).Blocked? { return None; }
      assert [] + found == found;
      return Some(found);
    }

    method AddDirs(known: seq<Path>, more: seq<Path>) returns (dirs: seq<Path>)
      ensures dirs == Adding(known, more)
    {
      dirs := known;
      for i := 0 to |more|
        invariant Adding(known, more) == Adding(dirs, more[i..])
      {
        assert more[i..][0] == more[i] && more[i..][1..] == more[i + 1..];
        if more[i] !in dirs { dirs := dirs + [more[i]]; }
      }
    }

    /** One item of the plan enters the draft; an original is copied aside. */
    method RecordItem(site: Site, ghost payload: seq<Item>, ghost next: nat, item: Item, draft: Manifest)
      returns (more: Option<Manifest>)
      requires next < |payload| && payload[next] == item
      modifies `backups
      ensures var job := if more.None? then Failed else Recording(payload, next + 1, more.value);
              Now(job) == Record(site, old(Now(Idle)), payload, next, draft).(job := job)
              && Record(site, old(Now(Idle)), payload, next, draft).job == job
    {
      var dest, sha := item.dest, Sha(item.data);
      if dest == [] { return None; }
      var missing := MissingAbove(site, Parent(dest));
      if missing.None? { return None; }
      var dirs := AddDirs(draft.dirs, missing.value);
      if dest in draft.entries {
        return Some(Manifest(draft.entries[dest := draft.entries[dest].(written := sha)], dirs));
      }
      var look := Lstat(tree, dest);
      if look.Blocked? { return None; }
      if look.Absent? {
        return Some(Manifest(draft.entries[dest := Entry(false, sha, sha, 0, 0)], dirs));
      }
      if !look.node.File? || look.node.links != 1 { return None; }
      var index := |draft.entries|;
      backups := backups[index := look.node.bytes];
      return Some(Manifest(draft.entries[dest := Entry(true, sha, Sha(look.node.bytes), look.node.mode % 512, index)], dirs));
    }

    /** Reads the plan's inventory so far, adds every item, and saves it in one write. */
    method RecordAll(site: Site, payload: seq<Item>, ghost run: nat -> Host) returns (ok: bool, ghost n: nat)
      requires IsRun(Steps(site), run) && run(0) == StartApply(Now(Idle), payload, true)
      modifies `backups, `manifest
      ensures Now(if ok then Writing(payload, 0) else Failed) == run(n)
    {
      var draft := if manifest.Some? then manifest.value else NOTHING;
      var next := 0;
      n := 0;
      while next < |payload|
        invariant next <= |payload| && manifest == old(manifest) && tree == old(tree)
        invariant Now(Recording(payload, next, draft)) == run(n)
      {
        OneStep(Steps(site), run, n);
        n := n + 1;
        var more := RecordItem(site, payload, next, payload[next], draft);
        if more.None? { return false, n; }
        draft, next := more.value, next + 1;
      }
      OneStep(Steps(site), run, n);
      manifest := Some(draft);
      return true, n + 1;
    }

    /** Writes every item, making the directories it lacks one by one. */
    method WriteAll(site: Site, payload: seq<Item>, ghost run: nat -> Host, ghost before: nat) returns (ok: bool, ghost n: nat)
      requires Distinct(payload) && IsRun(Steps(site), run) && Now(Writing(payload, 0)) == run(before)
      modifies `tree
      ensures Now(if ok then Applied else Failed) == run(n)
      ensures ok ==> forall i :: 0 <= i < |payload| ==>
                payload[i].dest in tree
                && tree[payload[i].dest] == File(payload[i].data, ModeFor(site, payload[i].dest, payload[i].mode), 1)
    {
      var next := 0;
      n := before;
      while next < |payload|
        invariant next <= |payload|
        invariant Now(Writing(payload, next)) == run(n)
        invariant forall i :: 0 <= i < next ==>
                    payload[i].dest in tree
                    && tree[payload[i].dest] == File(payload[i].data, ModeFor(site, payload[i].dest, payload[i].mode), 1)
        decreases |payload| - next, GapLeft(payload, next)
      {
        var item := payload[next];
        var node := File(item.data, ModeFor(site, item.dest, item.mode), 1);
        OneStep(Steps(site), run, n);
        n := n + 1;
        match Write(site, tree, item.dest, node) {
          case Made(made) =>
            GapMoves(site, tree, item.dest, node);
            tree := made;
          case Wrote(wrote) =>
            tree := wrote;
            next := next + 1;
          case Refused =>
            return false, n;
        }
      }
      OneStep(Steps(site), run, n);
      return true, n + 1;
    }

    ghost function GapLeft(payload: seq<Item>, next: nat): nat
      reads this
    {
      if next < |payload| then PathLeft(payload[next].dest) else 0
    }

    ghost function PathLeft(dest: Path): nat
      reads this
    {
      if FirstGap(tree, dest, 0).Some? then |dest| - FirstGap(tree, dest, 0).value else 0
    }

    /** cmd_apply after its checks: inventory first, then the files. */
    method Apply(site: Site, payload: seq<Item>, record: bool) returns (ok: bool, ghost n: nat)
      requires Distinct(payload)
      modifies this
      ensures Now(if ok then Applied else Failed) == After(site, StartApply(old(Now(Idle)), payload, record), n)
      ensures ok ==> forall i :: 0 <= i < |payload| ==>
                payload[i].dest in tree
                && tree[payload[i].dest] == File(payload[i].data, ModeFor(site, payload[i].dest, payload[i].mode), 1)
    {
      ghost var start := StartApply(Now(Idle), payload, record);
      ghost var run := (k: nat) => After(site, start, k);
      AfterIsRun(site, start);
      n := 0;
      if record {
        ok, n := RecordAll(site, payload, run);
        if !ok { return; }
      }
      ok, n := WriteAll(site, payload, run, n);
    }

    /** A destination that existed gets its original back. */
    method PutBack(site: Site, dest: Path, e: Entry, ghost todo: seq<Path>, ghost dirs: seq<Path>,
                   ghost run: nat -> Host, ghost before: nat)
      returns (ok: bool, ghost n: nat)
      requires todo != [] && todo[0] == dest && e.existed && WellFormed(tree)
      requires manifest.Some? && dest in manifest.value.entries && manifest.value.entries[dest] == e
      requires IsRun(Steps(site), run) && Now(Restoring(todo, dirs)) == run(before)
      modifies `tree
      ensures Now(if ok then Restoring(todo[1..], dirs) else Failed) == run(n)
      ensures WellFormed(tree) && (ok ==> dest in tree)
      ensures forall p :: p in tree && tree[p].File? && p != dest ==> p in old(tree) && old(tree)[p] == tree[p]
    {
      n := before;
      if e.backup !in backups || Sha(backups[e.backup]) != e.digest {
        OneStep(Steps(site), run, n);
        return false, n + 1;
      }
      var node := File(backups[e.backup], ModeFor(site, dest, e.mode), 1);
      while Write(site, tree, dest, node).Made?
        invariant WellFormed(tree) && Now(Restoring(todo, dirs)) == run(n)
        invariant forall p :: p in tree && tree[p].File? ==> p in old(tree) && old(tree)[p] == tree[p]
        decreases PathLeft(dest)
      {
        OneStep(Steps(site), run, n);
        n := n + 1;
        assert run(n) == RestoreFile(site, Now(Restoring(todo, dirs)), e, todo, dirs);
        GapMoves(site, tree, dest, node);
        MadeIsWellFormed(site, tree, dest, node);
        tree := Write(site, tree, dest, node).tree;
      }
      OneStep(Steps(site), run, n);
      n := n + 1;
      assert run(n) == RestoreFile(site, Now(Restoring(todo, dirs)), e, todo, dirs);
      if Write(site, tree, dest, node).Refused? { return false, n; }
      WroteIsWellFormed(site, tree, dest, node);
      tree := Write(site, tree, dest, node).tree;
      return true, n;
    }

    /** A destination that was created goes, unless it is no longer what was written. */
    method TakeAway(site: Site, dest: Path, e: Entry, ghost todo: seq<Path>, ghost dirs: seq<Path>,
                    ghost run: nat -> Host, ghost before: nat)
      returns (ok: bool, keep: bool, ghost n: nat)
      requires todo != [] && todo[0] == dest && !e.existed && WellFormed(tree)
      requires manifest.Some? && dest in manifest.value.entries && manifest.value.entries[dest] == e
      requires IsRun(Steps(site), run) && Now(Restoring(todo, dirs)) == run(before)
      modifies `tree
      ensures Now(if ok then Restoring(todo[1..], dirs) else Failed) == run(n)
      ensures WellFormed(tree) && (ok ==> (keep <==> dest in tree))
      ensures forall p :: p in tree && tree[p].File? ==> p in old(tree) && old(tree)[p] == tree[p]
    {
      OneStep(Steps(site), run, before);
      LstatIsLookup(tree, dest);
      n := before + 1;
      match Lstat(tree, dest) {
        case Blocked => return false, false, n;
        case Absent => return true, false, n;
        case Found(node) =>
          if node.File? && node.links == 1 && Sha(node.bytes) == e.written {
            assert forall p :: p in tree ==> !Inside(p, dest);
            tree := tree - {dest};
            return true, false, n;
          }
          return true, true, n;
      }
    }

    /** cmd_restore after its checks: every entry, then the created directories. A
        created file that is still there afterwards is reported. */
    method Restore(site: Site, todo: seq<Path>, dirs: seq<Path>) returns (ok: bool, kept: seq<Path>, ghost n: nat)
      requires Possible(site, Now(Idle), ManagedFiles.Restore(todo, dirs)) && WellFormed(tree)
      modifies `tree
      ensures Now(if ok then Restored else Failed) == After(site, StartRestore(site, old(Now(Idle)), todo, dirs), n)
      ensures ok ==>
        var entries := Inventory(Now(Idle)).entries;
        (forall d :: d in entries && !entries[d].existed && d in tree && tree[d].File? ==> d in kept)
    {
      ghost var start := StartRestore(site, Now(Idle), todo, dirs);
      ghost var run := (k: nat) => After(site, start, k);
      AfterIsRun(site, start);
      n, kept := 0, [];
      if manifest.None? { return true, kept, n; }
      var m := manifest.value;
      if !Acceptable(site, m) { return false, kept, n; }
      var i := 0;
      while i < |todo|
        invariant i <= |todo| && manifest == Some(m) && WellFormed(tree)
        invariant Now(Restoring(todo[i..], dirs)) == run(n)
        invariant forall d :: d in todo[..i] && !m.entries[d].existed && d in tree && tree[d].File? ==> d in kept
      {
        var dest := todo[i];
        assert todo[i..][0] == dest && todo[i..][1..] == todo[i + 1..];
        assert todo[..i + 1] == todo[..i] + [dest];
        if m.entries[dest].existed {
          ok, n := PutBack(site, dest, m.entries[dest], todo[i..], dirs, run, n);
        } else {
          var keep;
          ok, keep, n := TakeAway(site, dest, m.entries[dest], todo[i..], dirs, run, n);
          if keep { kept := kept + [dest]; }
        }
        if !ok { return; }
        i := i + 1;
      }
      assert todo[i..] == [] && todo[..i] == todo;
      n := RemoveDirs(site, dirs, run, n);
      ok := true;
    }

    method RemoveDirs(site: Site, dirs: seq<Path>, ghost run: nat -> Host, ghost before: nat) returns (ghost n: nat)
      requires IsRun(Steps(site), run) && Now(Restoring([], dirs)) == run(before)
      modifies `tree
      ensures Now(Restored) == run(n)
      ensures forall p :: p in tree ==> p in old(tree) && tree[p] == old(tree)[p]
    {
      var i := 0;
      n := before;
      while i < |dirs|
        invariant i <= |dirs|
        invariant Now(Restoring([], dirs[i..])) == run(n)
        invariant forall p :: p in tree ==> p in old(tree) && tree[p] == old(tree)[p]
      {
        OneStep(Steps(site), run, n);
        n := n + 1;
        ghost var left := dirs[i..];
        assert left[0] == dirs[i] && left[1..] == dirs[i + 1..];
        assert run(n) == RemoveDir(Now(Restoring([], left)), left);
        if dirs[i] in tree && tree[dirs[i]].Dir? && Empty(tree, dirs[i]) {
          tree := tree - {dirs[i]};
        }
        i := i + 1;
      }
      assert dirs[i..] == [];
      OneStep(Steps(site), run, n);
      n := n + 1;
    }
  }
}
