/** restore_instance as it is written, over the directories, the journal and the row of
    one instance; whichever of its operations raise, it is a run of the machine. */
module RestoreSwapOps {
  import opened Options
  import opened Runs
  import opened Directories
  import opened RestoreSwap

  function Steps(snap: Snapshot, luck: nat -> Luck): (Store, nat) -> Store {
    (s: Store, n: nat) => Step(snap, s, luck(n))
  }

  class Restorer {
    var live: Option<Tree>
    var staged: Option<Tree>
    var backups: map<nat, Tree>
    var journal: Option<Intent>
    var row: Fields
    ghost var before: Option<Tree>
    ghost var committed: bool

    constructor (live: Option<Tree>, row: Fields)
      ensures this.live == live && this.row == row && staged == None && backups == map[] && journal == None
    {
      this.live, this.row, staged, backups, journal := live, row, None, map[], None;
      before, committed := None, false;
    }

    ghost function Now(job: Job): Store
      reads this
    {
      Store(live, staged, backups, journal, row, job, before, committed)
    }

    function Backup(): nat
      reads this
    {
      if journal.Some? then journal.value.attempt else 0
    }

    /** Discards what an earlier try staged and copies the snapshot's tree, verified. */
    method StageTree(snap: Snapshot, luck: nat -> Luck, n: nat) returns (ok: bool, m: nat)
      modifies `staged
      ensures m == n + 1 || m == n + 2
      ensures m == n + 1 ==> !ok && luck(n).fails && staged == luck(n).junk
      ensures m == n + 2 ==> !luck(n).fails && (ok <==> !luck(n + 1).fails && snap.source == snap.entry)
      ensures m == n + 2 ==> staged == if ok then Some(snap.entry) else None
    {
      if luck(n).fails {
        staged := luck(n).junk;
        return false, n + 1;
      }
      staged := None;
      if luck(n + 1).fails || snap.source != snap.entry {
        return false, n + 2;
      }
      staged := Some(snap.source);
      return true, n + 2;
    }

    method Stage(snap: Snapshot, luck: nat -> Luck, ghost run: nat -> Store, n: nat) returns (ok: bool, m: nat)
      requires IsRun(Steps(snap, luck), run) && Now(Discarding) == run(n)
      modifies `staged
      ensures Now(if ok then Journalling else Failed) == run(m)
    {
      OneStep(Steps(snap, luck), run, n);
      ghost var discarded := Discard(Now(Discarding), luck(n), Copying);
      if !luck(n).fails { OneStep(Steps(snap, luck), run, n + 1); }
      ok, m := StageTree(snap, luck, n);
    }

    method Restage(snap: Snapshot, luck: nat -> Luck, ghost run: nat -> Store, n: nat) returns (ok: bool, m: nat)
      requires IsRun(Steps(snap, luck), run) && Now(Rediscarding) == run(n)
      modifies `staged
      ensures ok ==> staged == Some(snap.entry)
      ensures Now(if ok then Swapping0 else Failed) == run(m)
    {
      OneStep(Steps(snap, luck), run, n);
      ghost var discarded := Discard(Now(Rediscarding), luck(n), Recopying);
      if !luck(n).fails { OneStep(Steps(snap, luck), run, n + 1); }
      ok, m := StageTree(snap, luck, n);
    }

    /** staged to live; if that fails, backup back to live. */
    method MoveStaged(snap: Snapshot, luck: nat -> Luck, ghost run: nat -> Store, n: nat) returns (ok: bool, m: nat)
      requires IsRun(Steps(snap, luck), run) && run(n + 1) == MoveIn(Now(MovingIn), luck(n))
      modifies `live, `staged, `backups
      ensures Now(if ok then Verifying else Failed) == run(m)
    {
      if !luck(n).fails {
        live, staged := staged, None;
        return true, n + 1;
      }
      if Backup() !in backups || live.Some? { return false, n + 1; }
      OneStep(Steps(snap, luck), run, n + 1);
      if !luck(n + 1).fails {
        live, backups := Some(backups[Backup()]), backups - {Backup()};
      }
      return false, n + 2;
    }

    /** live to backup, then staged to live. */
    method MoveTrees(snap: Snapshot, luck: nat -> Luck, ghost run: nat -> Store, n: nat) returns (ok: bool, m: nat)
      requires IsRun(Steps(snap, luck), run) && staged == Some(snap.entry) && Now(Swapping0) == run(n)
      modifies `live, `staged, `backups
      ensures Now(if ok then Verifying else Failed) == run(m)
    {
      OneStep(Steps(snap, luck), run, n);
      m := n;
      if live.Some? {
        if Backup() in backups || luck(m).fails { return false, m + 1; }
        backups, live, m := backups[Backup() := live.value], None, m + 1;
        OneStep(Steps(snap, luck), run, m);
      }
      ok, m := MoveStaged(snap, luck, run, m);
    }

    method VerifyLive(snap: Snapshot, luck: nat -> Luck, ghost run: nat -> Store, n: nat) returns (ok: bool, m: nat)
      requires IsRun(Steps(snap, luck), run) && Now(Verifying) == run(n)
      modifies `journal
      ensures Now(if ok then Committing else Failed) == run(m)
    {
      OneStep(Steps(snap, luck), run, n);
      if live != Some(snap.entry) || luck(n).fails { return false, n + 1; }
      journal := Some(Intent(Backup(), Swapped));
      return true, n + 1;
    }

    /** Moves the staged tree into place, keeping live as backup, from whichever side an
        earlier try stopped on. */
    method CompleteSwap(snap: Snapshot, luck: nat -> Luck, ghost run: nat -> Store, n: nat) returns (ok: bool, m: nat)
      requires IsRun(Steps(snap, luck), run) && Now(Swapping0) == run(n)
      modifies `live, `staged, `backups, `journal
      ensures Now(if ok then Committing else Failed) == run(m)
    {
      OneStep(Steps(snap, luck), run, n);
      assert run(n + 1) == Step(snap, Now(Swapping0), luck(n));
      if staged.Some? {
        m := n;
        if staged.value != snap.entry {
          ok, m := Restage(snap, luck, run, n + 1);
          if !ok { return; }
        }
        ok, m := MoveTrees(snap, luck, run, m);
        if !ok { return; }
      } else if live.None? {
        return false, n + 1;
      } else {
        m := n + 1;
      }
      ok, m := VerifyLive(snap, luck, run, m);
    }

    /** Leaves the verified tree in place and journalled, or raises. */
    method RestoreTree(snap: Snapshot, luck: nat -> Luck, ghost run: nat -> Store) returns (ok: bool, m: nat)
      requires IsRun(Steps(snap, luck), run) && Now(Beginning) == run(0)
      modifies `live, `staged, `backups, `journal, `before, `committed
      ensures Now(if ok then Committing else Failed) == run(m)
    {
      OneStep(Steps(snap, luck), run, 0);
      assert run(1) == Step(snap, Now(Beginning), luck(0));
      if journal.None? || journal.value.state == Swapped || journal.value.state == Complete {
        if live == Some(snap.entry) { return true, 1; }
        if luck(0).fails { return false, 1; }
        journal := Some(Intent(Backup() + 1, Staging));
        before, committed := live, false;
      }
      m := 1;
      if journal.value.state == Staging {
        ok, m := Stage(snap, luck, run, m);
        if !ok { return; }
        OneStep(Steps(snap, luck), run, m);
        assert run(m + 1) == Step(snap, Now(Journalling), luck(m));
        if luck(m).fails { return false, m + 1; }
        journal, m := Some(Intent(Backup(), Swapping)), m + 1;
      }
      ok, m := CompleteSwap(snap, luck, run, m);
    }

    /** The backup of the attempt goes, and the journal is closed. */
    method CleanUp(snap: Snapshot, luck: nat -> Luck, ghost run: nat -> Store, n: nat) returns (ok: bool, m: nat)
      requires IsRun(Steps(snap, luck), run) && Now(Cleaning) == run(n)
      modifies `backups, `journal
      ensures Now(if ok then Done else Failed) == run(m)
    {
      OneStep(Steps(snap, luck), run, n);
      if luck(n).fails {
        backups := if luck(n).junk.Some? then backups[Backup() := luck(n).junk.value] else backups - {Backup()};
        return false, n + 1;
      }
      backups := backups - {Backup()};
      OneStep(Steps(snap, luck), run, n + 1);
      if luck(n + 1).fails { return false, n + 2; }
      journal := Some(Intent(Backup(), Complete));
      return true, n + 2;
    }

    /** The service is looked at, and what is left of the attempt cleaned up. */
    method Conclude(snap: Snapshot, luck: nat -> Luck, ghost run: nat -> Store, n: nat) returns (ok: bool, m: nat)
      requires IsRun(Steps(snap, luck), run) && Now(Servicing) == run(n)
      modifies `backups, `journal
      ensures Now(if ok then Done else Failed) == run(m)
    {
      OneStep(Steps(snap, luck), run, n);
      ok, m := !luck(n).fails, n + 1;
      if ok && journal.Some? && journal.value.state != Complete {
        ok, m := CleanUp(snap, luck, run, m);
      }
    }

    /** Returns whether the instance was restored; never raises. */
    method RestoreInstance(snap: Snapshot, luck: nat -> Luck) returns (ok: bool, m: nat)
      modifies this
      ensures Now(if ok then Done else Failed) == Tried(Steps(snap, luck), old(Now(Beginning)), m)
      ensures ok ==> row == RestoredFields(old(row), snap.meta)
    {
      ghost var start := Now(Beginning);
      ghost var run := (k: nat) => Tried(Steps(snap, luck), start, k);
      TriedIsRun(Steps(snap, luck), start);
      ok, m := RestoreTree(snap, luck, run);
      if !ok { return; }
      OneStep(Steps(snap, luck), run, m);
      if luck(m).fails && !luck(m).lost { return false, m + 1; }
      row, committed, m := RestoredFields(row, snap.meta), true, m + 1;
      if luck(m - 1).fails { return false, m; }
      ok, m := Conclude(snap, luck, run, m);
    }
  }
}
