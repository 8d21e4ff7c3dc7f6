/**
 * Putting a converted tree in place of the live one without a journal: what there is on
 * disk says how far an earlier try came. A copy or removal cut short leaves anything.
 */
module ConvertSwap {
  import opened Options
  import opened Directories

  datatype Stage =
    | Resting
    | Refused
    | Raised
    | Installed
    | Looking
    | Dropping          // nothing to do but to remove a staged copy
    | Clearing
    | Copying
    | MovingOut
    | MovingIn
    | Checking

  datatype Disk = Disk(live: Option<Tree>, staged: Option<Tree>, original: Option<Tree>, stage: Stage)

  predicate AtRest(stage: Stage) {
    stage == Resting || stage == Refused || stage == Raised || stage == Installed
  }

  function Look(converted: Tree, d: Disk): Disk {
    if d.live == Some(converted) then d.(stage := Dropping)
    else if d.live.Some? && d.original.Some? then d.(stage := Refused)
    else d.(stage := Clearing)
  }

  /** One operation of install_converted_tree. */
  function Advance(converted: Tree, d: Disk, luck: Luck): Disk {
    match d.stage
    case Looking => Look(converted, d)
    case Dropping => if luck.fails then d.(staged := luck.junk, stage := Raised) else d.(staged := None, stage := Installed)
    case Clearing => if luck.fails then d.(staged := luck.junk, stage := Raised) else d.(staged := None, stage := Copying)
    case Copying =>
      if luck.fails then d.(staged := luck.junk, stage := Raised)
      else d.(staged := Some(converted), stage := if d.live.Some? then MovingOut else MovingIn)
    case MovingOut =>
      if luck.fails then d.(stage := Raised) else d.(original := d.live, live := None, stage := MovingIn)
    case MovingIn =>
      if luck.fails then d.(stage := Raised) else d.(live := d.staged, staged := None, stage := Checking)
    case Checking => d.(stage := if d.live == Some(converted) then Installed else Raised)
    case _ => d
  }

  function Killed(d: Disk, junk: Option<Tree>): Disk {
    if d.stage == Dropping || d.stage == Clearing || d.stage == Copying then d.(staged := junk, stage := Resting)
    else d.(stage := Resting)
  }

  datatype Happening = Begin | Operate(luck: Luck) | Kill(junk: Option<Tree>)

  ghost predicate Happens(converted: Tree, d: Disk, e: Happening, d': Disk) {
    match e
    case Begin => AtRest(d.stage) && d' == d.(stage := Looking)
    case Operate(luck) => !AtRest(d.stage) && d' == Advance(converted, d, luck)
    case Kill(junk) => d' == Killed(d, junk)
  }

  /** Tries, retries, errors and crashes, from a disk without an original kept aside. */
  ghost predicate Tries(converted: Tree, disks: seq<Disk>, events: seq<Happening>) {
    && |disks| == |events| + 1 && disks[0].original == None && disks[0].stage == Resting
    && forall i {:trigger events[i]} :: 0 <= i < |events| ==> Happens(converted, disks[i], events[i], disks[i + 1])
  }

  ghost predicate StageOk(converted: Tree, d: Disk) {
    match d.stage
    case Clearing => d.live != Some(converted) && (d.original == None || d.live == None)
    case Copying => d.live != Some(converted) && d.staged == None && (d.original == None || d.live == None)
    case MovingOut => d.live.Some? && d.live != Some(converted) && d.original == None && d.staged == Some(converted)
    case MovingIn => d.live == None && d.staged == Some(converted)
    case Checking => d.live == Some(converted) && d.staged == None
    case Dropping => d.live == Some(converted)
    case Installed => d.live == Some(converted) && d.staged == None
    case Refused => false
    case _ => true
  }

  /** The old tree is still live, or it is the original kept aside and live is either
      gone or already the converted tree. */
  ghost predicate Safe(converted: Tree, was: Option<Tree>, d: Disk) {
    || (d.live == was && d.original == None)
    || (d.original == was && (d.live == None || d.live == Some(converted)))
  }

  lemma HappensKeeps(converted: Tree, was: Option<Tree>, d: Disk, e: Happening, d': Disk)
    requires StageOk(converted, d) && Safe(converted, was, d) && Happens(converted, d, e, d')
    ensures StageOk(converted, d') && Safe(converted, was, d')
  {
  }

  /** In every run, whatever fails and wherever it is cut: the old tree is at live or
      kept aside, nothing is ever refused, and success means live is the converted tree. */
  lemma {:induction false} OldTreeIsSafe(converted: Tree, disks: seq<Disk>, events: seq<Happening>, i: nat)
    requires Tries(converted, disks, events) && i < |disks|
    ensures StageOk(converted, disks[i]) && Safe(converted, disks[0].live, disks[i])
    ensures disks[i].stage != Refused
    ensures disks[i].stage == Installed ==> disks[i].live == Some(converted)
  {
    if i > 0 {
      OldTreeIsSafe(converted, disks, events, i - 1);
      HappensKeeps(converted, disks[0].live, disks[i - 1], events[i - 1], disks[i]);
    }
  }

  /** n operations without a failure. */
  function Onward(converted: Tree, d: Disk, n: nat): Disk
    decreases n
  {
    if n == 0 then d else Onward(converted, Advance(converted, d, FINE), n - 1)
  }

  function Remaining(stage: Stage): nat {
    match stage
    case Looking => 6
    case Clearing => 5
    case Copying => 4
    case MovingOut => 3
    case MovingIn => 2
    case Checking => 1
    case Dropping => 1
    case _ => 0
  }

  lemma {:induction false} Reaches(converted: Tree, d: Disk, n: nat)
    requires n >= Remaining(d.stage) && (d.stage == Installed || !AtRest(d.stage))
    requires if d.stage == Looking
             then d.live == Some(converted) || d.live == None || d.original == None else StageOk(converted, d)
    ensures Onward(converted, d, n).stage == Installed && Onward(converted, d, n).live == Some(converted)
    decreases n
  {
    if d.stage == Installed {
      Rests(converted, d, n);
    } else {
      Reaches(converted, Advance(converted, d, FINE), n - 1);
    }
  }

  lemma {:induction false} Rests(converted: Tree, d: Disk, n: nat)
    requires AtRest(d.stage)
    ensures Onward(converted, d, n) == d
    decreases n
  {
    if n > 0 { Rests(converted, d, n - 1); }
  }

  /** On any disk, an uncut try installs the converted tree exactly unless there is both
      a live tree that is another one and an original; then it changes nothing. */
  lemma InstallsUnlessBoth(converted: Tree, d: Disk)
    requires AtRest(d.stage)
    ensures var end := Onward(converted, d.(stage := Looking), 6);
            && (end.stage == Installed && end.live == Some(converted)
                <==> !(d.live.Some? && d.live != Some(converted) && d.original.Some?))
            && (end.stage != Installed ==> end == d.(stage := Refused))
  {
    var both := d.live.Some? && d.live != Some(converted) && d.original.Some?;
    if both {
      assert Advance(converted, d.(stage := Looking), FINE) == d.(stage := Refused);
      Rests(converted, d.(stage := Refused), 5);
    } else {
      Reaches(converted, d.(stage := Looking), 6);
    }
  }

  /** So after any run a rerun that is let run finishes the swap. */
  lemma RerunInstalls(converted: Tree, disks: seq<Disk>, events: seq<Happening>, i: nat)
    requires Tries(converted, disks, events) && i < |disks| && AtRest(disks[i].stage)
    ensures var end := Onward(converted, disks[i].(stage := Looking), 6);
            end.stage == Installed && end.live == Some(converted)
  {
    OldTreeIsSafe(converted, disks, events, i);
    InstallsUnlessBoth(converted, disks[i]);
  }

  /** The directories of one instance. */
  class Instance {
    var live: Option<Tree>
    var staged: Option<Tree>
    var original: Option<Tree>

    constructor (live: Option<Tree>)
      ensures this.live == live && staged == None && original == None
    {
      this.live, staged, original := live, None, None;
    }

    ghost function Now(stage: Stage): Disk
      reads this
    {
      Disk(live, staged, original, stage)
    }

    /** install_converted_tree, uncut: what it ends with is what six operations make. */
    method Install(converted: Tree) returns (stage: Stage)
      modifies this
      ensures Now(stage) == Onward(converted, old(Now(Looking)), 6)
    {
      ghost var start := Now(Looking);
      if live == Some(converted) {
        staged := None;
        assert Advance(converted, start, FINE) == start.(stage := Dropping);
        assert Advance(converted, start.(stage := Dropping), FINE) == Now(Installed);
        Rests(converted, Now(Installed), 4);
        return Installed;
      }
      if live.Some? && original.Some? {
        Rests(converted, Now(Refused), 5);
        return Refused;
      }
      staged := None;
      ghost var cleared := Now(Copying);
      assert Onward(converted, start, 6) == Onward(converted, cleared, 4);
      staged := Some(converted);
      if live.Some? {
        assert Onward(converted, cleared, 4) == Onward(converted, Now(MovingOut), 3);
        original, live := live, None;
        assert Onward(converted, cleared, 4) == Onward(converted, Now(MovingIn), 2);
        Onwards(converted, Now(MovingIn));
      } else {
        assert Onward(converted, cleared, 4) == Onward(converted, Now(MovingIn), 3);
        Onwards(converted, Now(MovingIn));
      }
      live, staged := staged, None;
      return Installed;
    }
  }

  lemma Onwards(converted: Tree, d: Disk)
    requires d.stage == MovingIn && d.staged == Some(converted)
    ensures Onward(converted, d, 2) == Onward(converted, d, 3) == Disk(d.staged, None, d.original, Installed)
  {
    var in1 := Advance(converted, d, FINE);
    var in2 := Advance(converted, in1, FINE);
    assert in2 == Disk(d.staged, None, d.original, Installed);
    assert Onward(converted, in1, 1) == Onward(converted, in2, 0);
    assert Onward(converted, in1, 2) == Onward(converted, in2, 1);
    Rests(converted, in2, 1);
  }
}
