/** Apply, then restore, is the identity. */
module ManagedFilesUndo {
  import opened Options
  import opened ManagedFiles
  import opened ManagedFilesProofs

  // --- Any payloads --------------------------------------------------------------------

  /** In every run, with payloads that may change from one apply to the next and cuts
      anywhere: when a restore has finished, every destination that existed has its
      original bytes, and everything else that was there was never touched. */
  lemma OriginalsComeBack(site: Site, orig: Tree, hosts: seq<Host>, events: seq<Event>, i: nat, p: Path)
    requires Run(site, orig, hosts, events) && i < |hosts| && hosts[i].job == Restored && p in orig
    ensures p in hosts[i].tree
    ensures var entries := Inventory(hosts[i]).entries;
            if p in entries && entries[p].existed
            then orig[p].File? && hosts[i].tree[p] == Back(site, p, orig[p])
            else hosts[i].tree[p] == orig[p]
  {
    RunInv(site, orig, hosts, events, i);
  }

  /** In every state of every run each inventoried original has a backup of its own,
      under an index below the number of entries, that holds its bytes. */
  lemma BackupsNeverCollide(site: Site, orig: Tree, hosts: seq<Host>, events: seq<Event>, i: nat, d: Path, e: Path)
    requires Run(site, orig, hosts, events) && i < |hosts|
    requires d in Inventory(hosts[i]).entries && e in Inventory(hosts[i]).entries && d != e
    requires Inventory(hosts[i]).entries[d].existed && Inventory(hosts[i]).entries[e].existed
    ensures var m := Inventory(hosts[i]);
            && m.entries[d].backup != m.entries[e].backup && m.entries[d].backup < |m.entries|
            && m.entries[d].backup in hosts[i].backups && d in orig && orig[d].File?
            && hosts[i].backups[m.entries[d].backup] == orig[d].bytes
  {
    RunInv(site, orig, hosts, events, i);
    assert Kept(site, orig, d, Inventory(hosts[i]).entries[d], |Inventory(hosts[i]).entries|, hosts[i].backups);
  }

  // --- When restore refuses ----------------------------------------------------------------

  /** In every run the checks before a restore fail exactly when some original got a
      backup index of more than six digits. */
  lemma RefusesExactly(site: Site, orig: Tree, hosts: seq<Host>, events: seq<Event>, i: nat)
    requires Run(site, orig, hosts, events) && i < |hosts|
    ensures !Acceptable(site, Inventory(hosts[i])) <==>
              exists d :: d in Inventory(hosts[i]).entries && Inventory(hosts[i]).entries[d].existed
                          && Inventory(hosts[i]).entries[d].backup >= SIX_DIGITS
  {
    RunInv(site, orig, hosts, events, i);
    var m := Inventory(hosts[i]);
    forall d | d in m.entries ensures Allowed(site, d) {
      assert Kept(site, orig, d, m.entries[d], |m.entries|, hosts[i].backups);
    }
    forall j | 0 <= j < |m.dirs| ensures Inside(m.dirs[j], site.qlds) {
      assert m.dirs[j] in m.dirs;
    }
  }

  lemma MillionEntriesAreFine(site: Site, orig: Tree, hosts: seq<Host>, events: seq<Event>, i: nat)
    requires Run(site, orig, hosts, events) && i < |hosts|
    requires |Inventory(hosts[i]).entries| <= SIX_DIGITS
    ensures Acceptable(site, Inventory(hosts[i]))
  {
    RefusesExactly(site, orig, hosts, events, i);
    RunInv(site, orig, hosts, events, i);
    var m := Inventory(hosts[i]);
    forall d | d in m.entries && m.entries[d].existed ensures m.entries[d].backup < SIX_DIGITS {
      assert Kept(site, orig, d, m.entries[d], |m.entries|, hosts[i].backups);
    }
  }

  lemma InventoryGrows(site: Site, h: Host, e: Event)
    requires h.job.Recording? ==> Extends(Inventory(h), h.job.draft)
    ensures Extends(Inventory(h), Inventory(Occurs(site, h, e)))
  {
  }

  lemma DraftExtends(site: Site, orig: Tree, h: Host)
    requires Inv(site, orig, h)
    ensures h.job.Recording? ==> Extends(Inventory(h), h.job.draft)
  {
  }

  lemma GrowsAt(site: Site, orig: Tree, hosts: seq<Host>, events: seq<Event>, j: nat)
    requires Run(site, orig, hosts, events) && j < |events|
    ensures Extends(Inventory(hosts[j]), Inventory(hosts[j + 1]))
  {
    RunInv(site, orig, hosts, events, j);
    DraftExtends(site, orig, hosts[j]);
    InventoryGrows(site, hosts[j], events[j]);
  }

  lemma {:induction false} GrowingChain(all: seq<Manifest>, i: nat, j: nat)
    requires i <= j < |all| && (forall k :: 0 <= k < |all| - 1 ==> Extends(all[k], all[k + 1]))
    ensures Extends(all[i], all[j])
    decreases j - i
  {
    if i < j {
      GrowingChain(all, i, j - 1);
      assert Extends(all[j - 1], all[j - 1 + 1]);
      ExtendsMore(all[i], all[j - 1], all[j]);
    }
  }

  lemma InventoryOnlyGrows(site: Site, orig: Tree, hosts: seq<Host>, events: seq<Event>, i: nat, j: nat)
    requires Run(site, orig, hosts, events) && i <= j < |hosts|
    ensures Extends(Inventory(hosts[i]), Inventory(hosts[j]))
  {
    var all := seq(|hosts|, k requires 0 <= k < |hosts| => Inventory(hosts[k]));
    forall k | 0 <= k < |all| - 1 ensures Extends(all[k], all[k + 1]) {
      GrowsAt(site, orig, hosts, events, k);
    }
    GrowingChain(all, i, j);
  }

  /** The inventory is write-once: what it says of an original it says for good. */
  lemma WriteOnce(site: Site, orig: Tree, hosts: seq<Host>, events: seq<Event>, i: nat, j: nat, d: Path)
    requires Run(site, orig, hosts, events) && i <= j < |hosts| && d in Inventory(hosts[i]).entries
    ensures d in Inventory(hosts[j]).entries
            && SameOriginal(Inventory(hosts[i]).entries[d], Inventory(hosts[j]).entries[d])
  {
    InventoryOnlyGrows(site, orig, hosts, events, i, j);
  }

  /** So one index too long blocks every restore from then on. */
  lemma TooLongForGood(site: Site, orig: Tree, hosts: seq<Host>, events: seq<Event>, i: nat, j: nat)
    requires Run(site, orig, hosts, events) && i <= j < |hosts| && !Acceptable(site, Inventory(hosts[i]))
    ensures !Acceptable(site, Inventory(hosts[j]))
  {
    RefusesExactly(site, orig, hosts, events, i);
    var d :| d in Inventory(hosts[i]).entries && Inventory(hosts[i]).entries[d].existed
             && Inventory(hosts[i]).entries[d].backup >= SIX_DIGITS;
    WriteOnce(site, orig, hosts, events, i, j, d);
  }

  /** Such an index is handed out: to the first original after a million entries. */
  lemma IndexTooLong(site: Site, h: Host, node: Node)
    requires h.job.Recording? && h.job.next < |h.job.payload| && |h.job.draft.entries| >= SIX_DIGITS
    requires var dest := h.job.payload[h.job.next].dest;
             && dest != [] && dest !in h.job.draft.entries && Missing(site, h.tree, Parent(dest)).Some?
             && Lstat(h.tree, dest) == Found(node) && node.File? && node.links == 1
    ensures Go(site, h).job.Recording? && !Acceptable(site, Go(site, h).job.draft)
  {
    var entries := Go(site, h).job.draft.entries;
    var dest := h.job.payload[h.job.next].dest;
    assert dest in entries && entries[dest].existed && entries[dest].backup >= SIX_DIGITS;
  }

  // --- What restore clears -----------------------------------------------------------------

  /** Every created file, except those still to do, is gone. */
  ghost predicate Cleared(m: Manifest, tree: Tree, todo: seq<Path>) {
    forall d :: d in m.entries && !m.entries[d].existed && d !in todo && d in tree ==> !tree[d].File?
  }

  ghost predicate DirsLeft(m: Manifest, tree: Tree, todo: seq<Path>, dirs: seq<Path>) {
    forall d :: d in m.dirs ==> d in dirs || (todo == [] && d !in tree)
  }

  /** The file at a created destination, if there is one, is what was written last. */
  ghost predicate StillWritten(m: Manifest, tree: Tree, d: Path)
    requires d in m.entries
  {
    d in tree && tree[d].File? ==> tree[d].links == 1 && Sha(tree[d].bytes) == m.entries[d].written
  }

  ghost predicate AsWritten(m: Manifest, tree: Tree, todo: seq<Path>) {
    forall d :: d in todo && d in m.entries && !m.entries[d].existed ==> StillWritten(m, tree, d)
  }

  /** What a caller can check before a restore. */
  ghost predicate Clean(m: Manifest, tree: Tree) {
    forall d :: d in m.entries && !m.entries[d].existed ==> StillWritten(m, tree, d)
  }

  ghost predicate Clearing(h: Host) {
    && h.job.Restoring? && h.manifest.Some?
    && Cleared(h.manifest.value, h.tree, h.job.todo)
    && DirsLeft(h.manifest.value, h.tree, h.job.todo, h.job.dirs)
    && AsWritten(h.manifest.value, h.tree, h.job.todo)
  }

  /** A created file is still what was written, and its parent is no created file, which
      would come first: so it goes, and nothing is refused. */
  lemma CreatedGoes(site: Site, orig: Tree, h: Host)
    requires Inv(site, orig, h) && Clearing(h) && h.job.todo != []
    requires !h.manifest.value.entries[h.job.todo[0]].existed
    ensures Go(site, h).job == Restoring(h.job.todo[1..], h.job.dirs)
    ensures h.job.todo[0] in Go(site, h).tree ==> !Go(site, h).tree[h.job.todo[0]].File?
    ensures Go(site, h) == h.(tree := Go(site, h).tree, job := Restoring(h.job.todo[1..], h.job.dirs))
    ensures Go(site, h).tree == h.tree || Go(site, h).tree == h.tree - {h.job.todo[0]}
  {
    var m, todo, d := h.manifest.value, h.job.todo, h.job.todo[0];
    assert Kept(site, orig, d, m.entries[d], |m.entries|, h.backups);
    assert StillWritten(m, h.tree, d);
    LstatIsLookup(h.tree, d);
    assert Inside(d, Parent(d));
    assert Parent(d) !in todo;
    assert Parent(d) in h.tree ==> h.tree[Parent(d)].Dir?;
  }

  lemma ClearedNext(m: Manifest, tree: Tree, tree': Tree, todo: seq<Path>)
    requires todo != [] && Cleared(m, tree, todo) && AsWritten(m, tree, todo)
    requires todo[0] in m.entries && !m.entries[todo[0]].existed && todo[0] in tree' ==> !tree'[todo[0]].File?
    requires forall p :: p in tree' && p != todo[0] ==> p in tree && tree'[p] == tree[p]
    ensures Cleared(m, tree', todo[1..]) && AsWritten(m, tree', todo[1..])
  {
    assert forall x :: x in todo ==> x == todo[0] || x in todo[1..];
    forall d | d in todo[1..] && d in m.entries && !m.entries[d].existed ensures StillWritten(m, tree', d) {
      assert d in todo && StillWritten(m, tree, d);
    }
  }

  lemma DirsLeftNext(m: Manifest, tree: Tree, tree': Tree, todo: seq<Path>, dirs: seq<Path>)
    requires todo != [] && DirsLeft(m, tree, todo, dirs)
    ensures DirsLeft(m, tree', todo[1..], dirs)
  {
  }

  lemma RestoreFileClears(site: Site, orig: Tree, h: Host)
    requires Inv(site, orig, h) && Clearing(h) && h.job.todo != []
    ensures Clearing(Go(site, h)) && Go(site, h).manifest == h.manifest
    ensures Go(site, h).job == Restoring(h.job.todo[1..], h.job.dirs)
    ensures forall p :: p in Go(site, h).tree ==>
              p in h.tree && (Go(site, h).tree[p] == h.tree[p] || p in orig)
  {
    var m, d, h' := h.manifest.value, h.job.todo[0], Go(site, h);
    if m.entries[d].existed {
      RestoresExisting(site, orig, h);
    } else {
      CreatedGoes(site, orig, h);
    }
    ClearedNext(m, h.tree, h'.tree, h.job.todo);
    DirsLeftNext(m, h.tree, h'.tree, h.job.todo, h.job.dirs);
    assert h'.manifest == h.manifest;
  }

  /** Deepest first: when a created directory's turn comes there is nothing below it. */
  lemma DirGoes(site: Site, orig: Tree, h: Host)
    requires Inv(site, orig, h) && Clearing(h) && h.job.todo == [] && h.job.dirs != []
    ensures Go(site, h) == h.(tree := h.tree - {h.job.dirs[0]}, job := Restoring([], h.job.dirs[1..]))
  {
    var m, dirs, d := h.manifest.value, h.job.dirs, h.job.dirs[0];
    assert d in m.dirs;
    if d in h.tree {
      forall p | p in h.tree ensures !Inside(p, d) {
        if Inside(p, d) {
          LongerInside(p, d);
        }
      }
    } else {
      assert h.tree - {d} == h.tree;
    }
  }

  lemma RemoveDirClears(site: Site, orig: Tree, h: Host)
    requires Inv(site, orig, h) && Clearing(h) && h.job.todo == [] && h.job.dirs != []
    ensures Clearing(Go(site, h)) && Go(site, h).job == Restoring([], h.job.dirs[1..])
    ensures Go(site, h).manifest == h.manifest && Go(site, h).tree == h.tree - {h.job.dirs[0]}
  {
    DirGoes(site, orig, h);
    assert forall x :: x in h.job.dirs ==> x == h.job.dirs[0] || x in h.job.dirs[1..];
  }

  /** When nothing is left to do, nothing that was created is left. */
  lemma NothingLeft(site: Site, orig: Tree, h: Host)
    requires Inv(site, orig, h) && Clearing(h) && h.job == Restoring([], [])
    ensures h.tree.Keys == orig.Keys
  {
  }

  // --- An uncut restore --------------------------------------------------------------------

  /** n durable operations in a row. */
  function After(site: Site, h: Host, n: nat): Host
    decreases n
  {
    if n == 0 then h else After(site, Go(site, h), n - 1)
  }

  /** Nothing that was created is left; what existed has its original bytes; the rest
      was never touched. */
  ghost predicate Undone(site: Site, orig: Tree, m: Manifest, tree: Tree) {
    && tree.Keys == orig.Keys
    && forall p :: p in orig ==>
         if p in m.entries && m.entries[p].existed
         then orig[p].File? && tree[p] == Back(site, p, orig[p])
         else tree[p] == orig[p]
  }

  lemma RestoredIsUndone(site: Site, orig: Tree, h: Host)
    requires Inv(site, orig, h) && h.job == Restored && h.tree.Keys == orig.Keys
    ensures Undone(site, orig, Inventory(h), h.tree)
  {
  }

  function Left(job: Job): nat
    requires job.Restoring?
  {
    |job.todo| + |job.dirs|
  }

  lemma ClearingStep(site: Site, orig: Tree, h: Host)
    requires Inv(site, orig, h) && Clearing(h)
    ensures var next := Go(site, h);
            && next.manifest == h.manifest
            && if Left(h.job) == 0 then next == h.(job := Restored)
               else Clearing(next) && Left(next.job) == Left(h.job) - 1
  {
    if h.job.todo != [] {
      RestoreFileClears(site, orig, h);
    } else if h.job.dirs != [] {
      RemoveDirClears(site, orig, h);
    }
  }

  lemma LastStep(site: Site, orig: Tree, h: Host, next: Host)
    requires Inv(site, orig, h) && Clearing(h) && Left(h.job) == 0 && next == Go(site, h)
    ensures next.job == Restored && Undone(site, orig, Inventory(h), next.tree)
  {
    ClearingStep(site, orig, h);
    NothingLeft(site, orig, h);
    FollowsKeeps(site, orig, h, Step, next);
    RestoredIsUndone(site, orig, next);
  }

  lemma GoesOn(site: Site, orig: Tree, h: Host, next: Host)
    requires Inv(site, orig, h) && Clearing(h) && Left(h.job) > 0 && next == Go(site, h)
    ensures Inv(site, orig, next) && Clearing(next) && next.manifest == h.manifest
    ensures Left(next.job) == Left(h.job) - 1
  {
    ClearingStep(site, orig, h);
    FollowsKeeps(site, orig, h, Step, next);
  }

  /** An uncut restore takes one operation for every entry and every directory. */
  lemma {:induction false} RestoreCompletes(site: Site, orig: Tree, m: Manifest, h: Host, n: nat)
    requires Inv(site, orig, h) && Clearing(h)
    requires n == Left(h.job) + 1 && m == Inventory(h)
    ensures After(site, h, n).job == Restored && Undone(site, orig, m, After(site, h, n).tree)
    decreases n
  {
    var next := Go(site, h);
    if Left(h.job) > 0 {
      GoesOn(site, orig, h, next);
      RestoreCompletes(site, orig, m, next, n - 1);
    } else {
      LastStep(site, orig, h, next);
      Stays(site, next, n - 1);
    }
    AfterOne(site, h, n);
  }

  lemma AfterOne(site: Site, h: Host, n: nat)
    requires n > 0
    ensures After(site, h, n) == After(site, Go(site, h), n - 1)
  {
  }

  lemma {:induction false} Stays(site: Site, h: Host, n: nat)
    requires !Working(h.job)
    ensures After(site, h, n) == h
  {
    if n > 0 { Stays(site, h, n - 1); }
  }

  /** A restore that begins is refused exactly when a backup index is too long. */
  lemma RestoreBegins(site: Site, orig: Tree, hosts: seq<Host>, events: seq<Event>, i: nat)
    requires Run(site, orig, hosts, events) && i < |events| && events[i].Restore?
    ensures var begun := hosts[i + 1];
            && begun.manifest == hosts[i].manifest && begun.tree == hosts[i].tree
            && (begun.job == Failed || begun.job == Restored || begun.job == Restoring(events[i].todo, events[i].dirs))
            && (begun.job == Failed <==> !Acceptable(site, Inventory(hosts[i])))
            && (begun.job == Restored ==> begun.manifest == None)
            && (forall d :: d in events[i].todo <==> d in Inventory(hosts[i]).entries)
            && (forall d :: d in events[i].dirs <==> d in Inventory(hosts[i]).dirs)
  {
    assert Follows(site, hosts[i], events[i], hosts[i + 1]);
  }

  // --- Exactly when everything created goes ----------------------------------------------------

  /** A created file that is no longer what was written stays through every step. */
  lemma ChangedStepStays(site: Site, orig: Tree, h: Host, d: Path)
    requires Inv(site, orig, h) && h.job.Restoring?
    requires d in h.manifest.value.entries && !h.manifest.value.entries[d].existed
    requires !StillWritten(h.manifest.value, h.tree, d)
    ensures var next := Go(site, h);
            next.manifest == h.manifest && d in next.tree && next.tree[d] == h.tree[d]
  {
    if h.job.todo != [] {
      if h.manifest.value.entries[h.job.todo[0]].existed { RestoresExisting(site, orig, h); }
      else { RestoresCreated(site, orig, h); }
    }
  }

  lemma {:induction false} ChangedStays(site: Site, orig: Tree, h: Host, d: Path, n: nat)
    requires Inv(site, orig, h)
    requires d in Inventory(h).entries && !Inventory(h).entries[d].existed && !StillWritten(Inventory(h), h.tree, d)
    requires h.job.Restoring? || !Working(h.job)
    ensures var done := After(site, h, n);
            Inv(site, orig, done) && d in done.tree && done.tree[d] == h.tree[d]
    decreases n
  {
    if !Working(h.job) {
      Stays(site, h, n);
    } else if n > 0 {
      var next := Go(site, h);
      ChangedStepStays(site, orig, h, d);
      FollowsKeeps(site, orig, h, Step, next);
      StaysRestoring(site, h);
      ChangedStays(site, orig, next, d, n - 1);
    }
  }

  lemma StaysRestoring(site: Site, h: Host)
    requires h.job.Restoring?
    ensures Go(site, h).job.Restoring? || !Working(Go(site, h).job)
  {
  }

  /** In every run, whatever the payloads: an accepted restore that is let run ends with
      exactly the original paths if and only if, when it begins, every file at a created
      destination is a single-link file with the digest that was recorded last; then it
      undoes everything. */
  lemma RemovesExactly(site: Site, orig: Tree, hosts: seq<Host>, events: seq<Event>, i: nat)
    requires Run(site, orig, hosts, events)
    requires i < |events| && events[i].Restore? && hosts[i + 1].job != Failed
    ensures var done := After(site, hosts[i + 1], |events[i].todo| + |events[i].dirs| + 1);
            && (done.tree.Keys == orig.Keys <==> Clean(Inventory(hosts[i]), hosts[i].tree))
            && (done.tree.Keys == orig.Keys ==> done.job == Restored && Undone(site, orig, Inventory(hosts[i]), done.tree))
  {
    if Clean(Inventory(hosts[i]), hosts[i].tree) {
      RemovesAll(site, orig, hosts, events, i);
    } else {
      RemovesNotAll(site, orig, hosts, events, i);
    }
  }

  lemma RemovesAll(site: Site, orig: Tree, hosts: seq<Host>, events: seq<Event>, i: nat)
    requires Run(site, orig, hosts, events)
    requires i < |events| && events[i].Restore? && hosts[i + 1].job != Failed
    requires Clean(Inventory(hosts[i]), hosts[i].tree)
    ensures Undoes(site, orig, hosts[i], events[i], hosts[i + 1])
  {
    RunInv(site, orig, hosts, events, i + 1);
    assert Follows(site, hosts[i], events[i], hosts[i + 1]);
    BegunIsClearing(site, hosts[i], events[i], hosts[i + 1]);
    BegunRemoves(site, orig, hosts[i], events[i], hosts[i + 1]);
  }

  /** The restore that began with this event undoes everything, if it is let run. */
  ghost predicate Undoes(site: Site, orig: Tree, h: Host, e: Event, begun: Host)
    requires e.Restore?
  {
    var done := After(site, begun, |e.todo| + |e.dirs| + 1);
    done.job == Restored && Undone(site, orig, Inventory(h), done.tree)
  }

  /** Nothing is inventoried, or there is as much to do as the restore was given. */
  ghost predicate BegunWell(h: Host, e: Event, begun: Host)
    requires e.Restore?
  {
    && Inventory(begun) == Inventory(h)
    && if begun.job.Restoring? then Clearing(begun) && Left(begun.job) == |e.todo| + |e.dirs|
       else begun.job == Restored && begun.manifest == None
  }

  lemma BegunRemoves(site: Site, orig: Tree, h: Host, e: Event, begun: Host)
    requires e.Restore? && Inv(site, orig, begun) && BegunWell(h, e, begun)
    ensures Undoes(site, orig, h, e, begun)
  {
    if begun.job.Restoring? {
      RestoreCompletes(site, orig, Inventory(h), begun, |e.todo| + |e.dirs| + 1);
    } else {
      NothingToUndo(site, orig, begun, |e.todo| + |e.dirs| + 1);
    }
  }

  lemma NothingToUndo(site: Site, orig: Tree, h: Host, n: nat)
    requires Inv(site, orig, h) && h.job == Restored && h.manifest == None
    ensures After(site, h, n) == h && Undone(site, orig, Inventory(h), h.tree)
  {
    Stays(site, h, n);
    NothingInventoried(site, orig, h);
  }

  lemma BegunIsClearing(site: Site, h: Host, e: Event, begun: Host)
    requires e.Restore? && Follows(site, h, e, begun) && begun.job != Failed && Clean(Inventory(h), h.tree)
    ensures BegunWell(h, e, begun)
  {
  }

  lemma RemovesNotAll(site: Site, orig: Tree, hosts: seq<Host>, events: seq<Event>, i: nat)
    requires Run(site, orig, hosts, events)
    requires i < |events| && events[i].Restore?
    requires !Clean(Inventory(hosts[i]), hosts[i].tree)
    ensures After(site, hosts[i + 1], |events[i].todo| + |events[i].dirs| + 1).tree.Keys != orig.Keys
  {
    var d :| d in Inventory(hosts[i]).entries && !Inventory(hosts[i]).entries[d].existed
             && !StillWritten(Inventory(hosts[i]), hosts[i].tree, d);
    ChangedIsKept(site, orig, hosts, events, i, d, |events[i].todo| + |events[i].dirs| + 1);
    RunInv(site, orig, hosts, events, i);
    CreatedIsNew(site, orig, hosts[i], d);
  }

  lemma CreatedIsNew(site: Site, orig: Tree, h: Host, d: Path)
    requires Inv(site, orig, h) && d in Inventory(h).entries && !Inventory(h).entries[d].existed
    ensures d !in orig
  {
    assert Kept(site, orig, d, Inventory(h).entries[d], |Inventory(h).entries|, h.backups);
  }

  lemma NothingInventoried(site: Site, orig: Tree, h: Host)
    requires Inv(site, orig, h) && h.job == Restored && h.manifest == None
    ensures Undone(site, orig, Inventory(h), h.tree)
  {
  }

  /** What keeps it from that: a changed file stays as it is, and so does every directory
      above it. */
  lemma ChangedIsKept(site: Site, orig: Tree, hosts: seq<Host>, events: seq<Event>, i: nat, d: Path, n: nat)
    requires Run(site, orig, hosts, events) && i < |events| && events[i].Restore?
    requires d in Inventory(hosts[i]).entries && !Inventory(hosts[i]).entries[d].existed
    requires !StillWritten(Inventory(hosts[i]), hosts[i].tree, d)
    ensures var done := After(site, hosts[i + 1], n);
            && d in done.tree && done.tree[d] == hosts[i].tree[d]
            && forall q :: Inside(d, q) ==> q in done.tree && done.tree[q].Dir?
  {
    RestoreBegins(site, orig, hosts, events, i);
    RunInv(site, orig, hosts, events, i + 1);
    ChangedStays(site, orig, hosts[i + 1], d, n);
  }

  // --- One payload per destination ------------------------------------------------------------

  ghost predicate PayloadIs(want: map<Path, Bytes>, payload: seq<Item>) {
    forall i :: 0 <= i < |payload| ==> payload[i].dest in want && want[payload[i].dest] == payload[i].data
  }

  ghost predicate EntriesAre(want: map<Path, Bytes>, m: Manifest) {
    forall d :: d in m.entries && !m.entries[d].existed ==> d in want && m.entries[d].written == Sha(want[d])
  }

  ghost predicate FilesAre(want: map<Path, Bytes>, orig: Tree, tree: Tree) {
    forall p :: p in tree && p !in orig && tree[p].File? ==>
      p in want && tree[p].bytes == want[p] && tree[p].links == 1
  }

  ghost predicate JobFixed(want: map<Path, Bytes>, orig: Tree, h: Host) {
    match h.job
    case Recording(payload, next, draft) => PayloadIs(want, payload) && EntriesAre(want, draft)
    case Writing(payload, next) => PayloadIs(want, payload)
    case Restoring(todo, dirs) => Clearing(h)
    case Restored => h.tree.Keys == orig.Keys
    case _ => true
  }

  ghost predicate Fixed(want: map<Path, Bytes>, orig: Tree, h: Host) {
    && EntriesAre(want, Inventory(h)) && FilesAre(want, orig, h.tree)
    && JobFixed(want, orig, h)
  }

  lemma WriteFixed(site: Site, orig: Tree, want: map<Path, Bytes>, h: Host)
    requires Inv(site, orig, h) && Fixed(want, orig, h) && h.job.Writing?
    ensures Fixed(want, orig, Go(site, h))
  {
    if h.job.next < |h.job.payload| {
      var item := h.job.payload[h.job.next];
      var node := File(item.data, ModeFor(site, item.dest, item.mode), 1);
      match Write(site, h.tree, item.dest, node) {
        case Made(_) => MadeIsWellFormed(site, h.tree, item.dest, node);
        case Wrote(_) => WroteIsWellFormed(site, h.tree, item.dest, node);
        case Refused =>
      }
    }
  }

  lemma RecordFixed(site: Site, orig: Tree, want: map<Path, Bytes>, h: Host)
    requires Fixed(want, orig, h) && h.job.Recording?
    ensures Fixed(want, orig, Go(site, h))
  {
    if h.job.next < |h.job.payload| {
      RecordedEntries(site, h, h.job.payload, h.job.next, h.job.draft);
      var item, h' := h.job.payload[h.job.next], Go(site, h);
      if h'.job.Recording? {
        EntriesStayFixed(want, h.job.draft, h'.job.draft, item);
      }
    }
  }

  /** What one step of the recording does, and what it leaves alone. */
  lemma RecordedEntries(site: Site, h: Host, payload: seq<Item>, next: nat, draft: Manifest)
    requires h.job == Recording(payload, next, draft) && next < |payload|
    ensures var h', item := Go(site, h), payload[next];
            && h'.tree == h.tree && h'.manifest == h.manifest
            && (h'.job == Failed
                || (h'.job == Recording(payload, next + 1, h'.job.draft) && item.dest in h'.job.draft.entries
                    && h'.job.draft.entries[item.dest].written == Sha(item.data)
                    && h'.job.draft.entries == draft.entries[item.dest := h'.job.draft.entries[item.dest]]))
  {
  }

  lemma EntriesStayFixed(want: map<Path, Bytes>, m: Manifest, m': Manifest, item: Item)
    requires EntriesAre(want, m) && item.dest in want && want[item.dest] == item.data
    requires item.dest in m'.entries && m'.entries[item.dest].written == Sha(item.data)
    requires m'.entries == m.entries[item.dest := m'.entries[item.dest]]
    ensures EntriesAre(want, m')
  {
  }

  /** With one payload per destination every created file is as it was written. */
  lemma FixedIsClean(site: Site, orig: Tree, want: map<Path, Bytes>, h: Host)
    requires Inv(site, orig, h) && EntriesAre(want, Inventory(h)) && FilesAre(want, orig, h.tree)
    ensures Clean(Inventory(h), h.tree)
  {
    forall d | d in Inventory(h).entries && !Inventory(h).entries[d].existed
      ensures StillWritten(Inventory(h), h.tree, d)
    {
      CreatedIsNew(site, orig, h, d);
    }
  }

  lemma RestoringFixed(site: Site, orig: Tree, want: map<Path, Bytes>, h: Host)
    requires Inv(site, orig, h) && Fixed(want, orig, h) && h.job.Restoring?
    ensures Fixed(want, orig, Go(site, h))
  {
    if h.job.todo != [] {
      RestoreFileClears(site, orig, h);
    } else if h.job.dirs != [] {
      RemoveDirClears(site, orig, h);
    } else {
      NothingLeft(site, orig, h);
    }
  }

  lemma BeginFixed(site: Site, orig: Tree, want: map<Path, Bytes>, h: Host, todo: seq<Path>, dirs: seq<Path>)
    requires Inv(site, orig, h) && Fixed(want, orig, h) && Possible(site, h, Restore(todo, dirs))
    ensures Fixed(want, orig, StartRestore(site, h, todo, dirs))
  {
    FixedIsClean(site, orig, want, h);
  }

  ghost predicate FixedEvents(want: map<Path, Bytes>, events: seq<Event>) {
    forall i :: 0 <= i < |events| && events[i].Apply? ==> PayloadIs(want, events[i].payload)
  }

  lemma EventFixed(site: Site, orig: Tree, want: map<Path, Bytes>, h: Host, e: Event)
    requires Inv(site, orig, h) && Fixed(want, orig, h) && Possible(site, h, e)
    requires e.Apply? ==> PayloadIs(want, e.payload)
    ensures Fixed(want, orig, Occurs(site, h, e))
  {
    match e
    case Apply(_) =>
    case Restore(todo, dirs) => BeginFixed(site, orig, want, h, todo, dirs);
    case Crash =>
    case Step =>
      match h.job {
        case Recording(payload, next, draft) => RecordFixed(site, orig, want, h);
        case Writing(payload, next) => WriteFixed(site, orig, want, h);
        case Restoring(todo, dirs) => RestoringFixed(site, orig, want, h);
        case _ =>
      }
  }

  lemma FollowsFixed(site: Site, orig: Tree, want: map<Path, Bytes>, h: Host, e: Event, h': Host)
    requires Inv(site, orig, h) && Fixed(want, orig, h) && Follows(site, h, e, h')
    requires e.Apply? ==> PayloadIs(want, e.payload)
    ensures Fixed(want, orig, h')
  {
    EventFixed(site, orig, want, h, e);
  }

  lemma {:induction false} RunFixed(site: Site, orig: Tree, want: map<Path, Bytes>, hosts: seq<Host>, events: seq<Event>, i: nat)
    requires Run(site, orig, hosts, events) && FixedEvents(want, events) && i < |hosts|
    ensures Fixed(want, orig, hosts[i])
  {
    if i > 0 {
      RunFixed(site, orig, want, hosts, events, i - 1);
      RunInv(site, orig, hosts, events, i - 1);
      FollowsFixed(site, orig, want, hosts[i - 1], events[i - 1], hosts[i]);
    }
  }

  /** After any number of applies of one payload per destination, and of restores, each
      of them cut off anywhere, a restore that is not refused and let run undoes them all. */
  lemma ApplyThenRestore(site: Site, orig: Tree, want: map<Path, Bytes>, hosts: seq<Host>, events: seq<Event>, i: nat)
    requires Run(site, orig, hosts, events) && FixedEvents(want, events)
    requires i < |events| && events[i].Restore? && hosts[i + 1].job != Failed
    ensures var done := After(site, hosts[i + 1], |events[i].todo| + |events[i].dirs| + 1);
            done.job == Restored && Undone(site, orig, Inventory(hosts[i]), done.tree)
  {
    FixedRunClean(site, orig, want, hosts, events, i);
    RemovesExactly(site, orig, hosts, events, i);
  }

  lemma FixedRunClean(site: Site, orig: Tree, want: map<Path, Bytes>, hosts: seq<Host>, events: seq<Event>, i: nat)
    requires Run(site, orig, hosts, events) && FixedEvents(want, events) && i < |hosts|
    ensures Clean(Inventory(hosts[i]), hosts[i].tree)
  {
    RunInv(site, orig, hosts, events, i);
    RunFixed(site, orig, want, hosts, events, i);
    FixedIsClean(site, orig, want, hosts[i]);
  }

  // --- Restoring once more --------------------------------------------------------------------

  /** A created destination that a restore leaves as it is. */
  ghost predicate Quiet(tree: Tree, d: Path, written: Digest) {
    match Lstat(tree, d)
    case Blocked => false
    case Absent => true
    case Found(node) => !(node.File? && node.links == 1 && Sha(node.bytes) == written)
  }

  /** What a restore has dealt with it would leave as it is. */
  ghost predicate Settled(m: Manifest, tree: Tree, todo: seq<Path>, dirs: seq<Path>) {
    && (forall d :: d in m.entries && !m.entries[d].existed && d !in todo ==> Quiet(tree, d, m.entries[d].written))
    && (forall d, x :: d in m.dirs && d !in dirs && x in dirs ==> Length(d) >= Length(x))
    && (forall d :: d in m.dirs && d !in dirs ==> todo == [] && !(d in tree && tree[d].Dir? && Empty(tree, d)))
  }

  ghost predicate JobSettled(h: Host) {
    match h.job
    case Restoring(todo, dirs) => Settled(Inventory(h), h.tree, todo, dirs)
    case Restored => Settled(Inventory(h), h.tree, [], [])
    case _ => true
  }

  /** Writing an original back, or removing a file, disturbs no created destination. */
  lemma FileSettles(m: Manifest, tree: Tree, tree': Tree, todo: seq<Path>, dirs: seq<Path>)
    requires todo != [] && Settled(m, tree, todo, dirs)
    requires todo[0] in m.entries && !m.entries[todo[0]].existed ==> Quiet(tree', todo[0], m.entries[todo[0]].written)
    requires forall p :: p != todo[0] ==> (p in tree' <==> p in tree) && (p in tree' ==> tree'[p] == tree[p])
    requires todo[0] in tree' ==> todo[0] in tree && (tree'[todo[0]].Dir? <==> tree[todo[0]].Dir?)
    requires todo[0] in tree && todo[0] !in tree' ==> tree[todo[0]].File?
    ensures Settled(m, tree', todo[1..], dirs)
  {
    assert forall x :: x in todo ==> x == todo[0] || x in todo[1..];
    forall d | d in m.entries && !m.entries[d].existed && d !in todo[1..]
      ensures Quiet(tree', d, m.entries[d].written)
    {
      if d != todo[0] { QuietStays(tree, tree', todo[0], d, m.entries[d].written); }
    }
  }

  lemma QuietStays(tree: Tree, tree': Tree, q: Path, d: Path, written: Digest)
    requires Quiet(tree, d, written) && d != q
    requires forall p :: p != q ==> (p in tree' <==> p in tree) && (p in tree' ==> tree'[p] == tree[p])
    requires q in tree' ==> q in tree && (tree'[q].Dir? <==> tree[q].Dir?)
    requires q in tree && q !in tree' ==> tree[q].File?
    ensures Quiet(tree', d, written)
  {
  }

  lemma DirSettles(m: Manifest, tree: Tree, e: Path, dirs: seq<Path>)
    requires Settled(m, tree, [], dirs) && dirs != [] && dirs[0] == e && LongestFirst(dirs)
    ensures var tree' := if e in tree && tree[e].Dir? && Empty(tree, e) then tree - {e} else tree;
            Settled(m, tree', [], dirs[1..])
  {
    var tree' := if e in tree && tree[e].Dir? && Empty(tree, e) then tree - {e} else tree;
    assert forall x :: x in dirs ==> x == e || x in dirs[1..];
    forall d | d in m.entries && !m.entries[d].existed ensures Quiet(tree', d, m.entries[d].written) {
      assert Quiet(tree, d, m.entries[d].written);
      if d != [] && Parent(d) == e && d in tree { assert Inside(d, e); }
    }
    forall d | d in m.dirs && d !in dirs[1..] ensures !(d in tree' && tree'[d].Dir? && Empty(tree', d)) {
      if d !in dirs && d in tree && !Empty(tree, d) {
        var p :| p in tree && Inside(p, d);
        if p == e { LongerInside(e, d); }
      }
    }
  }

  lemma RestoringSettles(site: Site, orig: Tree, h: Host)
    requires Inv(site, orig, h) && h.job.Restoring? && JobSettled(h)
    ensures JobSettled(Go(site, h))
  {
    if h.job.todo != [] { FileStepSettles(site, orig, h); }
    else if h.job.dirs != [] { DirSettles(Inventory(h), h.tree, h.job.dirs[0], h.job.dirs); }
  }

  lemma FileStepSettles(site: Site, orig: Tree, h: Host)
    requires Inv(site, orig, h) && h.job.Restoring? && JobSettled(h) && h.job.todo != []
    ensures JobSettled(Go(site, h))
  {
    if h.manifest.value.entries[h.job.todo[0]].existed {
      RestoresExisting(site, orig, h);
      BackSettles(site, orig, h.manifest.value, h.tree, h.job.todo, h.job.dirs);
    } else {
      CreatedSettles(site, h, h.manifest.value, h.job.todo, h.job.dirs);
    }
  }

  lemma BackSettles(site: Site, orig: Tree, m: Manifest, tree: Tree, todo: seq<Path>, dirs: seq<Path>)
    requires todo != [] && Settled(m, tree, todo, dirs) && Explained(orig, m, tree)
    requires todo[0] in m.entries && m.entries[todo[0]].existed && todo[0] in orig && orig[todo[0]].File?
    ensures Settled(m, tree[todo[0] := Back(site, todo[0], orig[todo[0]])], todo[1..], dirs)
  {
    FileSettles(m, tree, tree[todo[0] := Back(site, todo[0], orig[todo[0]])], todo, dirs);
  }

  lemma CreatedSettles(site: Site, h: Host, m: Manifest, todo: seq<Path>, dirs: seq<Path>)
    requires todo != [] && h.job == Restoring(todo, dirs) && h.manifest == Some(m) && Settled(m, h.tree, todo, dirs)
    requires todo[0] in m.entries && !m.entries[todo[0]].existed
    ensures JobSettled(Go(site, h))
  {
    if Go(site, h).job.Restoring? { FileSettles(m, h.tree, Go(site, h).tree, todo, dirs); }
  }

  lemma FollowsSettles(site: Site, orig: Tree, h: Host, e: Event, h': Host)
    requires Inv(site, orig, h) && JobSettled(h) && Follows(site, h, e, h')
    ensures JobSettled(h')
  {
    if e.Step? {
      if h.job.Restoring? { RestoringSettles(site, orig, h); } else { OtherJobs(site, h); }
    } else {
      BeginSettles(site, h, e);
    }
  }

  lemma OtherJobs(site: Site, h: Host)
    requires Working(h.job) && !h.job.Restoring?
    ensures JobSettled(Go(site, h))
  {
  }

  lemma BeginSettles(site: Site, h: Host, e: Event)
    requires Possible(site, h, e) && !e.Step?
    ensures JobSettled(Occurs(site, h, e))
  {
  }

  lemma {:induction false} RunSettled(site: Site, orig: Tree, hosts: seq<Host>, events: seq<Event>, i: nat)
    requires Run(site, orig, hosts, events) && i < |hosts|
    ensures JobSettled(hosts[i])
  {
    if i > 0 {
      RunSettled(site, orig, hosts, events, i - 1);
      RunInv(site, orig, hosts, events, i - 1);
      FollowsSettles(site, orig, hosts[i - 1], events[i - 1], hosts[i]);
    }
  }

  /** Restoring the entry changes nothing. */
  ghost predicate EntryRests(site: Site, tree: Tree, backups: map<nat, Bytes>, d: Path, e: Entry) {
    if e.existed then
      && e.backup in backups && Sha(backups[e.backup]) == e.digest
      && Write(site, tree, d, File(backups[e.backup], ModeFor(site, d, e.mode), 1)) == Wrote(tree)
    else Quiet(tree, d, e.written)
  }

  ghost predicate AllRests(site: Site, m: Manifest, tree: Tree, backups: map<nat, Bytes>) {
    && (forall d :: d in m.entries ==> EntryRests(site, tree, backups, d, m.entries[d]))
    && (forall d :: d in m.dirs ==> !(d in tree && tree[d].Dir? && Empty(tree, d)))
  }

  lemma OriginalRests(site: Site, orig: Tree, m: Manifest, tree: Tree, backups: map<nat, Bytes>, d: Path)
    requires WellFormed(orig) && Explained(orig, m, tree) && d in m.entries && m.entries[d].existed
    requires Kept(site, orig, d, m.entries[d], |m.entries|, backups)
    requires d in tree && tree[d] == Back(site, d, orig[d])
    ensures EntryRests(site, tree, backups, d, m.entries[d])
  {
    OriginalIsKept(site, orig, d, m.entries[d], |m.entries|, backups);
    WritesBack(site, orig, m, tree, d);
    assert tree[d := Back(site, d, orig[d])] == tree;
  }

  lemma RestoredRests(site: Site, orig: Tree, h: Host)
    requires Inv(site, orig, h) && h.job == Restored && JobSettled(h)
    ensures AllRests(site, Inventory(h), h.tree, h.backups)
  {
    var m := Inventory(h);
    forall d | d in m.entries ensures EntryRests(site, h.tree, h.backups, d, m.entries[d]) {
      assert Kept(site, orig, d, m.entries[d], |m.entries|, h.backups);
      if m.entries[d].existed { OriginalRests(site, orig, m, h.tree, h.backups, d); }
    }
  }

  lemma {:induction false} RestsOn(site: Site, h: Host, m: Manifest, n: nat)
    requires h.job.Restoring? && h.manifest == Some(m) && AllRests(site, m, h.tree, h.backups)
    requires n == Left(h.job) + 1 && (forall d :: d in h.job.todo ==> d in m.entries) && (forall d :: d in h.job.dirs ==> d in m.dirs)
    ensures After(site, h, n) == h.(job := Restored)
    decreases n
  {
    var todo, dirs := h.job.todo, h.job.dirs;
    var next := Go(site, h);
    if todo != [] {
      assert EntryRests(site, h.tree, h.backups, todo[0], m.entries[todo[0]]);
      assert next == h.(job := Restoring(todo[1..], dirs));
      RestsOn(site, next, m, n - 1);
    } else if dirs != [] {
      assert dirs[0] in m.dirs;
      assert next == h.(job := Restoring([], dirs[1..]));
      RestsOn(site, next, m, n - 1);
    } else {
      Stays(site, next, n - 1);
    }
  }

  /** In every run, whatever the payloads: restoring once more changes nothing. */
  lemma RestoreTwice(site: Site, orig: Tree, hosts: seq<Host>, events: seq<Event>, i: nat)
    requires Run(site, orig, hosts, events)
    requires i < |events| && hosts[i].job == Restored && events[i].Restore? && hosts[i + 1].job != Failed
    ensures After(site, hosts[i + 1], |events[i].todo| + |events[i].dirs| + 1) == hosts[i]
  {
    RunRests(site, orig, hosts, events, i);
    assert Follows(site, hosts[i], events[i], hosts[i + 1]);
    TwiceRests(site, hosts[i], events[i], hosts[i + 1]);
  }

  lemma TwiceRests(site: Site, h: Host, e: Event, begun: Host)
    requires AllRests(site, Inventory(h), h.tree, h.backups) && h.job == Restored
    requires e.Restore? && Follows(site, h, e, begun) && begun.job != Failed
    ensures After(site, begun, |e.todo| + |e.dirs| + 1) == h
  {
    if begun.job.Restoring? {
      RestsOn(site, begun, Inventory(h), |e.todo| + |e.dirs| + 1);
    } else {
      Stays(site, begun, |e.todo| + |e.dirs| + 1);
    }
  }

  lemma RunRests(site: Site, orig: Tree, hosts: seq<Host>, events: seq<Event>, i: nat)
    requires Run(site, orig, hosts, events) && i < |hosts| && hosts[i].job == Restored
    ensures AllRests(site, Inventory(hosts[i]), hosts[i].tree, hosts[i].backups)
  {
    RunSettled(site, orig, hosts, events, i);
    RunInv(site, orig, hosts, events, i);
    RestoredRests(site, orig, hosts[i]);
  }
}
