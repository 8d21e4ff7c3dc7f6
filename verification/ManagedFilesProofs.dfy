/** Whatever is applied, however often and wherever it is cut off, restore brings the
    originals back. */
module ManagedFilesProofs {
  import opened Options
  import opened ManagedFiles

  // --- Paths and trees ----------------------------------------------------------------

  lemma AncestorsAreDirs(tree: Tree, p: Path, j: nat)
    requires WellFormed(tree) && p in tree && j < |p|
    ensures p[..j] in tree && tree[p[..j]].Dir?
  {
    assert Inside(p, p[..j]);
  }

  lemma PrefixOf(p: Path, q: Path)
    requires Inside(p, q)
    ensures |q| < |p| && q == p[..|q|]
  {
  }

  lemma {:induction false} LongerInside(p: Path, q: Path)
    requires Inside(p, q)
    ensures Length(p) > Length(q)
    decreases |p|
  {
    if |p| == |q| + 1 {
      assert Parent(p) == q;
    } else {
      assert Inside(Parent(p), q);
      LongerInside(Parent(p), q);
    }
  }

  /** In a well-formed tree a write first makes the outermost missing directory. */
  lemma MadeIsWellFormed(site: Site, tree: Tree, dest: Path, node: Node)
    requires WellFormed(tree) && Write(site, tree, dest, node).Made?
    ensures WellFormed(Write(site, tree, dest, node).tree)
    ensures var q := dest[..FirstGap(tree, dest, 0).value];
            Inside(dest, q) && Inside(q, site.qlds) && q !in tree
            && Write(site, tree, dest, node).tree == tree[q := Dir]
  {
    var k := FirstGap(tree, dest, 0).value;
    var q := dest[..k];
    forall p | Inside(q, p) ensures p in tree && tree[p].Dir? {
      GapIsFirst(tree, dest, 0, |p|);
      assert p == dest[..|p|];
    }
  }

  lemma {:induction false} GapIsFirst(tree: Tree, p: Path, k: nat, j: nat)
    requires k <= j < |p| && FirstGap(tree, p, k).Some? && j < FirstGap(tree, p, k).value
    ensures p[..j] in tree && tree[p[..j]].Dir?
    decreases j - k
  {
    if k < j { GapIsFirst(tree, p, k + 1, j); }
  }

  lemma WroteIsWellFormed(site: Site, tree: Tree, dest: Path, node: Node)
    requires WellFormed(tree) && node.File? && Write(site, tree, dest, node).Wrote?
    ensures WellFormed(tree[dest := node]) && dest != []
    ensures Write(site, tree, dest, node).tree == tree[dest := node]
    ensures dest in tree ==> !tree[dest].Dir?
  {
    forall q | Inside(dest, q) ensures q in tree && tree[q].Dir? {
      PrefixOf(dest, q);
    }
    assert forall p :: p in tree ==> !Inside(p, dest);
  }

  /** Lstat of a path in a well-formed tree just looks it up. */
  lemma LstatIsLookup(tree: Tree, p: Path)
    requires WellFormed(tree)
    ensures p in tree ==> Lstat(tree, p) == Found(tree[p])
    ensures p !in tree ==> !Lstat(tree, p).Found?
  {
    if p in tree && p != [] { assert Inside(p, Parent(p)); }
  }

  // --- Recording ------------------------------------------------------------------------

  /** Everything missing above dir, inside the instance directory, is listed. */
  lemma {:induction false} MissingIsAll(site: Site, tree: Tree, dir: Path, q: Path)
    requires WellFormed(tree) && Missing(site, tree, dir).Some?
    requires q == dir || Inside(dir, q)
    requires Inside(q, site.qlds)
    ensures q in tree || q in Missing(site, tree, dir).value
    decreases |dir|
  {
    LstatIsLookup(tree, dir);
    assert Inside(dir, site.qlds);
    if dir !in tree && q != dir {
      assert q == Parent(dir) || Inside(Parent(dir), q);
      MissingIsAll(site, tree, Parent(dir), q);
    }
  }

  lemma {:induction false} MissingIsMissing(site: Site, tree: Tree, dir: Path)
    requires WellFormed(tree) && Missing(site, tree, dir).Some?
    ensures forall q :: q in Missing(site, tree, dir).value ==> q !in tree && Inside(q, site.qlds)
    decreases |dir|
  {
    LstatIsLookup(tree, dir);
    if Inside(dir, site.qlds) && dir !in tree {
      MissingIsMissing(site, tree, Parent(dir));
    }
  }

  lemma SmallerManifest(m: Manifest, draft: Manifest)
    requires Extends(m, draft)
    ensures |m.entries| <= |draft.entries|
  {
    SubsetSize(m.entries.Keys, draft.entries.Keys);
    assert |m.entries| == |m.entries.Keys| && |draft.entries| == |draft.entries.Keys|;
  }

  lemma {:induction false} SubsetSize<T>(a: set<T>, b: set<T>)
    requires a <= b
    ensures |a| <= |b|
  {
    if a != {} {
      var x :| x in a;
      SubsetSize(a - {x}, b - {x});
    }
  }

  /** A backup under a new index leaves every original where it is. */
  lemma NewBackup(site: Site, orig: Tree, m: Manifest, backups: map<nat, Bytes>, index: nat, data: Bytes)
    requires Originals(site, orig, m, backups) && index >= |m.entries|
    ensures Originals(site, orig, m, backups[index := data])
  {
    forall d | d in m.entries ensures Kept(site, orig, d, m.entries[d], |m.entries|, backups[index := data]) {
      assert Kept(site, orig, d, m.entries[d], |m.entries|, backups);
    }
  }

  /** What a new entry says is true of the original tree. */
  lemma NewEntryKept(site: Site, orig: Tree, draft: Manifest, tree: Tree, dest: Path, e: Entry, backups: map<nat, Bytes>)
    requires WellFormed(orig) && Explained(orig, draft, tree) && dest !in draft.entries && dest != []
    requires Allowed(site, dest) && (forall d :: d in draft.dirs ==> d !in orig)
    requires match Lstat(tree, dest) {
               case Blocked => false
               case Absent => !e.existed
               case Found(node) =>
                 node.File? && node.links == 1 && e.existed && e.backup == |draft.entries|
                 && e.backup in backups && backups[e.backup] == node.bytes
                 && e.digest == Sha(node.bytes) && e.mode == node.mode % 512
             }
    ensures Kept(site, orig, dest, e, |draft.entries| + 1, backups)
  {
    LstatIsLookup(tree, dest);
    if Parent(dest) in orig { assert Parent(dest) in tree; }
    if dest in tree {
      assert dest in orig && tree[dest] == orig[dest];
    }
  }

  lemma GrowEntries(site: Site, orig: Tree, m: Manifest, backups: map<nat, Bytes>, dest: Path, e: Entry)
    requires Originals(site, orig, m, backups) && dest !in m.entries
    requires e.existed ==> e.backup == |m.entries|
    requires Kept(site, orig, dest, e, |m.entries| + 1, backups)
    ensures Originals(site, orig, Manifest(m.entries[dest := e], m.dirs), backups)
  {
    var entries := m.entries[dest := e];
    assert entries.Keys == m.entries.Keys + {dest};
    assert |entries| == |entries.Keys| && |m.entries| == |m.entries.Keys|;
    assert |entries| == |m.entries| + 1;
    forall d | d in entries ensures Kept(site, orig, d, entries[d], |entries|, backups) {
      if d != dest { assert Kept(site, orig, d, m.entries[d], |m.entries|, backups); }
    }
    forall d | d in m.entries && m.entries[d].existed ensures m.entries[d].backup < |m.entries| {
      assert Kept(site, orig, d, m.entries[d], |m.entries|, backups);
    }
  }

  lemma TouchEntry(site: Site, orig: Tree, m: Manifest, backups: map<nat, Bytes>, dest: Path, sha: Digest)
    requires Originals(site, orig, m, backups) && dest in m.entries
    ensures Originals(site, orig, Manifest(m.entries[dest := m.entries[dest].(written := sha)], m.dirs), backups)
  {
    var entries := m.entries[dest := m.entries[dest].(written := sha)];
    assert entries.Keys == m.entries.Keys;
    assert |entries| == |entries.Keys| && |m.entries| == |m.entries.Keys|;
    forall d | d in entries ensures Kept(site, orig, d, entries[d], |entries|, backups) {
      assert Kept(site, orig, d, m.entries[d], |m.entries|, backups);
    }
  }

  lemma GrowDirs(site: Site, orig: Tree, m: Manifest, tree: Tree, backups: map<nat, Bytes>, dest: Path)
    requires Originals(site, orig, m, backups) && Explained(orig, m, tree) && dest != []
    requires Missing(site, tree, Parent(dest)).Some?
    ensures var dirs := Adding(m.dirs, Missing(site, tree, Parent(dest)).value);
            && Originals(site, orig, Manifest(m.entries, dirs), backups)
            && Explained(orig, Manifest(m.entries, dirs), tree)
            && (forall q :: Inside(dest, q) && Inside(q, site.qlds) ==> q in tree || q in dirs)
  {
    var missing := Missing(site, tree, Parent(dest)).value;
    MissingIsMissing(site, tree, Parent(dest));
    forall q | Inside(dest, q) && Inside(q, site.qlds) ensures q in tree || q in missing {
      assert q == Parent(dest) || Inside(Parent(dest), q);
      MissingIsAll(site, tree, Parent(dest), q);
    }
  }

  lemma PreparedMore(site: Site, draft: Manifest, more: Manifest, tree: Tree, dest: Path)
    requires Prepared(site, draft, tree, dest) && Extends(draft, more)
    ensures Prepared(site, more, tree, dest)
  {
  }

  lemma ExtendsMore(m: Manifest, draft: Manifest, more: Manifest)
    requires Extends(m, draft) && Extends(draft, more)
    ensures Extends(m, more)
  {
  }

  lemma PreparedSoFar(site: Site, draft: Manifest, more: Manifest, tree: Tree, payload: seq<Item>, next: nat)
    requires next < |payload| && Extends(draft, more)
    requires forall i :: 0 <= i < next ==> Prepared(site, draft, tree, payload[i].dest)
    requires Prepared(site, more, tree, payload[next].dest)
    ensures forall i :: 0 <= i < next + 1 ==> Prepared(site, more, tree, payload[i].dest)
  {
    forall i | 0 <= i < next + 1 ensures Prepared(site, more, tree, payload[i].dest) {
      if i < next { PreparedMore(site, draft, more, tree, payload[i].dest); }
    }
  }

  function Drafted(h: Host, draft: Manifest, backups: map<nat, Bytes>): Host
    requires h.job.Recording?
  {
    h.(backups := backups, job := Recording(h.job.payload, h.job.next + 1, draft))
  }

  /** A longer draft that is right about the item at hand. */
  lemma DraftKeeps(site: Site, orig: Tree, h: Host, draft: Manifest, backups: map<nat, Bytes>)
    requires h.job.Recording? && h.job.next < |h.job.payload| && JobOk(site, orig, h)
    requires Extends(h.job.draft, draft)
    requires Originals(site, orig, draft, backups)
    requires Explained(orig, draft, h.tree)
    requires Prepared(site, draft, h.tree, h.job.payload[h.job.next].dest)
    ensures JobOk(site, orig, Drafted(h, draft, backups))
  {
    ExtendsMore(Inventory(h), h.job.draft, draft);
    PreparedSoFar(site, h.job.draft, draft, h.tree, h.job.payload, h.job.next);
    assert Inventory(Drafted(h, draft, backups)) == Inventory(h);
  }

  lemma RecordNew(site: Site, orig: Tree, h: Host, m: Manifest, dest: Path, e: Entry, backups: map<nat, Bytes>)
    requires h.job.Recording? && h.job.next < |h.job.payload| && JobOk(site, orig, h)
    requires m.entries == h.job.draft.entries && Extends(h.job.draft, m)
    requires dest == h.job.payload[h.job.next].dest && dest !in m.entries
    requires e.existed ==> e.backup == |m.entries|
    requires Kept(site, orig, dest, e, |m.entries| + 1, backups)
    requires e.existed <==> dest in h.tree
    requires e.existed ==> h.tree[dest].File?
    requires Originals(site, orig, m, backups) && Explained(orig, m, h.tree)
    requires forall q :: Inside(dest, q) && Inside(q, site.qlds) ==> q in h.tree || q in m.dirs
    ensures JobOk(site, orig, Drafted(h, Manifest(m.entries[dest := e], m.dirs), backups))
  {
    GrowEntries(site, orig, m, backups, dest, e);
    ExplainMore(orig, m, h.tree, dest, e);
    DraftKeeps(site, orig, h, Manifest(m.entries[dest := e], m.dirs), backups);
  }

  /** The draft with the directories that the item at hand lacks. */
  function WithDirs(site: Site, h: Host): Manifest
    requires h.job.Recording? && h.job.next < |h.job.payload|
    requires var dest := h.job.payload[h.job.next].dest; dest != [] && Missing(site, h.tree, Parent(dest)).Some?
  {
    var dest := h.job.payload[h.job.next].dest;
    Manifest(h.job.draft.entries, Adding(h.job.draft.dirs, Missing(site, h.tree, Parent(dest)).value))
  }

  lemma RecordSeen(site: Site, orig: Tree, h: Host, m: Manifest, dest: Path, sha: Digest)
    requires h.job.Recording? && h.job.next < |h.job.payload| && JobOk(site, orig, h)
    requires dest == h.job.payload[h.job.next].dest != [] && Missing(site, h.tree, Parent(dest)).Some?
    requires m == WithDirs(site, h) && dest in m.entries
    ensures JobOk(site, orig, Drafted(h, Manifest(m.entries[dest := m.entries[dest].(written := sha)], m.dirs), h.backups))
  {
    GrowDirs(site, orig, h.job.draft, h.tree, h.backups, dest);
    TouchEntry(site, orig, m, h.backups, dest, sha);
    DraftKeeps(site, orig, h, Manifest(m.entries[dest := m.entries[dest].(written := sha)], m.dirs), h.backups);
  }

  lemma RecordAbsent(site: Site, orig: Tree, h: Host, m: Manifest, dest: Path, sha: Digest)
    requires h.job.Recording? && h.job.next < |h.job.payload| && JobOk(site, orig, h) && WellFormed(orig)
    requires dest == h.job.payload[h.job.next].dest != [] && Missing(site, h.tree, Parent(dest)).Some?
    requires m == WithDirs(site, h) && dest !in m.entries && Lstat(h.tree, dest).Absent?
    ensures JobOk(site, orig, Drafted(h, Manifest(m.entries[dest := Entry(false, sha, sha, 0, 0)], m.dirs), h.backups))
  {
    GrowDirs(site, orig, h.job.draft, h.tree, h.backups, dest);
    LstatIsLookup(h.tree, dest);
    var e := Entry(false, sha, sha, 0, 0);
    NewEntryKept(site, orig, m, h.tree, dest, e, h.backups);
    RecordNew(site, orig, h, m, dest, e, h.backups);
  }

  lemma RecordFound(site: Site, orig: Tree, h: Host, m: Manifest, dest: Path, node: Node, e: Entry, backups: map<nat, Bytes>)
    requires h.job.Recording? && h.job.next < |h.job.payload| && JobOk(site, orig, h) && WellFormed(orig)
    requires dest == h.job.payload[h.job.next].dest != [] && Missing(site, h.tree, Parent(dest)).Some?
    requires m == WithDirs(site, h) && dest !in m.entries
    requires Lstat(h.tree, dest) == Found(node) && node.File? && node.links == 1
    requires e.existed && e.digest == Sha(node.bytes) && e.mode == node.mode % 512 && e.backup == |m.entries|
    requires backups == h.backups[e.backup := node.bytes]
    ensures JobOk(site, orig, Drafted(h, Manifest(m.entries[dest := e], m.dirs), backups))
  {
    GrowDirs(site, orig, h.job.draft, h.tree, h.backups, dest);
    LstatIsLookup(h.tree, dest);
    NewBackup(site, orig, m, h.backups, e.backup, node.bytes);
    NewEntryKept(site, orig, m, h.tree, dest, e, backups);
    RecordNew(site, orig, h, m, dest, e, backups);
  }

  lemma RecordJob(site: Site, orig: Tree, h: Host)
    requires h.job.Recording? && h.job.next < |h.job.payload| && JobOk(site, orig, h) && WellFormed(orig)
    ensures JobOk(site, orig, Go(site, h))
  {
    var item := h.job.payload[h.job.next];
    var dest, sha := item.dest, Sha(item.data);
    if Go(site, h) == Fail(h) { return; }
    var m := WithDirs(site, h);
    if dest in m.entries {
      RecordSeen(site, orig, h, m, dest, sha);
    } else {
      match Lstat(h.tree, dest) {
        case Absent => RecordAbsent(site, orig, h, m, dest, sha);
        case Found(node) =>
          var e := Entry(true, sha, Sha(node.bytes), node.mode % 512, |m.entries|);
          RecordFound(site, orig, h, m, dest, node, e, h.backups[e.backup := node.bytes]);
      }
    }
  }

  /** Recording writes nothing but a backup under the next index. */
  lemma RecordOnlyBacksUp(site: Site, h: Host) returns (data: Bytes)
    requires h.job.Recording? && h.job.next < |h.job.payload|
    ensures var h' := Go(site, h);
            && h'.tree == h.tree && h'.manifest == h.manifest
            && (h'.backups == h.backups || h'.backups == h.backups[|h.job.draft.entries| := data])
  {
    var look := Lstat(h.tree, h.job.payload[h.job.next].dest);
    data := if look.Found? && look.node.File? then look.node.bytes else [];
  }

  lemma InvFrom(site: Site, orig: Tree, h: Host, h': Host)
    requires Inv(site, orig, h) && JobOk(site, orig, h')
    requires h'.tree == h.tree && h'.manifest == h.manifest
    requires Originals(site, orig, Inventory(h), h'.backups)
    ensures Inv(site, orig, h')
  {
  }

  lemma RecordKeeps(site: Site, orig: Tree, h: Host, h': Host)
    requires Inv(site, orig, h) && h.job.Recording? && h.job.next < |h.job.payload| && h' == Go(site, h)
    ensures Inv(site, orig, h')
  {
    RecordJob(site, orig, h);
    var data := RecordOnlyBacksUp(site, h);
    SmallerManifest(Inventory(h), h.job.draft);
    NewBackup(site, orig, Inventory(h), h.backups, |h.job.draft.entries|, data);
    InvFrom(site, orig, h, h');
  }

  lemma ExplainMore(orig: Tree, m: Manifest, tree: Tree, dest: Path, e: Entry)
    requires Explained(orig, m, tree) && dest !in m.entries
    requires e.existed ==> dest in tree && tree[dest].File?
    requires !e.existed ==> dest !in tree
    ensures Explained(orig, Manifest(m.entries[dest := e], m.dirs), tree)
  {
  }

  // --- Writing ----------------------------------------------------------------------------

  /** A write to a prepared destination changes only what the inventory lists. */
  lemma WriteExplained(site: Site, orig: Tree, m: Manifest, tree: Tree, dest: Path, node: Node)
    requires WellFormed(orig) && Explained(orig, m, tree) && node.File?
    requires Prepared(site, m, tree, dest) && (forall d :: d in m.dirs ==> d !in orig)
    requires m.entries[dest].existed <==> dest in orig
    requires !Write(site, tree, dest, node).Refused?
    ensures Explained(orig, m, Write(site, tree, dest, node).tree)
    ensures tree.Keys <= Write(site, tree, dest, node).tree.Keys
    ensures forall p :: p in tree && p != dest ==> Write(site, tree, dest, node).tree[p] == tree[p]
  {
    match Write(site, tree, dest, node)
    case Made(_) => MadeIsWellFormed(site, tree, dest, node);
    case Wrote(_) => WroteIsWellFormed(site, tree, dest, node);
  }

  lemma StillPrepared(site: Site, m: Manifest, tree: Tree, tree': Tree, payload: seq<Item>)
    requires tree.Keys <= tree'.Keys
    requires forall i :: 0 <= i < |payload| ==> Prepared(site, m, tree, payload[i].dest)
    ensures forall i :: 0 <= i < |payload| ==> Prepared(site, m, tree', payload[i].dest)
  {
    forall i | 0 <= i < |payload| ensures Prepared(site, m, tree', payload[i].dest) {
      assert Prepared(site, m, tree, payload[i].dest);
    }
  }

  lemma WriteKept(site: Site, orig: Tree, h: Host, tree: Tree, next: nat)
    requires Inv(site, orig, h) && h.job.Writing? && next <= |h.job.payload|
    requires Explained(orig, Inventory(h), tree) && h.tree.Keys <= tree.Keys
    ensures Inv(site, orig, h.(tree := tree, job := Writing(h.job.payload, next)))
  {
    StillPrepared(site, Inventory(h), h.tree, tree, h.job.payload);
    assert Inventory(h.(tree := tree, job := Writing(h.job.payload, next))) == Inventory(h);
  }

  lemma WriteNextKeeps(site: Site, orig: Tree, h: Host)
    requires Inv(site, orig, h) && h.job.Writing? && h.job.next < |h.job.payload|
    ensures Inv(site, orig, Go(site, h))
  {
    var payload, next, m := h.job.payload, h.job.next, Inventory(h);
    var item := payload[next];
    var node := File(item.data, ModeFor(site, item.dest, item.mode), 1);
    var written := Write(site, h.tree, item.dest, node);
    if !written.Refused? {
      assert Kept(site, orig, item.dest, m.entries[item.dest], |m.entries|, h.backups);
      WriteExplained(site, orig, m, h.tree, item.dest, node);
      WriteKept(site, orig, h, written.tree, if written.Made? then next else next + 1);
    }
  }

  // --- Restoring ---------------------------------------------------------------------------

  /** A destination that existed: its ancestors are still there, so the write is one step. */
  lemma RestoresExisting(site: Site, orig: Tree, h: Host)
    requires Inv(site, orig, h) && h.job.Restoring? && h.job.todo != []
    requires h.manifest.value.entries[h.job.todo[0]].existed
    ensures var d := h.job.todo[0];
            && d in orig && orig[d].File?
            && Go(site, h) == h.(tree := h.tree[d := Back(site, d, orig[d])],
                                 job := Restoring(h.job.todo[1..], h.job.dirs))
    ensures var d := h.job.todo[0]; Explained(orig, h.manifest.value, h.tree[d := Back(site, d, orig[d])])
  {
    var d, m := h.job.todo[0], h.manifest.value;
    assert Kept(site, orig, d, m.entries[d], |m.entries|, h.backups);
    OriginalIsKept(site, orig, d, m.entries[d], |m.entries|, h.backups);
    WritesBack(site, orig, m, h.tree, d);
  }

  lemma WritesBack(site: Site, orig: Tree, m: Manifest, tree: Tree, d: Path)
    requires WellFormed(orig) && Explained(orig, m, tree) && d in orig && orig[d].File?
    requires d in m.entries && m.entries[d].existed
    ensures var back := Back(site, d, orig[d]);
            Write(site, tree, d, back) == Wrote(tree[d := back]) && Explained(orig, m, tree[d := back])
  {
    AboveOriginal(orig, m, tree, d);
    WroteIsWellFormed(site, tree, d, Back(site, d, orig[d]));
  }

  /** What would be written back is the original's node. */
  lemma OriginalIsKept(site: Site, orig: Tree, d: Path, e: Entry, size: nat, backups: map<nat, Bytes>)
    requires Kept(site, orig, d, e, size, backups) && e.existed
    ensures File(backups[e.backup], ModeFor(site, d, e.mode), 1) == Back(site, d, orig[d])
  {
  }

  /** The directories above an original are still there. */
  lemma AboveOriginal(orig: Tree, m: Manifest, tree: Tree, d: Path)
    requires WellFormed(orig) && Explained(orig, m, tree) && d in orig
    ensures forall j :: 0 <= j < |d| ==> d[..j] in tree && tree[d[..j]].Dir?
  {
    forall j | 0 <= j < |d| ensures d[..j] in tree && tree[d[..j]].Dir? {
      AncestorsAreDirs(orig, d, j);
    }
  }

  lemma RestoresCreated(site: Site, orig: Tree, h: Host)
    requires Inv(site, orig, h) && h.job.Restoring? && h.job.todo != []
    requires !h.manifest.value.entries[h.job.todo[0]].existed
    ensures Explained(orig, h.manifest.value, Go(site, h).tree)
    ensures forall p :: p in h.tree && p != h.job.todo[0] ==> p in Go(site, h).tree && Go(site, h).tree[p] == h.tree[p]
  {
    var m, d := h.manifest.value, h.job.todo[0];
    assert Kept(site, orig, d, m.entries[d], |m.entries|, h.backups);
    LstatIsLookup(h.tree, d);
    if Go(site, h).tree != h.tree {
      assert h.tree[d].File? && Go(site, h).tree == h.tree - {d};
      assert forall p :: p in h.tree ==> !Inside(p, d);
    }
  }

  /** What is left to do shrinks by its first path. */
  lemma RestNext(site: Site, orig: Tree, m: Manifest, tree: Tree, tree': Tree, todo: seq<Path>)
    requires todo != [] && InOrder(todo) && BackAgain(site, orig, m, tree, todo)
    requires todo[0] in m.entries && m.entries[todo[0]].existed ==>
               (todo[0] in orig && orig[todo[0]].File? && todo[0] in tree'
                && tree'[todo[0]] == Back(site, todo[0], orig[todo[0]]))
    requires forall p :: p in tree && p != todo[0] ==> p in tree' && tree'[p] == tree[p]
    ensures InOrder(todo[1..]) && BackAgain(site, orig, m, tree', todo[1..])
    ensures forall d :: d in todo[1..] ==> d in todo
  {
    assert forall x :: x in todo ==> x == todo[0] || x in todo[1..];
  }

  lemma RestoreKept(site: Site, orig: Tree, h: Host, tree: Tree, todo: seq<Path>)
    requires Inv(site, orig, h) && h.job.Restoring?
    requires Explained(orig, h.manifest.value, tree) && BackAgain(site, orig, h.manifest.value, tree, todo)
    requires InOrder(todo) && (forall d :: d in todo ==> d in h.job.todo)
    ensures Inv(site, orig, h.(tree := tree, job := Restoring(todo, h.job.dirs)))
  {
    var h' := h.(tree := tree, job := Restoring(todo, h.job.dirs));
    assert Inventory(h') == Inventory(h) == h.manifest.value;
  }

  lemma RestoreFileKeeps(site: Site, orig: Tree, h: Host)
    requires Inv(site, orig, h) && h.job.Restoring? && h.job.todo != []
    ensures Inv(site, orig, Go(site, h))
  {
    if h.manifest.value.entries[h.job.todo[0]].existed {
      RestoresExisting(site, orig, h);
      RestoreGoesOn(site, orig, h, Go(site, h).tree);
    } else {
      RestoreCreatedKeeps(site, orig, h);
    }
  }

  lemma RestoreCreatedKeeps(site: Site, orig: Tree, h: Host)
    requires Inv(site, orig, h) && h.job.Restoring? && h.job.todo != []
    requires !h.manifest.value.entries[h.job.todo[0]].existed
    ensures Inv(site, orig, Go(site, h))
  {
    RestoresCreated(site, orig, h);
    if Go(site, h) != Fail(h) { RestoreGoesOn(site, orig, h, Go(site, h).tree); }
  }

  lemma RestoreGoesOn(site: Site, orig: Tree, h: Host, tree: Tree)
    requires Inv(site, orig, h) && h.job.Restoring? && h.job.todo != []
    requires Explained(orig, h.manifest.value, tree)
    requires var d := h.job.todo[0];
             d in h.manifest.value.entries && h.manifest.value.entries[d].existed ==>
               d in orig && orig[d].File? && d in tree && tree[d] == Back(site, d, orig[d])
    requires forall p :: p in h.tree && p != h.job.todo[0] ==> p in tree && tree[p] == h.tree[p]
    ensures Inv(site, orig, h.(tree := tree, job := Restoring(h.job.todo[1..], h.job.dirs)))
  {
    RestNext(site, orig, h.manifest.value, h.tree, tree, h.job.todo);
    RestoreKept(site, orig, h, tree, h.job.todo[1..]);
  }

  lemma RemoveDirKeeps(site: Site, orig: Tree, h: Host)
    requires Inv(site, orig, h) && h.job.Restoring? && h.job.todo == [] && h.job.dirs != []
    ensures Inv(site, orig, Go(site, h))
  {
    var m, d := h.manifest.value, h.job.dirs[0];
    assert d in m.dirs;
    if Go(site, h).tree != h.tree {
      assert Go(site, h).tree == h.tree - {d};
      assert WellFormed(h.tree - {d});
    }
  }

  // --- Every run ------------------------------------------------------------------------------

  lemma EventKeeps(site: Site, orig: Tree, h: Host, e: Event)
    requires Inv(site, orig, h) && Possible(site, h, e)
    ensures Inv(site, orig, Occurs(site, h, e))
  {
    match e
    case Apply(_) =>
    case Restore(_, _) =>
    case Crash =>
    case Step =>
      match h.job {
        case Recording(payload, next, draft) =>
          if next < |payload| { RecordKeeps(site, orig, h, Go(site, h)); }
        case Writing(payload, next) =>
          if next < |payload| { WriteNextKeeps(site, orig, h); }
        case Restoring(todo, dirs) =>
          if todo != [] { RestoreFileKeeps(site, orig, h); }
          else if dirs != [] { RemoveDirKeeps(site, orig, h); }
        case _ =>
      }
  }

  lemma FollowsKeeps(site: Site, orig: Tree, h: Host, e: Event, h': Host)
    requires Inv(site, orig, h) && Follows(site, h, e, h')
    ensures Inv(site, orig, h')
  {
    EventKeeps(site, orig, h, e);
  }

  lemma InitInv(site: Site, orig: Tree)
    requires WellFormed(orig)
    ensures Inv(site, orig, Host(orig, map[], None, Idle))
  {
  }

  lemma {:induction false} RunInv(site: Site, orig: Tree, hosts: seq<Host>, events: seq<Event>, i: nat)
    requires Run(site, orig, hosts, events) && i < |hosts|
    ensures Inv(site, orig, hosts[i])
  {
    if i == 0 {
      InitInv(site, orig);
    } else {
      RunInv(site, orig, hosts, events, i - 1);
      FollowsKeeps(site, orig, hosts[i - 1], events[i - 1], hosts[i]);
    }
  }
}
