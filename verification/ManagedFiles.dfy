/**
 * Installing files on a host and putting everything back: an inventory of what a
 * destination was before it was first written, backups of the originals, an apply
 * that may be cut off between any two durable operations and a restore that may be
 * cut off too. One step is one durable operation.
 */
module ManagedFiles {
  import opened Options

  /** A normalized absolute path, one name per component. */
  type Path = seq<string>
  type Byte = n: nat | n < 256
  type Bytes = seq<Byte>

  datatype Node = Dir | File(bytes: Bytes, mode: nat, links: nat) | Special

  type Tree = map<Path, Node>

  datatype Digest = Sha(of: Bytes)

  /** The instance directory and the extra destinations (systemd units). */
  datatype Site = Site(qlds: Path, units: set<Path>)

  /** An inventory entry; the last three fields mean something only when the
      destination existed. */
  datatype Entry = Entry(existed: bool, written: Digest, digest: Digest, mode: nat, backup: nat)

  datatype Manifest = Manifest(entries: map<Path, Entry>, dirs: seq<Path>)

  datatype Item = Item(dest: Path, data: Bytes, mode: nat)

  datatype Job =
    | Idle
    | Failed                       // refused, or an operation failed half-way
    | Applied
    | Restored
    | Recording(payload: seq<Item>, next: nat, draft: Manifest)
    | Writing(payload: seq<Item>, next: nat)
    | Restoring(todo: seq<Path>, dirs: seq<Path>)

  /** `backups` is the operation's files directory, which is outside the tree. */
  datatype Host = Host(tree: Tree, backups: map<nat, Bytes>, manifest: Option<Manifest>, job: Job)

  const SIX_DIGITS: nat := 1000000

  const UNIT_MODE: nat := 0x1a4  // 0o644

  predicate Inside(p: Path, dir: Path) { dir < p }

  predicate Allowed(site: Site, dest: Path) {
    dest in site.units || Inside(dest, site.qlds)
  }

  function Parent(p: Path): Path
    requires p != []
  {
    p[..|p| - 1]
  }

  /** The length of the path's text, a slash before every name. */
  function Length(p: Path): nat {
    if p == [] then 0 else Length(Parent(p)) + 1 + |p[|p| - 1]|
  }

  function ModeFor(site: Site, dest: Path, mode: nat): nat {
    if dest in site.units then UNIT_MODE else mode % 512
  }

  // --- Looking and writing, no link followed ------------------------------------------

  datatype Look = Absent | Found(node: Node) | Blocked

  /** _lstat: a parent that is there but is no directory is a refusal. */
  function Lstat(tree: Tree, p: Path): Look {
    if p != [] && Parent(p) in tree && !tree[Parent(p)].Dir? then Blocked
    else if p in tree && (p == [] || Parent(p) in tree) then Found(tree[p])
    else Absent
  }

  /** The shortest ancestor of p, from p[..k] on, that is not a directory. */
  function FirstGap(tree: Tree, p: Path, k: nat): (g: Option<nat>)
    requires k <= |p|
    ensures g.None? ==> forall j :: k <= j < |p| ==> p[..j] in tree && tree[p[..j]].Dir?
    ensures g.Some? ==> k <= g.value < |p| && !(p[..g.value] in tree && tree[p[..g.value]].Dir?)
    decreases |p| - k
  {
    if k == |p| then None
    else if p[..k] in tree && tree[p[..k]].Dir? then FirstGap(tree, p, k + 1)
    else Some(k)
  }

  datatype Effect = Made(tree: Tree) | Wrote(tree: Tree) | Refused

  /** The next durable operation of _write_file: one missing directory strictly inside
      the instance directory, or the rename of the new file over dest. */
  function Write(site: Site, tree: Tree, dest: Path, node: Node): Effect {
    match FirstGap(tree, dest, 0)
    case Some(k) =>
      if dest[..k] !in tree && Inside(dest[..k], site.qlds) then Made(tree[dest[..k] := Dir]) else Refused
    case None =>
      if dest in tree && tree[dest].Dir? then Refused else Wrote(tree[dest := node])
  }

  /** The missing directories above a destination, inside the instance directory,
      outermost first; None when a parent is no directory. */
  function Missing(site: Site, tree: Tree, dir: Path): Option<seq<Path>>
    decreases |dir|
  {
    if !Inside(dir, site.qlds) then Some([])
    else
      match Lstat(tree, dir)
      case Blocked => None
      case Found(_) => Some([])
      case Absent =>
        var above := Missing(site, tree, Parent(dir));
        if above.None? then None else Some(above.value + [dir])
  }

  function Adding(known: seq<Path>, more: seq<Path>): (r: seq<Path>)
    ensures forall d :: d in r <==> d in known || d in more
    decreases |more|
  {
    if more == [] then known
    else Adding(if more[0] in known then known else known + [more[0]], more[1..])
  }

  // --- Apply ------------------------------------------------------------------------

  const NOTHING: Manifest := Manifest(map[], [])

  function Inventory(h: Host): Manifest {
    if h.manifest.Some? then h.manifest.value else NOTHING
  }

  function StartApply(h: Host, payload: seq<Item>, record: bool): Host {
    h.(job := if record then Recording(payload, 0, Inventory(h)) else Writing(payload, 0))
  }

  function Fail(h: Host): Host {
    h.(job := Failed)
  }

  /** One payload item enters the draft inventory; an original is copied aside first. */
  function Record(site: Site, h: Host, payload: seq<Item>, next: nat, draft: Manifest): Host
    requires next < |payload|
  {
    var dest, sha := payload[next].dest, Sha(payload[next].data);
    if dest == [] then Fail(h)
    else
      var missing := Missing(site, h.tree, Parent(dest));
      if missing.None? then Fail(h)
      else
        var dirs := Adding(draft.dirs, missing.value);
        if dest in draft.entries then
          h.(job := Recording(payload, next + 1,
               Manifest(draft.entries[dest := draft.entries[dest].(written := sha)], dirs)))
        else
          match Lstat(h.tree, dest)
          case Blocked => Fail(h)
          case Absent =>
            var entry := Entry(false, sha, sha, 0, 0);
            h.(job := Recording(payload, next + 1, Manifest(draft.entries[dest := entry], dirs)))
          case Found(node) =>
            if !node.File? || node.links != 1 then Fail(h)
            else
              var index := |draft.entries|;
              var entry := Entry(true, sha, Sha(node.bytes), node.mode % 512, index);
              h.(backups := h.backups[index := node.bytes],
                 job := Recording(payload, next + 1, Manifest(draft.entries[dest := entry], dirs)))
  }

  function WriteNext(site: Site, h: Host, payload: seq<Item>, next: nat): Host
    requires next < |payload|
  {
    var item := payload[next];
    match Write(site, h.tree, item.dest, File(item.data, ModeFor(site, item.dest, item.mode), 1))
    case Made(tree) => h.(tree := tree)
    case Wrote(tree) => h.(tree := tree, job := Writing(payload, next + 1))
    case Refused => Fail(h)
  }

  // --- Restore ----------------------------------------------------------------------

  /** The checks made before anything changes; a backup name has exactly six digits. */
  predicate Acceptable(site: Site, m: Manifest) {
    && (forall d :: d in m.entries ==>
          Allowed(site, d) && (m.entries[d].existed ==> m.entries[d].backup < SIX_DIGITS))
    && (forall i :: 0 <= i < |m.dirs| ==> Inside(m.dirs[i], site.qlds))
  }

  function StartRestore(site: Site, h: Host, todo: seq<Path>, dirs: seq<Path>): Host {
    if h.manifest.None? then h.(job := Restored)
    else if !Acceptable(site, h.manifest.value) then Fail(h)
    else h.(job := Restoring(todo, dirs))
  }

  function RestoreFile(site: Site, h: Host, e: Entry, todo: seq<Path>, dirs: seq<Path>): Host
    requires todo != []
  {
    var dest := todo[0];
    if e.existed then
      if e.backup !in h.backups || Sha(h.backups[e.backup]) != e.digest then Fail(h)
      else
        match Write(site, h.tree, dest, File(h.backups[e.backup], ModeFor(site, dest, e.mode), 1))
        case Made(tree) => h.(tree := tree)
        case Wrote(tree) => h.(tree := tree, job := Restoring(todo[1..], dirs))
        case Refused => Fail(h)
    else
      match Lstat(h.tree, dest)
      case Blocked => Fail(h)
      case Absent => h.(job := Restoring(todo[1..], dirs))
      case Found(node) =>
        if node.File? && node.links == 1 && Sha(node.bytes) == e.written
        then h.(tree := h.tree - {dest}, job := Restoring(todo[1..], dirs))
        else h.(job := Restoring(todo[1..], dirs))  // kept: changed since it was written
  }

  predicate Empty(tree: Tree, dir: Path) {
    forall p :: p in tree ==> !Inside(p, dir)
  }

  function RemoveDir(h: Host, dirs: seq<Path>): Host
    requires dirs != []
  {
    if dirs[0] in h.tree && h.tree[dirs[0]].Dir? && Empty(h.tree, dirs[0])
    then h.(tree := h.tree - {dirs[0]}, job := Restoring([], dirs[1..]))
    else h.(job := Restoring([], dirs[1..]))
  }

  // --- Runs ----------------------------------------------------------------------------

  /** The next durable operation of the job that is going on. */
  function Go(site: Site, h: Host): Host {
    match h.job
    case Recording(payload, next, draft) =>
      if next < |payload| then Record(site, h, payload, next, draft)
      else h.(manifest := Some(draft), job := Writing(payload, 0))
    case Writing(payload, next) =>
      if next < |payload| then WriteNext(site, h, payload, next) else h.(job := Applied)
    case Restoring(todo, dirs) =>
      if todo != [] then
        if h.manifest.Some? && todo[0] in h.manifest.value.entries
        then RestoreFile(site, h, h.manifest.value.entries[todo[0]], todo, dirs)
        else Fail(h)
      else if dirs != [] then RemoveDir(h, dirs)
      else h.(job := Restored)
    case _ => h
  }

  predicate Working(job: Job) {
    job.Recording? || job.Writing? || job.Restoring?
  }

  datatype Event =
    | Apply(payload: seq<Item>)                       // a recorded apply begins
    | Restore(todo: seq<Path>, dirs: seq<Path>)       // a restore begins
    | Step
    | Crash

  ghost predicate Distinct(payload: seq<Item>) {
    forall i, j :: 0 <= i < j < |payload| ==> payload[i].dest != payload[j].dest
  }

  /** Entries in an order that puts a path before whatever lies below it, as sorting
      by path does. */
  ghost predicate InOrder(todo: seq<Path>) {
    forall i, j :: 0 <= i < j < |todo| ==> !Inside(todo[i], todo[j])
  }

  ghost predicate LongestFirst(dirs: seq<Path>) {
    forall i, j :: 0 <= i < j < |dirs| ==> Length(dirs[i]) >= Length(dirs[j])
  }

  ghost predicate Possible(site: Site, h: Host, e: Event) {
    match e
    case Apply(payload) =>
      && !Working(h.job) && Distinct(payload)
      && (forall i :: 0 <= i < |payload| ==> Allowed(site, payload[i].dest))
    case Restore(todo, dirs) =>
      && !Working(h.job)
      && InOrder(todo) && (forall d :: d in todo <==> d in Inventory(h).entries)
      && LongestFirst(dirs) && (forall d :: d in dirs <==> d in Inventory(h).dirs)
    case Step => Working(h.job)
    case Crash => true
  }

  ghost function Occurs(site: Site, h: Host, e: Event): Host {
    match e
    case Apply(payload) => StartApply(h, payload, true)
    case Restore(todo, dirs) => StartRestore(site, h, todo, dirs)
    case Step => Go(site, h)
    case Crash => h.(job := Idle)
  }

  /** Directories are exactly what has something below it. */
  ghost predicate WellFormed(tree: Tree) {
    && [] in tree && tree[[]].Dir?
    && forall p, q :: p in tree && Inside(p, q) ==> q in tree && tree[q].Dir?
  }

  ghost predicate Follows(site: Site, h: Host, e: Event, h': Host) {
    Possible(site, h, e) && h' == Occurs(site, h, e)
  }

  ghost predicate Run(site: Site, orig: Tree, hosts: seq<Host>, events: seq<Event>) {
    && |hosts| == |events| + 1 && hosts[0] == Host(orig, map[], None, Idle) && WellFormed(orig)
    && forall i {:trigger events[i]} :: 0 <= i < |events| ==> Follows(site, hosts[i], events[i], hosts[i + 1])
  }

  // --- What every state keeps ------------------------------------------------------------

  /** Every original is kept aside, under an index of its own. */
  ghost predicate Originals(site: Site, orig: Tree, m: Manifest, backups: map<nat, Bytes>) {
    && (forall d :: d in m.entries ==> Kept(site, orig, d, m.entries[d], |m.entries|, backups))
    && (forall d, e :: d in m.entries && e in m.entries && d != e && m.entries[d].existed && m.entries[e].existed ==>
          m.entries[d].backup != m.entries[e].backup)
    && (forall d :: d in m.dirs ==> d !in orig && Inside(d, site.qlds))
  }

  ghost predicate Kept(site: Site, orig: Tree, d: Path, e: Entry, size: nat, backups: map<nat, Bytes>) {
    && d != [] && Allowed(site, d)
    && (Parent(d) in orig ==> orig[Parent(d)].Dir?)
    && if e.existed then
         && d in orig && orig[d].File? && orig[d].links == 1
         && e.backup < size && e.backup in backups && backups[e.backup] == orig[d].bytes
         && e.digest == Sha(orig[d].bytes) && e.mode == orig[d].mode % 512
       else d !in orig
  }

  /** The tree differs from the original one only where the inventory says so. */
  ghost predicate Explained(orig: Tree, m: Manifest, tree: Tree) {
    && WellFormed(tree)
    && (forall p :: p in orig ==>
          p in tree && if p in m.entries && m.entries[p].existed then tree[p].File? else tree[p] == orig[p])
    && (forall p :: p in tree && p !in orig ==>
          || (p in m.dirs && tree[p].Dir?)
          || (p in m.entries && tree[p].File?))
  }

  /** All directories a write of dest may have to make are in the inventory. */
  ghost predicate Prepared(site: Site, m: Manifest, tree: Tree, dest: Path) {
    && dest in m.entries
    && forall q :: Inside(dest, q) && Inside(q, site.qlds) ==> q in tree || q in m.dirs
  }

  /** What restore makes of a destination that existed. */
  function Back(site: Site, d: Path, was: Node): Node
    requires was.File?
  {
    File(was.bytes, ModeFor(site, d, was.mode), 1)
  }

  ghost predicate JobOk(site: Site, orig: Tree, h: Host) {
    match h.job
    case Recording(payload, next, draft) =>
      && next <= |payload|
      && Distinct(payload) && (forall i :: 0 <= i < |payload| ==> Allowed(site, payload[i].dest))
      && Extends(Inventory(h), draft)
      && Originals(site, orig, draft, h.backups) && Explained(orig, draft, h.tree)
      && (forall i :: 0 <= i < next ==> Prepared(site, draft, h.tree, payload[i].dest))
    case Writing(payload, next) =>
      && next <= |payload|
      && (forall i :: 0 <= i < |payload| ==> Prepared(site, Inventory(h), h.tree, payload[i].dest))
    case Restoring(todo, dirs) =>
      && h.manifest.Some? && InOrder(todo) && LongestFirst(dirs)
      && (forall d :: d in todo ==> d in h.manifest.value.entries)
      && (forall d :: d in dirs ==> d in h.manifest.value.dirs)
      && BackAgain(site, orig, h.manifest.value, h.tree, todo)
    case Restored => BackAgain(site, orig, Inventory(h), h.tree, [])
    case _ => true
  }

  /** All an entry says about the original. */
  predicate SameOriginal(e: Entry, f: Entry) {
    e.existed == f.existed && e.digest == f.digest && e.mode == f.mode && e.backup == f.backup
  }

  ghost predicate Extends(m: Manifest, draft: Manifest) {
    && m.entries.Keys <= draft.entries.Keys
    && (forall d :: d in m.entries ==> SameOriginal(m.entries[d], draft.entries[d]))
    && (forall d :: d in m.dirs ==> d in draft.dirs)
  }

  /** Every destination that existed, except those still to do, is as it was. */
  ghost predicate BackAgain(site: Site, orig: Tree, m: Manifest, tree: Tree, todo: seq<Path>) {
    forall d :: d in m.entries && m.entries[d].existed && d !in todo ==>
      d in orig && orig[d].File? && d in tree && tree[d] == Back(site, d, orig[d])
  }

  ghost predicate Inv(site: Site, orig: Tree, h: Host) {
    && WellFormed(orig)
    && Originals(site, orig, Inventory(h), h.backups)
    && Explained(orig, Inventory(h), h.tree)
    && JobOk(site, orig, h)
  }
}
