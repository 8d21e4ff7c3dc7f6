/**
 * Downloading a plugin and its package into the shared pool, and telling whether the
 * pool is up to date. The pool has two tiers: operator files shadow built-in ones.
 */
module PluginPool {
  import opened Options
  import opened Sorting
  import opened LineEndings

  /** A path relative to the pool, one name per component. */
  type Name = seq<string>
  type Tier = map<Name, string>

  predicate SegmentChar(c: char) {
    'a' <= c <= 'z' || 'A' <= c <= 'Z' || '0' <= c <= '9' || c == '_' || c == '-'
  }

  /** A bare file name: letters, digits, `_` and `-`, then `.py`. */
  predicate SafeFilename(n: Name) {
    && |n| == 1 && |n[0]| > 3 && n[0][|n[0]| - 3..] == ".py"
    && forall i :: 0 <= i < |n[0]| - 3 ==> SegmentChar(n[0][i])
  }

  /** At least one directory, every segment of safe characters and not hidden. */
  predicate SafeMember(n: Name) {
    |n| >= 2 && forall i :: 0 <= i < |n| ==> SafeSegment(n[i])
  }

  predicate SafeSegment(s: string) {
    s != "" && s[0] != '.' && forall i :: 0 <= i < |s| ==> SegmentChar(s[i]) || s[i] == '.'
  }

  /** The merged view: the operator's copy wins. */
  function Resolve(operator: Tier, builtin: Tier, n: Name): Option<string> {
    if n in operator then Some(operator[n]) else if n in builtin then Some(builtin[n]) else None
  }

  predicate SameCode(a: string, b: string) {
    NormalizeEol(a) == NormalizeEol(b)
  }

  datatype Outcome = Downloaded | Unsafe | NotServed(name: Name) | Conflict(names: seq<Name>)

  /** A member that is in the merged pool with other code. */
  predicate Differs(operator: Tier, builtin: Tier, served: Tier, n: Name) {
    var here := Resolve(operator, builtin, n);
    n in served && here.Some? && !SameCode(here.value, served[n])
  }

  /** Its code is nowhere in the merged pool yet. */
  predicate NotCurrent(operator: Tier, builtin: Tier, served: Tier, n: Name) {
    var here := Resolve(operator, builtin, n);
    n in served && (here.None? || !SameCode(here.value, served[n]))
  }

  /** What the repository offers besides the code: a sidecar that is a JSON object, and the
      metadata of the listing. */
  datatype Metadata = Metadata(sidecar: Option<string>, inline: Option<string>)

  /** The separate sidecar wins over the listing's. */
  function SidecarOf(m: Metadata): Option<string> {
    if m.sidecar.Some? then m.sidecar else m.inline
  }

  /** A stale sidecar must not linger; one next to a bundled plugin is not written at all. */
  function SidecarsAfter(sidecars: map<Name, string>, filename: Name, content: Option<string>, skip: bool): map<Name, string> {
    if skip then sidecars else if content.None? then sidecars - {filename} else sidecars[filename := content.value]
  }

  class Pool {
    const builtin: Tier
    var operator: Tier
    /** Sidecars of the operator tier, by the plugin's file name. */
    var sidecars: map<Name, string>

    constructor (builtin: Tier)
      ensures this.builtin == builtin && operator == map[] && sidecars == map[]
    {
      this.builtin, operator, sidecars := builtin, map[], map[];
    }

    /** Every sidecar of the operator tier describes a plugin of that tier. */
    ghost predicate NoOrphans()
      reads this
    {
      forall n :: n in sidecars ==> n in operator
    }

    /** download_plugin: nothing is written unless every member can be fetched and, without
        `overwrite`, none of them differs from the pool. A sidecar without its plugin is
        left exactly when `overwrite` was asked for and the code is the built-in copy's. */
    method Download(served: Tier, filename: Name, package: seq<Name>, overwrite: bool, meta: Metadata) returns (r: Outcome)
      modifies `operator, `sidecars
      ensures r.Unsafe? <==> !(SafeFilename(filename) && forall i :: 0 <= i < |package| ==> SafeMember(package[i]))
      ensures !r.Downloaded? ==> operator == old(operator) && sidecars == old(sidecars)
      ensures r.NotServed? ==> (r.name == filename || r.name in package) && r.name !in served
      ensures r.Conflict? ==> !overwrite && r.names != []
      ensures r.Conflict? ==> forall n :: n in r.names <==>
                (n == filename || n in package) && Differs(operator, builtin, served, n)
      ensures r.Downloaded? ==> forall n :: n == filename || n in package ==>
                n in served && (!overwrite ==> !Differs(old(operator), builtin, served, n))
                && Resolve(operator, builtin, n).Some? && SameCode(Resolve(operator, builtin, n).value, served[n])
      ensures forall n :: n != filename && n !in package ==>
                Resolve(operator, builtin, n) == Resolve(old(operator), builtin, n)
      ensures r.Downloaded? ==> sidecars == SidecarsAfter(old(sidecars), filename, SidecarOf(meta),
                                                          !overwrite && filename in builtin && filename !in old(operator))
      ensures old(NoOrphans()) ==>
                (NoOrphans() <==>
                 !(r.Downloaded? && overwrite && SidecarOf(meta).Some?
                   && filename !in old(operator) && !NotCurrent(old(operator), builtin, served, filename)))
    {
      if !SafeFilename(filename) || exists i :: 0 <= i < |package| && !SafeMember(package[i]) { return Unsafe; }
      var members := [filename] + package;
      var conflicts := [];
      for i := 0 to |members|
        invariant forall n :: n in members[..i] ==> n in served
        invariant forall n :: n in conflicts <==> !overwrite && n in members[..i] && Differs(operator, builtin, served, n)
      {
        var n := members[i];
        assert members[..i + 1] == members[..i] + [n];
        if n !in served { return NotServed(n); }
        var here := Resolve(operator, builtin, n);
        if here.Some? && !overwrite && !SameCode(here.value, served[n]) { conflicts := conflicts + [n]; }
      }
      assert members[..|members|] == members;
      if conflicts != [] {
        assert conflicts[0] in conflicts;
        return Conflict(conflicts);
      }
      var skip := !overwrite && filename in builtin && filename !in operator;
      assert filename == members[0];
      WriteMembers(served, members);
      if !skip { WriteSidecar(filename, SidecarOf(meta)); }
      return Downloaded;
    }

    method WriteSidecar(filename: Name, content: Option<string>)
      modifies `sidecars
      ensures sidecars == SidecarsAfter(old(sidecars), filename, content, false)
    {
      if content.None? { sidecars := sidecars - {filename}; } else { sidecars := sidecars[filename := content.value]; }
    }

    /** A member whose code is already somewhere in the merged pool is left as it is. */
    method WriteMembers(served: Tier, members: seq<Name>)
      requires forall n :: n in members ==> n in served
      modifies `operator
      ensures forall n :: n in members ==>
                Resolve(operator, builtin, n).Some? && SameCode(Resolve(operator, builtin, n).value, served[n])
      ensures forall n :: n !in members ==> Resolve(operator, builtin, n) == Resolve(old(operator), builtin, n)
      ensures forall n :: n in operator <==>
                n in old(operator) || (n in members && NotCurrent(old(operator), builtin, served, n))
    {
      for i := 0 to |members|
        invariant forall n :: n in members[..i] ==>
                    Resolve(operator, builtin, n).Some? && SameCode(Resolve(operator, builtin, n).value, served[n])
        invariant forall n :: n !in members[..i] ==> Resolve(operator, builtin, n) == Resolve(old(operator), builtin, n)
        invariant forall n :: n in operator <==>
                    n in old(operator) || (n in members[..i] && NotCurrent(old(operator), builtin, served, n))
      {
        var n := members[i];
        assert members[..i + 1] == members[..i] + [n];
        var here := Resolve(operator, builtin, n);
        if here.None? || !SameCode(here.value, served[n]) {
          operator := operator[n := served[n]];
        }
      }
      assert members[..|members|] == members;
    }
  }

  // --- Status -----------------------------------------------------------------------------

  datatype Change = Added | Modified | Removed

  datatype Row = Row(name: Name, change: Change)

  predicate RowAtMost(a: Row, b: Row) {
    PathAtMost(a.name, b.name)
  }

  predicate Same(source: map<Name, Digest>, target: map<Name, Digest>, n: Name) {
    n in source && n in target && source[n] == target[n]
  }

  function ChangeOf(source: map<Name, Digest>, target: map<Name, Digest>, n: Name): Change {
    if n !in target then Added else if n !in source then Removed else Modified
  }

  /** A row for every one of the names that is not the same on both sides. */
  function RowsOf(source: map<Name, Digest>, target: map<Name, Digest>, names: set<Name>): set<Row> {
    set n | n in names && !Same(source, target, n) :: Row(n, ChangeOf(source, target, n))
  }

  function Differences(source: map<Name, Digest>, target: map<Name, Digest>): set<Row> {
    RowsOf(source, target, source.Keys + target.Keys)
  }

  lemma OneMoreName(source: map<Name, Digest>, target: map<Name, Digest>, names: set<Name>, n: Name)
    ensures RowsOf(source, target, names + {n})
            == RowsOf(source, target, names) + if Same(source, target, n) then {} else {Row(n, ChangeOf(source, target, n))}
  {
  }

  lemma NoDifference(source: map<Name, Digest>, target: map<Name, Digest>)
    requires Differences(source, target) == {}
    ensures source == target
  {
    forall n | n in source.Keys + target.Keys ensures Same(source, target, n) {
      assert Row(n, ChangeOf(source, target, n)) !in Differences(source, target);
    }
    assert source.Keys == target.Keys;
  }

  /** diff_trees: the differences, sorted by name. */
  method DiffTrees(source: map<Name, Digest>, target: map<Name, Digest>) returns (rows: seq<Row>)
    ensures SortedOf(RowAtMost, Differences(source, target), rows)
    ensures rows == [] <==> source == target
  {
    var changes: set<Row> := {};
    var left := source.Keys;
    ghost var done: set<Name> := {};
    while left != {}
      invariant left == source.Keys - done && done <= source.Keys
      invariant changes == RowsOf(source, target, done)
    {
      var n :| n in left;
      OneMoreName(source, target, done, n);
      if n !in target { changes := changes + {Row(n, Added)}; }
      else if target[n] != source[n] { changes := changes + {Row(n, Modified)}; }
      left, done := left - {n}, done + {n};
    }
    assert done == source.Keys;
    var more := target.Keys;
    while more != {}
      invariant more <= target.Keys && source.Keys <= done && done + more == source.Keys + target.Keys
      invariant changes == RowsOf(source, target, done)
    {
      var n :| n in more;
      OneMoreName(source, target, done, n);
      if n !in source { changes := changes + {Row(n, Removed)}; }
      assert n in source ==> done + {n} == done;
      more, done := more - {n}, done + {n};
    }
    assert done == source.Keys + target.Keys;
    RowsAreOrdered();
    rows := Sort(changes, RowAtMost);
    assert rows != [] ==> rows[0] in changes;
    if changes == {} { NoDifference(source, target); }
  }

  lemma RowsAreOrdered()
    ensures TotalOrder(RowAtMost)
  {
    PathsAreOrdered();
    assert forall a: Row, b: Row :: RowAtMost(a, b) <==> PathAtMost(a.name, b.name);
  }

  datatype Status = NotInstalled | UpToDate | UpdateAvailable | Unknown

  datatype Entry = Entry(runtime: Option<string>, filename: Name, sha256: Option<Digest>, package: map<Name, Digest>)

  predicate Current(operator: Tier, builtin: Tier, n: Name, declared: Digest) {
    Resolve(operator, builtin, n).Some? && NormalizedDigest(Resolve(operator, builtin, n).value) == declared
  }

  /** The entry names one of the runtimes there are. */
  predicate Placed(runtimes: set<string>, entry: Entry) {
    entry.runtime.Some? && entry.runtime.value in runtimes
  }

  /** plugin_update_status; the tiers are those of the entry's runtime. */
  method UpdateStatus(runtimes: set<string>, operator: Tier, builtin: Tier, entry: Entry) returns (status: Status)
    ensures var here := Resolve(operator, builtin, entry.filename);
            && (status == NotInstalled <==> Placed(runtimes, entry) && here.None?)
            && (status == UpToDate <==>
                  Placed(runtimes, entry) && here.Some? && (entry.sha256.Some? || entry.package != map[])
                  && (entry.sha256.Some? ==> Current(operator, builtin, entry.filename, entry.sha256.value))
                  && forall n :: n in entry.package ==> Current(operator, builtin, n, entry.package[n]))
            && (status == Unknown <==>
                  !Placed(runtimes, entry) || (here.Some? && entry.sha256.None? && entry.package == map[]))
  {
    if !Placed(runtimes, entry) { return Unknown; }
    var main := Resolve(operator, builtin, entry.filename);
    if main.None? { return NotInstalled; }
    if entry.sha256.None? && entry.package == map[] { return Unknown; }
    if entry.sha256.Some? && NormalizedDigest(main.value) != entry.sha256.value { return UpdateAvailable; }
    var local := map n | n in entry.package && Resolve(operator, builtin, n).Some? ::
                   NormalizedDigest(Resolve(operator, builtin, n).value);
    var changes := DiffTrees(entry.package, local);
    if changes != [] { return UpdateAvailable; }
    return UpToDate;
  }

  /** What the manifest declares are the digests of what the repository serves. */
  predicate Honest(served: Tier, entry: Entry) {
    && (entry.sha256.Some? ==> entry.filename in served && entry.sha256.value == NormalizedDigest(served[entry.filename]))
    && (forall n :: n in entry.package ==> n in served && entry.package[n] == NormalizedDigest(served[n]))
  }

  /** After a download that was not refused the entry is up to date, when its manifest is
      honest and declares anything to compare. */
  method DownloadThenStatus(pool: Pool, runtimes: set<string>, served: Tier, entry: Entry, package: seq<Name>,
                            overwrite: bool, meta: Metadata)
    returns (r: Outcome, status: Status)
    requires Honest(served, entry) && (forall n :: n in package <==> n in entry.package)
    modifies pool`operator, pool`sidecars
    ensures r.Downloaded? && Placed(runtimes, entry) && (entry.sha256.Some? || entry.package != map[]) ==> status == UpToDate
    ensures !r.Downloaded? ==> pool.operator == old(pool.operator)
  {
    r := pool.Download(served, entry.filename, package, overwrite, meta);
    status := UpdateStatus(runtimes, pool.operator, pool.builtin, entry);
  }
}
