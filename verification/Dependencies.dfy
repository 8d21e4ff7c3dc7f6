/**
 * A repository's plugins and the files they depend on: which entries are only helpers,
 * and the batch to download for a selection, dependencies first. Cycles are allowed.
 */
module Dependencies {
  type Name = string

  datatype Entry = Entry(filename: Name, dependsOn: seq<Name>)

  /** Entries by filename; a later entry replaces an earlier one of the same name. */
  function ByName(plugins: seq<Entry>): (m: map<Name, seq<Name>>)
    ensures forall n :: n in m <==> exists i :: 0 <= i < |plugins| && plugins[i].filename == n
  {
    if plugins == [] then map[]
    else
      var last := plugins[|plugins| - 1];
      ByName(plugins[..|plugins| - 1])[last.filename := last.dependsOn]
  }

  /** a declares b, and both are published. */
  predicate Edge(m: map<Name, seq<Name>>, a: Name, b: Name) {
    a in m && b in m && a != b && b in m[a]
  }

  ghost predicate Path(m: map<Name, seq<Name>>, p: seq<Name>) {
    p != [] && forall i :: 0 <= i < |p| - 1 ==> Edge(m, p[i], p[i + 1])
  }

  ghost predicate PathBetween(m: map<Name, seq<Name>>, p: seq<Name>, a: Name, b: Name) {
    Path(m, p) && p[0] == a && p[|p| - 1] == b
  }

  /** b is a, or what a needs directly or through others. */
  ghost predicate Needs(m: map<Name, seq<Name>>, a: Name, b: Name) {
    exists p :: PathBetween(m, p, a, b)
  }

  lemma NeedsSelf(m: map<Name, seq<Name>>, a: Name)
    ensures Needs(m, a, a)
  {
    assert PathBetween(m, [a], a, a);
  }

  lemma NeedsMore(m: map<Name, seq<Name>>, a: Name, b: Name, c: Name)
    requires Needs(m, a, b) && Edge(m, b, c)
    ensures Needs(m, a, c)
  {
    var p :| PathBetween(m, p, a, b);
    assert PathBetween(m, p + [c], a, c);
  }

  /** Whatever holds of a and follows edges holds of all that a needs. */
  lemma {:induction false} ClosedUnderNeeds(m: map<Name, seq<Name>>, closed: set<Name>, p: seq<Name>)
    requires Path(m, p) && p[0] in closed
    requires forall a, b :: a in closed && Edge(m, a, b) ==> b in closed
    ensures p[|p| - 1] in closed
    decreases |p|
  {
    if |p| > 1 {
      assert Edge(m, p[0], p[1]);
      ClosedUnderNeeds(m, closed, p[1..]);
    }
  }

  /** A node on the stack needs every node above it. */
  lemma StackNeeds(m: map<Name, seq<Name>>, stack: seq<Name>, i: nat)
    requires Path(m, stack) && i < |stack|
    ensures Needs(m, stack[i], stack[|stack| - 1])
  {
    var p := stack[i..];
    forall j | 0 <= j < |p| - 1 ensures Edge(m, p[j], p[j + 1]) {
      assert Edge(m, stack[i + j], stack[i + j + 1]);
    }
    assert PathBetween(m, p, stack[i], stack[|stack| - 1]);
  }

  ghost predicate NoRepeats(s: seq<Name>) {
    forall i, j :: 0 <= i < j < |s| ==> s[i] != s[j]
  }

  /** Where each entry's dependencies are: earlier, or on a cycle with it. */
  ghost predicate InOrder(m: map<Name, seq<Name>>, ordered: seq<Name>) {
    forall i, b :: 0 <= i < |ordered| && Edge(m, ordered[i], b) ==> b in ordered[..i] || Needs(m, b, ordered[i])
  }

  /** What the search keeps; `stack` is the chain of calls. */
  ghost predicate Searching(m: map<Name, seq<Name>>, ordered: seq<Name>, stack: seq<Name>, pulledBy: map<Name, Name>) {
    && NoRepeats(ordered) && NoRepeats(stack) && (stack == [] || Path(m, stack))
    && (forall x :: x in ordered ==> x !in stack)
    && InOrder(m, ordered)
    && (forall a, b :: a in ordered && Edge(m, a, b) ==> (b in ordered || b in stack) && b in pulledBy)
    && (forall b :: b in pulledBy ==> Edge(m, pulledBy[b], b) && (pulledBy[b] in ordered || pulledBy[b] in stack))
  }

  class Search {
    const byName: map<Name, seq<Name>>
    var ordered: seq<Name>
    var pulledBy: map<Name, Name>
    var visiting: set<Name>

    constructor (byName: map<Name, seq<Name>>)
      ensures this.byName == byName && ordered == [] && pulledBy == map[] && visiting == {}
    {
      this.byName, ordered, pulledBy, visiting := byName, [], map[], {};
    }

    /** One dependency of the name on top of the stack. */
    method Follow(name: Name, dep: Name, ghost path: seq<Name>, ghost all: set<Name>)
      requires visiting == (set x | x in path) && path != [] && path[|path| - 1] == name
      requires Searching(byName, ordered, path, pulledBy)
      requires byName.Keys <= all && name in byName && dep in byName[name]
      modifies `ordered, `pulledBy, `visiting
      ensures visiting == old(visiting)
      ensures Searching(byName, ordered, path, pulledBy)
      ensures Edge(byName, name, dep) ==> (dep in ordered || dep in path) && dep in pulledBy
      ensures |old(ordered)| <= |ordered| && ordered[..|old(ordered)|] == old(ordered)
      ensures forall x :: x in ordered ==> x in old(ordered) || Needs(byName, name, x)
      ensures old(pulledBy).Keys <= pulledBy.Keys
      decreases all - visiting, 1
    {
      if dep in byName && dep != name {
        assert Edge(byName, name, dep);
        if dep !in pulledBy { pulledBy := pulledBy[dep := name]; }
        Visit(dep, path, all);
        NeedsThrough(byName, name, dep, ordered, old(ordered));
      }
    }

    /** Every selected name in turn, from an empty stack. */
    method VisitSelected(selected: seq<Name>, ghost all: set<Name>)
      requires visiting == {} && ordered == [] && pulledBy == map[]
      requires byName.Keys <= all && (forall x :: x in selected ==> x in all)
      modifies `ordered, `pulledBy, `visiting
      ensures Searching(byName, ordered, [], pulledBy)
      ensures forall x :: x in selected ==> x in ordered
      ensures forall x :: x in ordered ==> Wanted(byName, selected, x)
    {
      for i := 0 to |selected|
        invariant visiting == {} && Searching(byName, ordered, [], pulledBy)
        invariant forall x :: x in selected[..i] ==> x in ordered
        invariant forall x :: x in ordered ==> Wanted(byName, selected, x)
      {
        ghost var before := ordered;
        Visit(selected[i], [], all);
        assert selected[..i + 1] == selected[..i] + [selected[i]];
        forall x | x in ordered ensures Wanted(byName, selected, x) {
          if x !in before { assert Needs(byName, selected[i], x); }
        }
        PrefixStays(before, ordered);
      }
      assert selected[..|selected|] == selected;
    }

    /** The nested `visit` of expand_with_dependencies. */
    method Visit(name: Name, ghost stack: seq<Name>, ghost all: set<Name>)
      requires visiting == (set x | x in stack)
      requires Searching(byName, ordered, stack, pulledBy)
      requires stack == [] || Edge(byName, stack[|stack| - 1], name)
      requires byName.Keys <= all && name in all
      modifies `ordered, `pulledBy, `visiting
      ensures visiting == old(visiting)
      ensures Searching(byName, ordered, stack, pulledBy)
      ensures name in ordered || name in stack
      ensures |old(ordered)| <= |ordered| && ordered[..|old(ordered)|] == old(ordered)
      ensures forall x :: x in ordered ==> x in old(ordered) || Needs(byName, name, x)
      ensures old(pulledBy).Keys <= pulledBy.Keys
      decreases all - visiting, 0
    {
      if name in ordered || name in visiting { return; }
      visiting := visiting + {name};
      PushKeeps(byName, ordered, stack, pulledBy, name);
      NeedsSelf(byName, name);
      if name in byName { VisitAll(name, stack + [name], all); }
      visiting := visiting - {name};
      PopKeeps(byName, ordered, stack, pulledBy, name);
      ordered := ordered + [name];
    }

    /** All dependencies of the name on top of the stack, in order. */
    method VisitAll(name: Name, ghost path: seq<Name>, ghost all: set<Name>)
      requires visiting == (set x | x in path) && path != [] && path[|path| - 1] == name
      requires Searching(byName, ordered, path, pulledBy)
      requires byName.Keys <= all && name in byName
      modifies `ordered, `pulledBy, `visiting
      ensures visiting == old(visiting)
      ensures Searching(byName, ordered, path, pulledBy)
      ensures forall b :: Edge(byName, name, b) ==> (b in ordered || b in path) && b in pulledBy
      ensures |old(ordered)| <= |ordered| && ordered[..|old(ordered)|] == old(ordered)
      ensures forall x :: x in ordered ==> x in old(ordered) || Needs(byName, name, x)
      ensures old(pulledBy).Keys <= pulledBy.Keys
      decreases all - visiting, 2
    {
      var deps := byName[name];
      for i := 0 to |deps|
        invariant visiting == old(visiting) && Searching(byName, ordered, path, pulledBy)
        invariant |old(ordered)| <= |ordered| && ordered[..|old(ordered)|] == old(ordered)
        invariant forall x :: x in ordered ==> x in old(ordered) || Needs(byName, name, x)
        invariant forall j :: 0 <= j < i && Edge(byName, name, deps[j]) ==>
                    (deps[j] in ordered || deps[j] in path) && deps[j] in pulledBy
        invariant old(pulledBy).Keys <= pulledBy.Keys
      {
        ghost var before := ordered;
        Follow(name, deps[i], path, all);
        PrefixStays(before, ordered);
      }
    }
  }

  lemma PrefixStays(before: seq<Name>, after: seq<Name>)
    requires |before| <= |after| && after[..|before|] == before
    ensures forall x :: x in before ==> x in after
  {
    assert forall x :: x in after[..|before|] ==> x in after;
  }

  lemma PushKeeps(m: map<Name, seq<Name>>, ordered: seq<Name>, stack: seq<Name>, pulledBy: map<Name, Name>, name: Name)
    requires Searching(m, ordered, stack, pulledBy) && name !in ordered && name !in stack
    requires stack == [] || Edge(m, stack[|stack| - 1], name)
    ensures Searching(m, ordered, stack + [name], pulledBy)
  {
    var path := stack + [name];
    forall i | 0 <= i < |path| - 1 ensures Edge(m, path[i], path[i + 1]) {
      if i < |stack| - 1 { assert Edge(m, stack[i], stack[i + 1]); }
    }
  }

  /** What a dependency needs, its dependent needs. */
  lemma NeedsThrough(m: map<Name, seq<Name>>, name: Name, dep: Name, ordered: seq<Name>, before: seq<Name>)
    requires Edge(m, name, dep)
    requires forall x :: x in ordered ==> x in before || Needs(m, dep, x)
    ensures forall x :: x in ordered ==> x in before || Needs(m, name, x)
  {
    forall x | x in ordered && x !in before ensures Needs(m, name, x) {
      var p :| PathBetween(m, p, dep, x);
      assert PathBetween(m, [name] + p, name, x);
    }
  }

  lemma PopKeeps(m: map<Name, seq<Name>>, ordered: seq<Name>, stack: seq<Name>, pulledBy: map<Name, Name>, name: Name)
    requires name !in stack && name !in ordered && Searching(m, ordered, stack + [name], pulledBy)
    requires forall b :: Edge(m, name, b) ==> (b in ordered || b in stack + [name]) && b in pulledBy
    ensures Searching(m, ordered + [name], stack, pulledBy)
  {
    var path, done := stack + [name], ordered + [name];
    forall i | 0 <= i < |stack| - 1 ensures Edge(m, stack[i], stack[i + 1]) {
      assert Edge(m, path[i], path[i + 1]);
    }
    assert forall x :: x in stack ==> x in path;
    assert forall i :: 0 <= i < |stack| ==> stack[i] == path[i];
    forall i, b | 0 <= i < |done| && Edge(m, done[i], b) ensures b in done[..i] || Needs(m, b, done[i]) {
      if i < |ordered| {
        assert done[..i] == ordered[..i];
      } else if b in ordered {
        assert done[..i] == ordered;
      } else {
        var k :| 0 <= k < |path| && path[k] == b;
        StackNeeds(m, path, k);
      }
    }
  }

  // --- The batch -----------------------------------------------------------------------

  /** The names a batch must hold: the selection and all it needs. */
  ghost predicate Wanted(m: map<Name, seq<Name>>, selected: seq<Name>, x: Name) {
    exists s :: s in selected && Needs(m, s, x)
  }

  /** Returns the batch in order, and for every name that was added the entry that first
      declared it. Terminates on any manifest. */
  method ExpandWithDependencies(plugins: seq<Entry>, selected: seq<Name>)
    returns (ordered: seq<Name>, pulledBy: map<Name, Name>)
    ensures NoRepeats(ordered)
    ensures forall x :: x in ordered <==> Wanted(ByName(plugins), selected, x)
    ensures forall i, j :: 0 <= i < j < |ordered| && Edge(ByName(plugins), ordered[i], ordered[j]) ==>
              Needs(ByName(plugins), ordered[j], ordered[i])
    ensures forall x :: x in pulledBy <==> x in ordered && x !in selected
    ensures forall x :: x in pulledBy ==> pulledBy[x] in ordered && Edge(ByName(plugins), pulledBy[x], x)
  {
    var m := ByName(plugins);
    var search := new Search(m);
    ghost var all := m.Keys + (set s | s in selected);
    search.VisitSelected(selected, all);
    ordered, pulledBy := search.ordered, search.pulledBy;
    BatchIsWanted(m, selected, ordered);
    CyclesOnly(m, ordered);
    pulledBy := DropSelected(pulledBy, selected);
    AddedArePulled(m, selected, ordered, pulledBy);
  }

  method DropSelected(pulled: map<Name, Name>, selected: seq<Name>) returns (left: map<Name, Name>)
    ensures forall x :: x in left <==> x in pulled && x !in selected
    ensures forall x :: x in left ==> left[x] == pulled[x]
  {
    left := pulled;
    for i := 0 to |selected|
      invariant forall x :: x in left <==> x in pulled && x !in selected[..i]
      invariant forall x :: x in left ==> left[x] == pulled[x]
    {
      left := left - {selected[i]};
      assert selected[..i + 1] == selected[..i] + [selected[i]];
    }
    assert selected[..|selected|] == selected;
  }

  lemma BatchIsWanted(m: map<Name, seq<Name>>, selected: seq<Name>, ordered: seq<Name>)
    requires forall x :: x in selected ==> x in ordered
    requires forall x :: x in ordered ==> Wanted(m, selected, x)
    requires forall a, b :: a in ordered && Edge(m, a, b) ==> b in ordered
    ensures forall x :: x in ordered <==> Wanted(m, selected, x)
  {
    var closed := set x | x in ordered;
    forall x | Wanted(m, selected, x) ensures x in ordered {
      var s :| s in selected && Needs(m, s, x);
      var p :| PathBetween(m, p, s, x);
      ClosedUnderNeeds(m, closed, p);
    }
  }

  /** A dependency that comes after its dependent is on a cycle with it. */
  lemma CyclesOnly(m: map<Name, seq<Name>>, ordered: seq<Name>)
    requires NoRepeats(ordered) && InOrder(m, ordered)
    ensures forall i, j :: 0 <= i < j < |ordered| && Edge(m, ordered[i], ordered[j]) ==> Needs(m, ordered[j], ordered[i])
  {
    forall i, j | 0 <= i < j < |ordered| && Edge(m, ordered[i], ordered[j]) ensures Needs(m, ordered[j], ordered[i]) {
      assert ordered[j] !in ordered[..i];
    }
  }

  lemma AddedArePulled(m: map<Name, seq<Name>>, selected: seq<Name>, ordered: seq<Name>, pulledBy: map<Name, Name>)
    requires forall x :: x in ordered <==> Wanted(m, selected, x)
    requires forall a, b :: a in ordered && Edge(m, a, b) && b !in selected ==> b in pulledBy
    requires forall b :: b in pulledBy ==> Edge(m, pulledBy[b], b) && pulledBy[b] in ordered && b !in selected
    ensures forall x :: x in pulledBy <==> x in ordered && x !in selected
  {
    forall x | x in pulledBy ensures x in ordered {
      var s :| s in selected && Needs(m, s, pulledBy[x]);
      NeedsMore(m, s, pulledBy[x], x);
    }
    forall x | x in ordered && x !in selected ensures x in pulledBy {
      var s :| s in selected && Needs(m, s, x);
      var p :| PathBetween(m, p, s, x);
      var before := p[|p| - 2];
      assert Edge(m, p[|p| - 2], p[|p| - 1]);
      assert PathBetween(m, p[..|p| - 1], s, before) by {
        assert forall i :: 0 <= i < |p| - 2 ==> Edge(m, p[i], p[i + 1]);
      }
    }
  }

  /** Names some other published entry declares, and that are published themselves. */
  method DependencyFilenames(plugins: seq<Entry>) returns (deps: set<Name>)
    ensures forall n :: n in deps <==>
              n in ByName(plugins)
              && exists i :: 0 <= i < |plugins| && plugins[i].filename != n && n in plugins[i].dependsOn
  {
    var known := ByName(plugins).Keys;
    deps := {};
    for i := 0 to |plugins|
      invariant forall n :: n in deps <==>
                  n in known && exists k :: 0 <= k < i && plugins[k].filename != n && n in plugins[k].dependsOn
    {
      var entry := plugins[i];
      ghost var before := deps;
      for j := 0 to |entry.dependsOn|
        invariant forall n :: n in deps <==>
                    n in before || (n in known && n != entry.filename && n in entry.dependsOn[..j])
      {
        var name := entry.dependsOn[j];
        if name in known && name != entry.filename { deps := deps + {name}; }
        assert entry.dependsOn[..j + 1] == entry.dependsOn[..j] + [name];
      }
      assert entry.dependsOn[..|entry.dependsOn|] == entry.dependsOn;
    }
  }
}
