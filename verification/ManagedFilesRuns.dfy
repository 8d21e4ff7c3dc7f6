/** Runs that show where apply and restore do not bring everything back. */
module ManagedFilesRuns {
  import opened Options
  import opened ManagedFiles
  import opened ManagedFilesProofs
  import opened ManagedFilesUndo

  ghost predicate Leads(site: Site, h: Host, events: seq<Event>, h': Host)
    decreases |events|
  {
    if events == [] then h == h'
    else Possible(site, h, events[0]) && Leads(site, Occurs(site, h, events[0]), events[1..], h')
  }

  lemma {:induction false} OneMore(site: Site, h: Host, events: seq<Event>, h': Host, e: Event)
    requires Leads(site, h, events, h') && Possible(site, h', e)
    ensures Leads(site, h, events + [e], Occurs(site, h', e))
    decreases |events|
  {
    if events == [] {
      assert [e][1..] == [];
    } else {
      assert (events + [e])[0] == events[0] && (events + [e])[1..] == events[1..] + [e];
      OneMore(site, Occurs(site, h, events[0]), events[1..], h', e);
    }
  }

  /** The states such events lead through. */
  ghost function Hosts(site: Site, h: Host, events: seq<Event>, h': Host): seq<Host>
    requires Leads(site, h, events, h')
    decreases |events|
  {
    if events == [] then [h] else [h] + Hosts(site, Occurs(site, h, events[0]), events[1..], h')
  }

  /** Events that lead somewhere are a run. */
  lemma {:induction false} LeadsIsRun(site: Site, h: Host, events: seq<Event>, h': Host)
    requires Leads(site, h, events, h')
    ensures var hosts := Hosts(site, h, events, h');
            && |hosts| == |events| + 1 && hosts[0] == h && hosts[|hosts| - 1] == h'
            && forall i {:trigger events[i]} :: 0 <= i < |events| ==> Follows(site, hosts[i], events[i], hosts[i + 1])
    decreases |events|
  {
    if events != [] {
      var next := Occurs(site, h, events[0]);
      LeadsIsRun(site, next, events[1..], h');
      var hosts, more := Hosts(site, h, events, h'), Hosts(site, next, events[1..], h');
      forall i {:trigger events[i]} | 0 <= i < |events| ensures Follows(site, hosts[i], events[i], hosts[i + 1]) {
        if i > 0 {
          assert events[i] == events[1..][i - 1];
          assert Follows(site, more[i - 1], events[1..][i - 1], more[i - 1 + 1]);
        }
      }
    }
  }

  // --- With a payload that changes -------------------------------------------------------------

  const HOME: Site := Site(["q"], {})
  const FILE: Path := ["q", "f"]
  const BARE: Tree := map[[] := Dir, ["q"] := Dir]

  function Inventoried(data: Bytes): Manifest {
    Manifest(map[FILE := Entry(false, Sha(data), Sha([1]), 0, 0)], [])
  }

  function WithFile(data: Bytes): Tree {
    BARE[FILE := File(data, 0, 1)]
  }

  lemma FirstApply() returns (events: seq<Event>)
    ensures Leads(HOME, Host(BARE, map[], None, Idle), events,
                  Host(WithFile([1]), map[], Some(Inventoried([1])), Applied))
  {
    var start, payload := Host(BARE, map[], None, Idle), [Item(FILE, [1], 0)];
    assert Parent(FILE) == ["q"];
    OneMore(HOME, start, [], start, Apply(payload));
    var h1 := start.(job := Recording(payload, 0, NOTHING));
    events := [] + [Apply(payload)];
    OneMore(HOME, start, events, h1, Step);
    events := events + [Step];
    assert Adding([], []) == [];
    var h2 := start.(job := Recording(payload, 1, Inventoried([1])));
    assert Go(HOME, h1) == h2;
    OneMore(HOME, start, events, h2, Step);
    events := events + [Step];
    var h3 := start.(manifest := Some(Inventoried([1])), job := Writing(payload, 0));
    OneMore(HOME, start, events, h3, Step);
    events := events + [Step];
    GapFree();
    var h4 := h3.(tree := WithFile([1]), job := Writing(payload, 1));
    assert Go(HOME, h3) == h4;
    OneMore(HOME, start, events, h4, Step);
    events := events + [Step];
  }

  lemma GapFree()
    ensures FirstGap(BARE, FILE, 0) == None
  {
    assert FILE[..0] == [] && FILE[..1] == ["q"];
    assert FirstGap(BARE, FILE, 2) == None;
    assert FirstGap(BARE, FILE, 1) == None;
  }

  lemma CutApply(from: Host, before: seq<Event>) returns (events: seq<Event>)
    requires Leads(HOME, from, before, Host(WithFile([1]), map[], Some(Inventoried([1])), Applied))
    ensures Leads(HOME, from, events, Host(WithFile([1]), map[], Some(Inventoried([2])), Idle))
  {
    var start, payload := Host(WithFile([1]), map[], Some(Inventoried([1])), Applied), [Item(FILE, [2], 0)];
    assert Parent(FILE) == ["q"];
    assert Possible(HOME, start, Apply(payload));
    OneMore(HOME, from, before, start, Apply(payload));
    events := before + [Apply(payload)];
    var h1 := start.(job := Recording(payload, 0, Inventoried([1])));
    OneMore(HOME, from, events, h1, Step);
    assert Adding([], []) == [];
    var h2 := start.(job := Recording(payload, 1, Inventoried([2])));
    assert Inventoried([1]).entries[FILE := Entry(false, Sha([2]), Sha([1]), 0, 0)] == Inventoried([2]).entries;
    assert Go(HOME, h1) == h2;
    events := events + [Step];
    OneMore(HOME, from, events, h2, Step);
    events := events + [Step];
    var h3 := start.(manifest := Some(Inventoried([2])), job := Writing(payload, 0));
    OneMore(HOME, from, events, h3, Crash);
    events := events + [Crash];
  }

  lemma KeepsIt(from: Host, before: seq<Event>) returns (events: seq<Event>)
    requires Leads(HOME, from, before, Host(WithFile([1]), map[], Some(Inventoried([2])), Idle))
    ensures Leads(HOME, from, events, Host(WithFile([1]), map[], Some(Inventoried([2])), Restored))
  {
    var start := Host(WithFile([1]), map[], Some(Inventoried([2])), Idle);
    assert Parent(FILE) == ["q"];
    assert FILE in [FILE];
    OneMore(HOME, from, before, start, Restore([FILE], []));
    events := before + [Restore([FILE], [])];
    var h1 := start.(job := Restoring([FILE], []));
    OneMore(HOME, from, events, h1, Step);
    events := events + [Step];
    var h2 := start.(job := Restoring([], []));
    assert [FILE][1..] == [] && Lstat(start.tree, FILE) == Found(File([1], 0, 1));
    assert Sha([1]) != Sha([2]) by { assert [1][0] != [2][0]; }
    assert Go(HOME, h1) == h2;
    OneMore(HOME, from, events, h2, Step);
    events := events + [Step];
  }

  lemma BareIsTree()
    ensures WellFormed(BARE)
  {
  }

  /** Replaying an apply with another payload, cut off before its write, makes restore
      keep the file the first apply created. */
  lemma ChangedPayloadIsKept()
    ensures exists hosts: seq<Host>, events: seq<Event> ::
              && Run(HOME, BARE, hosts, events)
              && hosts[|hosts| - 1].job == Restored && FILE in hosts[|hosts| - 1].tree && FILE !in BARE
  {
    var start := Host(BARE, map[], None, Idle);
    var events := FirstApply();
    events := CutApply(start, events);
    events := KeepsIt(start, events);
    var done := Host(WithFile([1]), map[], Some(Inventoried([2])), Restored);
    LeadsIsRun(HOME, start, events, done);
    BareIsTree();
    assert Run(HOME, BARE, Hosts(HOME, start, events, done), events);
    assert FILE !in BARE;
  }

  // --- With a million entries before an original -------------------------------------------------

  const OLD: Path := ["q", "x"]
  const OLD_TREE: Tree := BARE[OLD := File([0], 0, 1)]
  const BEFORE: Host := Host(OLD_TREE, map[], None, Idle)

  lemma OldIsTree()
    ensures WellFormed(OLD_TREE)
  {
    forall p, q | p in OLD_TREE && Inside(p, q) ensures q in OLD_TREE && OLD_TREE[q].Dir? {
      assert q == p[..|q|] && (|q| == 0 || |q| == 1);
      assert OLD[..1] == ["q"];
    }
  }

  /** Names of their own for any number of new files. */
  function NewPath(k: nat): Path {
    ["q", seq(k + 1, i => 'f')]
  }

  lemma NewPathsDiffer(j: nat, k: nat)
    requires j != k
    ensures NewPath(j) != NewPath(k) && NewPath(k) != OLD
  {
    assert |NewPath(j)[1]| == j + 1 && |NewPath(k)[1]| == k + 1;
    assert NewPath(k)[1][0] == 'f' && OLD[1][0] == 'x';
  }

  /** n new files, and then the old one. */
  function Many(n: nat): seq<Item> {
    seq(n + 1, k requires 0 <= k < n + 1 => Item(if k < n then NewPath(k) else OLD, [1], 0))
  }

  lemma ManyArePossible(n: nat)
    ensures Possible(HOME, BEFORE, Apply(Many(n)))
  {
    var payload := Many(n);
    forall i, j | 0 <= i < j < |payload| ensures payload[i].dest != payload[j].dest {
      NewPathsDiffer(j, i);
    }
    assert forall i :: 0 <= i < |payload| ==> Inside(HOME.qlds, payload[i].dest) || HOME.qlds < payload[i].dest;
  }

  /** The inventory of the first k of them. */
  function Drafted(k: nat): (entries: map<Path, Entry>)
    ensures |entries| == k && forall d :: d in entries <==> exists j :: 0 <= j < k && d == NewPath(j)
    ensures forall d :: d in entries ==> !entries[d].existed
  {
    if k == 0 then map[]
    else
      assert NewPath(k - 1) !in Drafted(k - 1) by {
        forall j | 0 <= j < k - 1 ensures NewPath(j) != NewPath(k - 1) { NewPathsDiffer(j, k - 1); }
      }
      Drafted(k - 1)[NewPath(k - 1) := Entry(false, Sha([1]), Sha([1]), 0, 0)]
  }

  function DraftHost(n: nat, k: nat): Host {
    BEFORE.(job := Recording(Many(n), k, Manifest(Drafted(k), [])))
  }

  lemma DraftsOne(n: nat, k: nat)
    requires k < n
    ensures Go(HOME, DraftHost(n, k)) == DraftHost(n, k + 1)
  {
    NewIsAbsent(k);
    RecordsNew(DraftHost(n, k), Many(n), k, Drafted(k));
  }

  lemma NewIsAbsent(k: nat)
    ensures NewPath(k) !in Drafted(k) && Lstat(OLD_TREE, NewPath(k)).Absent? && Parent(NewPath(k)) == ["q"]
  {
    forall j | 0 <= j < k ensures NewPath(j) != NewPath(k) { NewPathsDiffer(j, k); }
    NewIsNowhere(k);
  }

  lemma NewIsNowhere(k: nat)
    ensures Lstat(OLD_TREE, NewPath(k)).Absent? && Parent(NewPath(k)) == ["q"]
  {
    NewPathsDiffer(k + 1, k);
    assert Parent(NewPath(k)) == ["q"];
    assert NewPath(k) !in OLD_TREE;
  }

  lemma RecordsNew(h: Host, payload: seq<Item>, k: nat, entries: map<Path, Entry>)
    requires h == BEFORE.(job := Recording(payload, k, Manifest(entries, []))) && k < |payload|
    requires payload[k] == Item(NewPath(k), [1], 0) && NewPath(k) !in entries
    requires Lstat(OLD_TREE, NewPath(k)).Absent? && Parent(NewPath(k)) == ["q"]
    ensures Go(HOME, h) == h.(job := Recording(payload, k + 1,
                                Manifest(entries[NewPath(k) := Entry(false, Sha([1]), Sha([1]), 0, 0)], [])))
  {
    assert Missing(HOME, OLD_TREE, ["q"]) == Some([]);
    assert Adding([], []) == [];
  }

  lemma {:induction false} DraftsMany(n: nat, k: nat) returns (events: seq<Event>)
    requires k <= n
    ensures Leads(HOME, BEFORE, events, DraftHost(n, k))
  {
    if k == 0 {
      ManyArePossible(n);
      OneMore(HOME, BEFORE, [], BEFORE, Apply(Many(n)));
      events := [] + [Apply(Many(n))];
    } else {
      events := DraftsMany(n, k - 1);
      OneMore(HOME, BEFORE, events, DraftHost(n, k - 1), Step);
      DraftsOne(n, k - 1);
      events := events + [Step];
    }
  }

  /** The old file comes last, with an index that is the number of entries before it. */
  function LongManifest(n: nat): Manifest {
    Manifest(Drafted(n)[OLD := Entry(true, Sha([1]), Sha([0]), 0, n)], [])
  }

  function Recorded(n: nat, job: Job, manifest: Option<Manifest>): Host {
    Host(OLD_TREE, map[n := [0]], manifest, job)
  }

  lemma DraftsOld(n: nat)
    ensures Go(HOME, DraftHost(n, n)) == Recorded(n, Recording(Many(n), n + 1, LongManifest(n)), None)
  {
    OldIsNew(n);
    assert Many(n)[n] == Item(OLD, [1], 0) && Parent(OLD) == ["q"];
    assert Adding([], []) == [];
    RecordsOld(DraftHost(n, n), Many(n), n, Drafted(n));
  }

  lemma OldIsNew(n: nat)
    ensures OLD !in Drafted(n) && Lstat(OLD_TREE, OLD) == Found(File([0], 0, 1))
  {
    forall j | 0 <= j < n ensures NewPath(j) != OLD { NewPathsDiffer(n, j); }
    assert Parent(OLD) == ["q"];
  }

  lemma RecordsOld(h: Host, payload: seq<Item>, n: nat, entries: map<Path, Entry>)
    requires h == BEFORE.(job := Recording(payload, n, Manifest(entries, []))) && n < |payload|
    requires payload[n] == Item(OLD, [1], 0) && OLD !in entries && |entries| == n
    requires Lstat(OLD_TREE, OLD) == Found(File([0], 0, 1)) && Parent(OLD) == ["q"]
    ensures Go(HOME, h) == Recorded(n, Recording(payload, n + 1, Manifest(entries[OLD := Entry(true, Sha([1]), Sha([0]), 0, n)], [])), None)
  {
    assert Missing(HOME, OLD_TREE, ["q"]) == Some([]);
    assert Adding([], []) == [];
  }

  /** All of them, in the order of the payload. */
  function Todo(n: nat): seq<Path> {
    seq(n + 1, k requires 0 <= k < n + 1 => if k < n then NewPath(k) else OLD)
  }

  lemma TodoIsPossible(n: nat)
    ensures Possible(HOME, Recorded(n, Idle, Some(LongManifest(n))), Restore(Todo(n), []))
  {
    var todo, entries := Todo(n), LongManifest(n).entries;
    forall d ensures d in todo <==> d in entries {
      if d in entries && d != OLD {
        var j :| 0 <= j < n && d == NewPath(j);
        assert todo[j] == d;
      }
      assert todo[n] == OLD;
    }
    assert forall i :: 0 <= i < |todo| ==> |todo[i]| == 2;
  }

  /** One apply of a million new files and then an existing one, cut off once it is
      inventoried: restore refuses. */
  lemma MillionthOriginal()
    ensures exists hosts: seq<Host>, events: seq<Event> ::
              && Run(HOME, OLD_TREE, hosts, events) && |events| > 0 && events[|events| - 1].Restore?
              && hosts[|hosts| - 1].job == Failed && !Acceptable(HOME, Inventory(hosts[|hosts| - 1]))
  {
    var n := SIX_DIGITS;
    var events, done := RefusesLong(n);
    LeadsIsRun(HOME, BEFORE, events, done);
    OldIsTree();
    assert Run(HOME, OLD_TREE, Hosts(HOME, BEFORE, events, done), events);
  }

  lemma RefusesLong(n: nat) returns (events: seq<Event>, done: Host)
    requires n >= SIX_DIGITS
    ensures Leads(HOME, BEFORE, events, done) && events != [] && events[|events| - 1].Restore?
    ensures done.job == Failed && !Acceptable(HOME, Inventory(done))
  {
    events := DraftsMany(n, n);
    OneMore(HOME, BEFORE, events, DraftHost(n, n), Step);
    DraftsOld(n);
    events := events + [Step];
    var m := LongManifest(n);
    var h := Recorded(n, Recording(Many(n), n + 1, m), None);
    OneMore(HOME, BEFORE, events, h, Step);
    events := events + [Step];
    h := Recorded(n, Writing(Many(n), 0), Some(m));
    OneMore(HOME, BEFORE, events, h, Crash);
    events := events + [Crash];
    h := Recorded(n, Idle, Some(m));
    TodoIsPossible(n);
    OneMore(HOME, BEFORE, events, h, Restore(Todo(n), []));
    events := events + [Restore(Todo(n), [])];
    done := Recorded(n, Failed, Some(m));
    assert OLD in m.entries && m.entries[OLD].backup == n;
  }
}
