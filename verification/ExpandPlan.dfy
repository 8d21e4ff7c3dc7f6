/** Which files a plan installs where. The result is what apply takes as its payload. */
module ExpandPlan {
  import opened Options
  import opened ManagedFiles

  /** A file found in a staged directory, or a symlink. */
  datatype Found = Found(rel: Path, src: string, link: bool)

  datatype Named = Directory(name: Path, files: seq<Found>) | Single(name: Path, src: string) | Lacking(name: Path)

  datatype Source =
    | Tree(files: seq<Found>, into: Path)
    | Names(items: seq<Named>, optional: bool, into: Path)
    | MissingOnly(files: seq<Found>, into: Path)
    | One(src: string, to: Path)
    | Other

  /** A file to put somewhere. */
  datatype Add = Add(dest: Path, src: string)

  function Walked(files: seq<Found>, into: Path): Option<seq<Add>> {
    if files == [] then Some([])
    else if files[0].link then None
    else
      var rest := Walked(files[1..], into);
      if rest.None? then None else Some([Add(into + files[0].rel, files[0].src)] + rest.value)
  }

  function NamedAdds(items: seq<Named>, optional: bool, into: Path): Option<seq<Add>> {
    if items == [] then Some([])
    else
      var rest := NamedAdds(items[1..], optional, into);
      var first := match items[0]
        case Directory(name, files) => Walked(files, into + name)
        case Single(name, src) => Some([Add(into + name, src)])
        case Lacking(_) => if optional then Some([]) else None;
      if first.None? || rest.None? then None else Some(first.value + rest.value)
  }

  /** What a source that is not deferred adds, in order; None is a refusal. */
  function Adds(site: Site, source: Source): Option<seq<Add>> {
    match source
    case Tree(files, into) => Walked(files, into)
    case Names(items, optional, into) => NamedAdds(items, optional, into)
    case MissingOnly(_, _) => Some([])
    case One(src, to) => if to in site.units then Some([Add(to, src)]) else None
    case Other => None
  }

  function AllAdds(site: Site, sources: seq<Source>): Option<seq<Add>> {
    if sources == [] then Some([])
    else
      var first, rest := Adds(site, sources[0]), AllAdds(site, sources[1..]);
      if first.None? || rest.None? then None else Some(first.value + rest.value)
  }

  /** src is the last thing added for dest. */
  ghost predicate LastAdd(adds: seq<Add>, dest: Path, src: string) {
    exists i :: 0 <= i < |adds| && adds[i] == Add(dest, src) && forall j :: i < j < |adds| ==> adds[j].dest != dest
  }

  ghost predicate AllAllowed(site: Site, adds: seq<Add>) {
    forall i :: 0 <= i < |adds| ==> Allowed(site, adds[i].dest)
  }

  ghost predicate Covered(adds: seq<Add>, dest: Path) {
    exists i :: 0 <= i < |adds| && adds[i].dest == dest
  }

  lemma {:induction false} AllAddsMore(site: Site, sources: seq<Source>, more: Source)
    ensures AllAdds(site, sources + [more]) ==
              if AllAdds(site, sources).None? || Adds(site, more).None? then None
              else Some(AllAdds(site, sources).value + Adds(site, more).value)
  {
    if sources == [] {
      assert (sources + [more])[0] == more && (sources + [more])[1..] == [];
      var last := Adds(site, more);
      assert last.Some? ==> last.value + [] == last.value == [] + last.value;
    } else {
      assert (sources + [more])[0] == sources[0] && (sources + [more])[1..] == sources[1..] + [more];
      AllAddsMore(site, sources[1..], more);
      var first, rest, last := Adds(site, sources[0]), AllAdds(site, sources[1..]), Adds(site, more);
      if first.Some? && rest.Some? && last.Some? {
        assert first.value + (rest.value + last.value) == (first.value + rest.value) + last.value;
      }
    }
  }

  /** The files planned so far are exactly the last adds. */
  ghost predicate Plans(site: Site, files: map<Path, string>, adds: seq<Add>) {
    && (forall d :: d in files <==> Covered(adds, d))
    && (forall d :: d in files ==> Allowed(site, d) && LastAdd(adds, d, files[d]))
  }

  lemma PlansMore(site: Site, files: map<Path, string>, adds: seq<Add>, a: Add)
    requires Plans(site, files, adds) && Allowed(site, a.dest)
    ensures Plans(site, files[a.dest := a.src], adds + [a])
  {
    var more := adds + [a];
    assert more[|adds|] == a && forall j :: 0 <= j < |adds| ==> more[j] == adds[j];
    forall d | d in files[a.dest := a.src] ensures LastAdd(more, d, files[a.dest := a.src][d]) && Covered(more, d) {
      if d == a.dest {
        assert more[|adds|] == Add(d, a.src);
      } else {
        var i :| 0 <= i < |adds| && adds[i] == Add(d, files[d]) && forall j :: i < j < |adds| ==> adds[j].dest != d;
        assert more[i] == Add(d, files[d]);
      }
    }
    forall d | Covered(more, d) ensures d in files[a.dest := a.src] {
      var i :| 0 <= i < |more| && more[i].dest == d;
      if i < |adds| { assert adds[i].dest == d; }
    }
  }

  /** Adds them one by one; a destination outside the allowed places is a refusal. */
  method AddAll(site: Site, files: map<Path, string>, adds: seq<Add>, ghost before: seq<Add>)
    returns (r: Option<map<Path, string>>)
    requires Plans(site, files, before)
    ensures r.Some? <==> AllAllowed(site, adds)
    ensures r.Some? ==> Plans(site, r.value, before + adds)
  {
    var planned := files;
    assert before + adds[..0] == before;
    for i := 0 to |adds|
      invariant forall j :: 0 <= j < i ==> Allowed(site, adds[j].dest)
      invariant Plans(site, planned, before + adds[..i])
    {
      if !Allowed(site, adds[i].dest) { return None; }
      PlansMore(site, planned, before + adds[..i], adds[i]);
      assert before + adds[..i + 1] == (before + adds[..i]) + [adds[i]];
      planned := planned[adds[i].dest := adds[i].src];
    }
    assert adds[..|adds|] == adds;
    return Some(planned);
  }

  // --- Deferred sources ------------------------------------------------------------------

  /** A file that a deferred source would put somewhere. */
  datatype Offer = Offer(dest: Path, src: string, link: bool)

  function OffersOf(files: seq<Found>, into: Path): seq<Offer> {
    if files == [] then []
    else [Offer(into + files[0].rel, files[0].src, files[0].link)] + OffersOf(files[1..], into)
  }

  function Offers(sources: seq<Source>): seq<Offer> {
    if sources == [] then []
    else (if sources[0].MissingOnly? then OffersOf(sources[0].files, sources[0].into) else []) + Offers(sources[1..])
  }

  ghost predicate Offered(offers: seq<Offer>, dest: Path) {
    exists i :: 0 <= i < |offers| && offers[i].dest == dest
  }

  ghost predicate FirstOffer(offers: seq<Offer>, dest: Path, src: string) {
    exists i :: 0 <= i < |offers| && offers[i].dest == dest && offers[i].src == src
                && forall j :: 0 <= j < i ==> offers[j].dest != dest
  }

  /** No symlink, and unless an ordinary source covers the destination: something is there,
      or nothing is and the place is allowed. */
  predicate Welcome(site: Site, tree: Tree, covered: set<Path>, o: Offer) {
    !o.link && (o.dest in covered || Lstat(tree, o.dest).Found? || (Lstat(tree, o.dest).Absent? && Allowed(site, o.dest)))
  }

  ghost predicate AllWelcome(site: Site, tree: Tree, covered: set<Path>, offers: seq<Offer>) {
    forall i :: 0 <= i < |offers| ==> Welcome(site, tree, covered, offers[i])
  }

  /** What is planned once the offers were considered. */
  ghost predicate Filled(site: Site, tree: Tree, covered: map<Path, string>, planned: map<Path, string>, offers: seq<Offer>) {
    && AllWelcome(site, tree, covered.Keys, offers)
    && (forall d :: d in planned <==> d in covered || (Offered(offers, d) && Lstat(tree, d).Absent?))
    && (forall d :: d in covered ==> planned[d] == covered[d])
    && (forall d :: d in planned && d !in covered ==> Allowed(site, d) && FirstOffer(offers, d, planned[d]))
  }

  lemma OneMoreOffer(offers: seq<Offer>, o: Offer, dest: Path)
    ensures Offered(offers + [o], dest) <==> Offered(offers, dest) || o.dest == dest
    ensures forall src :: FirstOffer(offers, dest, src) ==> FirstOffer(offers + [o], dest, src)
    ensures !Offered(offers, dest) && o.dest == dest ==> FirstOffer(offers + [o], dest, o.src)
  {
    var more := offers + [o];
    assert more[|offers|] == o && forall i :: 0 <= i < |offers| ==> more[i] == offers[i];
    forall src | FirstOffer(offers, dest, src) ensures FirstOffer(more, dest, src) {
      var i :| 0 <= i < |offers| && offers[i].dest == dest && offers[i].src == src
               && forall j :: 0 <= j < i ==> offers[j].dest != dest;
      assert more[i].dest == dest;
    }
  }

  lemma FilledMore(site: Site, tree: Tree, covered: map<Path, string>, planned: map<Path, string>, offers: seq<Offer>, o: Offer)
    requires Filled(site, tree, covered, planned, offers) && Welcome(site, tree, covered.Keys, o)
    ensures Filled(site, tree, covered,
                   if o.dest !in planned && Lstat(tree, o.dest).Absent? then planned[o.dest := o.src] else planned, offers + [o])
  {
    forall d
      ensures Offered(offers + [o], d) <==> Offered(offers, d) || o.dest == d
      ensures forall src :: FirstOffer(offers, d, src) ==> FirstOffer(offers + [o], d, src)
      ensures !Offered(offers, d) && o.dest == d ==> FirstOffer(offers + [o], d, o.src)
    {
      OneMoreOffer(offers, o, d);
    }
  }

  /** A deferred file goes only where nothing else goes and nothing is. */
  method AddMissing(site: Site, tree: Tree, files: map<Path, string>, found: seq<Found>, into: Path,
                    ghost covered: map<Path, string>, ghost before: seq<Offer>)
    returns (r: Option<map<Path, string>>)
    requires Filled(site, tree, covered, files, before)
    ensures r.Some? <==> AllWelcome(site, tree, covered.Keys, OffersOf(found, into))
    ensures r.Some? ==> Filled(site, tree, covered, r.value, before + OffersOf(found, into))
  {
    var planned := files;
    ghost var done: seq<Offer> := [];
    assert before + done == before;
    for i := 0 to |found|
      invariant OffersOf(found, into) == done + OffersOf(found[i..], into)
      invariant Filled(site, tree, covered, planned, before + done)
    {
      var dest := into + found[i].rel;
      ghost var o := Offer(dest, found[i].src, found[i].link);
      assert found[i..][1..] == found[i + 1..];
      assert OffersOf(found, into)[|done|] == o;
      if found[i].link { return None; }
      if dest !in planned {
        match Lstat(tree, dest) {
          case Blocked => return None;
          case Found(_) =>
          case Absent => if !Allowed(site, dest) { return None; }
        }
      }
      FilledMore(site, tree, covered, planned, before + done, o);
      if dest !in planned && Lstat(tree, dest).Absent? { planned := planned[dest := found[i].src]; }
      assert before + (done + [o]) == (before + done) + [o];
      done := done + [o];
    }
    assert done == OffersOf(found, into);
    forall i | 0 <= i < |done| ensures Welcome(site, tree, covered.Keys, done[i]) {
      assert (before + done)[|before| + i] == done[i];
    }
    return Some(planned);
  }

  /** The ordinary sources, in order. */
  method Cover(site: Site, sources: seq<Source>) returns (r: Option<map<Path, string>>)
    ensures r.Some? <==> AllAdds(site, sources).Some? && AllAllowed(site, AllAdds(site, sources).value)
    ensures r.Some? ==> Plans(site, r.value, AllAdds(site, sources).value)
  {
    var files: map<Path, string> := map[];
    ghost var adds: seq<Add> := [];
    for i := 0 to |sources|
      invariant AllAdds(site, sources[..i]) == Some(adds)
      invariant AllAllowed(site, adds) && Plans(site, files, adds)
    {
      assert sources[..i + 1] == sources[..i] + [sources[i]];
      AllAddsMore(site, sources[..i], sources[i]);
      AllAddsPrefix(site, sources, i + 1);
      var more := Adds(site, sources[i]);
      if more.None? { return None; }
      var next := AddAll(site, files, more.value, adds);
      if next.None? {
        NotAllowedForGood(site, adds, more.value, AllAdds(site, sources));
        return None;
      }
      files, adds := next.value, adds + more.value;
    }
    assert sources[..|sources|] == sources;
    return Some(files);
  }

  lemma NotAllowedForGood(site: Site, adds: seq<Add>, more: seq<Add>, all: Option<seq<Add>>)
    requires !AllAllowed(site, more) && (all.Some? ==> adds + more <= all.value)
    ensures all.Some? ==> !AllAllowed(site, all.value)
  {
    var i :| 0 <= i < |more| && !Allowed(site, more[i].dest);
    if all.Some? { assert all.value[|adds| + i] == (adds + more)[|adds| + i] == more[i]; }
  }

  /** What the first sources add stays at the front, and what they refuse is refused. */
  lemma {:induction false} AllAddsPrefix(site: Site, sources: seq<Source>, i: nat)
    requires i <= |sources|
    ensures AllAdds(site, sources).Some? ==>
              AllAdds(site, sources[..i]).Some? && AllAdds(site, sources[..i]).value <= AllAdds(site, sources).value
    decreases |sources| - i
  {
    if i == |sources| {
      assert sources[..i] == sources;
    } else {
      AllAddsPrefix(site, sources, i + 1);
      assert sources[..i + 1] == sources[..i] + [sources[i]];
      AllAddsMore(site, sources[..i], sources[i]);
    }
  }

  lemma {:induction false} OffersMore(sources: seq<Source>, more: Source)
    ensures Offers(sources + [more]) ==
              Offers(sources) + if more.MissingOnly? then OffersOf(more.files, more.into) else []
  {
    if sources == [] {
      assert (sources + [more])[0] == more && (sources + [more])[1..] == [];
    } else {
      assert (sources + [more])[0] == sources[0] && (sources + [more])[1..] == sources[1..] + [more];
      OffersMore(sources[1..], more);
    }
  }

  lemma {:induction false} OffersPrefix(sources: seq<Source>, i: nat)
    requires i <= |sources|
    ensures Offers(sources[..i]) <= Offers(sources)
    decreases |sources| - i
  {
    if i == |sources| {
      assert sources[..i] == sources;
    } else {
      OffersPrefix(sources, i + 1);
      assert sources[..i + 1] == sources[..i] + [sources[i]];
      OffersMore(sources[..i], sources[i]);
    }
  }

  /** The deferred sources, in order. */
  method Fill(site: Site, tree: Tree, sources: seq<Source>, covered: map<Path, string>) returns (r: Option<map<Path, string>>)
    ensures r.Some? <==> AllWelcome(site, tree, covered.Keys, Offers(sources))
    ensures r.Some? ==> Filled(site, tree, covered, r.value, Offers(sources))
  {
    var files := covered;
    for i := 0 to |sources|
      invariant Filled(site, tree, covered, files, Offers(sources[..i]))
    {
      assert sources[..i + 1] == sources[..i] + [sources[i]];
      OffersMore(sources[..i], sources[i]);
      OffersPrefix(sources, i + 1);
      if sources[i].MissingOnly? {
        var next := AddMissing(site, tree, files, sources[i].files, sources[i].into, covered, Offers(sources[..i]));
        if next.None? {
          UnwelcomeForGood(site, tree, covered.Keys, Offers(sources[..i]), OffersOf(sources[i].files, sources[i].into), Offers(sources));
          return None;
        }
        files := next.value;
      } else {
        assert Offers(sources[..i]) + [] == Offers(sources[..i]);
      }
    }
    assert sources[..|sources|] == sources;
    return Some(files);
  }

  lemma UnwelcomeForGood(site: Site, tree: Tree, covered: set<Path>, before: seq<Offer>, more: seq<Offer>, all: seq<Offer>)
    requires !AllWelcome(site, tree, covered, more) && before + more <= all
    ensures !AllWelcome(site, tree, covered, all)
  {
    var i :| 0 <= i < |more| && !Welcome(site, tree, covered, more[i]);
    assert all[|before| + i] == (before + more)[|before| + i] == more[i];
  }

  function Destinations(adds: seq<Add>): set<Path> {
    set i | 0 <= i < |adds| :: adds[i].dest
  }

  /** No ordinary source is refused, all their destinations are allowed, and every offer of
      a deferred one is welcome. */
  ghost predicate Accepts(site: Site, tree: Tree, sources: seq<Source>) {
    && AllAdds(site, sources).Some?
    && var adds := AllAdds(site, sources).value;
       AllAllowed(site, adds) && AllWelcome(site, tree, Destinations(adds), Offers(sources))
  }

  /** Planned is what ordinary sources cover, from the last of them, and what only deferred
      sources offer, from the first of them, where nothing is. */
  ghost predicate Expanded(site: Site, tree: Tree, adds: seq<Add>, offers: seq<Offer>, files: map<Path, string>) {
    && (forall d :: d in files <==> d in Destinations(adds) || (Offered(offers, d) && Lstat(tree, d).Absent?))
    && (forall d :: d in files ==>
          Allowed(site, d) && if d in Destinations(adds) then LastAdd(adds, d, files[d]) else FirstOffer(offers, d, files[d]))
  }

  lemma PlansDestinations(site: Site, files: map<Path, string>, adds: seq<Add>)
    requires Plans(site, files, adds)
    ensures files.Keys == Destinations(adds)
  {
    assert forall d :: d in Destinations(adds) <==> Covered(adds, d);
  }

  /** expand_plan: it refuses exactly what is not acceptable, and plans every destination
      once. */
  method Expand(site: Site, tree: Tree, sources: seq<Source>) returns (r: Option<map<Path, string>>)
    ensures r.Some? <==> Accepts(site, tree, sources)
    ensures r.Some? ==> Expanded(site, tree, AllAdds(site, sources).value, Offers(sources), r.value)
  {
    var covered := Cover(site, sources);
    if covered.None? { return None; }
    PlansDestinations(site, covered.value, AllAdds(site, sources).value);
    r := Fill(site, tree, sources, covered.value);
  }
}
