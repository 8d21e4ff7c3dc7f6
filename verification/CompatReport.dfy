/** What the operator is told before a runtime upgrade, what is decided without asking,
    and which plugins stay selected. */
module CompatReport {
  import opened LineEndings
  import opened Options
  import opened Sorting
  import opened RuntimeConversion

  datatype Kind = Replaceable | Helper | Unavailable

  datatype Row = Row(kind: Kind, originallyChecked: bool, fromCatalog: bool)

  /** `stripped` are the rows of the dialog, by path. */
  datatype Report = Report(
    kept: map<Path, string>, stripped: map<Path, Row>, offered: set<Path>, autoAccepted: set<Path>,
    checked: Option<seq<Path>>)

  /** is_untouched_source_file: the operator never wrote it. */
  predicate Pristine(source: Runtime, p: Path, text: string) {
    || ShippedHere(source, p, text)
    || (IsRoot(p) && p[0] in source.hashes && source.hashes[p[0]] == BaselineDigest(text))
  }

  predicate FromCatalog(source: Runtime, p: Path) {
    p in source.shipped || (IsRoot(p) && p[0] in source.hashes)
  }

  predicate AutoReplaced(target: Runtime, p: Path) {
    !IsRoot(p) && p in target.shipped
  }

  predicate Incompatible(target: Runtime, p: Path, text: string) {
    IsPython(p) && !Compatible(target, p, text)
  }

  predicate IsAuto(source: Runtime, target: Runtime, p: Path, text: string) {
    Incompatible(target, p, text) && Pristine(source, p, text) && Offers(target, p)
  }

  /** The operator has something to decide, or to lose. */
  predicate IsRow(source: Runtime, target: Runtime, checked: set<Path>, p: Path, text: string) {
    Incompatible(target, p, text)
    && !(Pristine(source, p, text) && (Offers(target, p) || AutoReplaced(target, p) || p !in checked))
  }

  function KindOf(target: Runtime, p: Path): Kind {
    if Offers(target, p) then Replaceable else if AutoReplaced(target, p) then Helper else Unavailable
  }

  function RowOf(source: Runtime, target: Runtime, checked: set<Path>, p: Path): Row {
    Row(KindOf(target, p), p in checked, FromCatalog(source, p))
  }

  function CheckedSet(checked: Option<seq<Path>>): set<Path> {
    if checked.None? then {} else set p | p in checked.value
  }

  /** The report says exactly this of every file. */
  ghost predicate Reports(source: Runtime, target: Runtime, scripts: map<Path, string>, checked: Option<seq<Path>>, r: Report) {
    && (forall p :: p in r.stripped <==> p in scripts && IsRow(source, target, CheckedSet(checked), p, scripts[p]))
    && (forall p :: p in r.stripped ==> r.stripped[p] == RowOf(source, target, CheckedSet(checked), p))
    && (forall p :: p in r.autoAccepted <==> p in scripts && IsAuto(source, target, p, scripts[p]))
    && (forall p :: p in r.offered <==> p in scripts && Incompatible(target, p, scripts[p]) && Offers(target, p))
    && r.checked == if checked.None? then None else Some(Unstripped(checked.value, r.stripped))
  }

  function Unstripped(paths: seq<Path>, stripped: map<Path, Row>): (left: seq<Path>)
    ensures forall p :: p in left <==> p in paths && p !in stripped
  {
    if paths == [] then []
    else (if paths[0] in stripped then [] else [paths[0]]) + Unstripped(paths[1..], stripped)
  }

  /** What an instance that loads the report's scripts gets of a file, if anything. */
  function KeptText(source: Runtime, target: Runtime, p: Path, text: string): Option<string> {
    if !Incompatible(target, p, text) then Some(text)
    else if Pristine(source, p, text) && (Offers(target, p) || AutoReplaced(target, p)) then Some(target.shipped[p])
    else None
  }

  /** Two runtimes by name, as they are normalized. */
  predicate SameRuntime(preset: string, target: Option<string>) {
    target.None? || target.value == preset
  }

  /** apply_compatibility; None when the response is returned as it was. `walk` is the
      order of the files. */
  method ApplyCompatibility(preset: string, targetName: Option<string>, source: Runtime, target: Runtime,
                            scripts: map<Path, string>, walk: seq<Path>, checked: Option<seq<Path>>)
    returns (r: Option<Report>)
    requires (forall p :: p in walk <==> p in scripts) && forall i, j :: 0 <= i < j < |walk| ==> walk[i] != walk[j]
    ensures r.None? <==> SameRuntime(preset, targetName)
    ensures r.Some? ==> Reports(source, target, scripts, checked, r.value)
    ensures r.Some? ==> forall p ::
              (if p in r.value.kept then Some(r.value.kept[p]) else None)
              == if p in scripts then KeptText(source, target, p, scripts[p]) else None
  {
    if SameRuntime(preset, targetName) { return None; }
    var checkedSet := CheckedSet(checked);
    var kept: map<Path, string> := map[];
    var stripped: map<Path, Row> := map[];
    var offered: set<Path> := {};
    var autoAccepted: set<Path> := {};
    for i := 0 to |walk|
      invariant forall p :: p in stripped <==> p in walk[..i] && IsRow(source, target, checkedSet, p, scripts[p])
      invariant forall p :: p in stripped ==> stripped[p] == RowOf(source, target, checkedSet, p)
      invariant forall p :: p in autoAccepted <==> p in walk[..i] && IsAuto(source, target, p, scripts[p])
      invariant forall p :: p in offered <==> p in walk[..i] && Incompatible(target, p, scripts[p]) && Offers(target, p)
      invariant forall p :: p in kept <==> p in walk[..i] && KeptText(source, target, p, scripts[p]).Some?
      invariant forall p :: p in kept ==> p in scripts && KeptText(source, target, p, scripts[p]) == Some(kept[p])
    {
      var p := walk[i];
      assert walk[..i + 1] == walk[..i] + [p];
      var text := scripts[p];
      if !IsPython(p) || Compatible(target, p, text) {
        kept := kept[p := text];
        continue;
      }
      var pristine := Pristine(source, p, text);
      if Offers(target, p) { offered := offered + {p}; }
      if pristine && Offers(target, p) {
        autoAccepted := autoAccepted + {p};
        kept := kept[p := target.shipped[p]];
        continue;
      }
      if pristine && AutoReplaced(target, p) {
        kept := kept[p := target.shipped[p]];
        continue;
      }
      if pristine && p !in checkedSet { continue; }
      stripped := stripped[p := Row(KindOf(target, p), p in checkedSet, FromCatalog(source, p))];
    }
    assert walk[..|walk|] == walk;
    var left := if checked.None? then None else Some(Unstripped(checked.value, stripped));
    r := Some(Report(kept, stripped, offered, autoAccepted, left));
  }

  // --- The operator's answers ------------------------------------------------------------

  datatype Captured = Captured(report: Report, effective: Option<seq<Path>>)

  datatype Answers = Valid(ticked: map<int, seq<Path>>) | Invalid

  /** The dialog offered a checkbox for it. */
  predicate Offered(c: Captured, p: Path) {
    p in c.report.stripped && c.report.stripped[p].kind == Replaceable
  }

  /** What one answer leaves to do, beyond what is replaced anyway. */
  function Asked(c: Captured, ticked: set<Path>): set<Path> {
    ticked - c.report.autoAccepted
  }

  predicate Answerable(captured: map<int, Captured>, id: int, ticked: set<Path>) {
    id in captured && forall p :: p in Asked(captured[id], ticked) ==> Offered(captured[id], p)
  }

  /** The answers as they arrive: a key that is no number and a value that is no list of
      strings are None. */
  datatype Raw = Missing | NotJson | NotAnObject | Object(items: seq<(Option<int>, Option<seq<Path>>)>)

  predicate GoodItem(captured: map<int, Captured>, item: (Option<int>, Option<seq<Path>>)) {
    item.0.Some? && item.1.Some? && Answerable(captured, item.0.value, set p | p in item.1.value)
  }

  predicate GoodRaw(captured: map<int, Captured>, raw: Raw) {
    match raw
    case Missing => true
    case Object(items) => forall i :: 0 <= i < |items| ==> GoodItem(captured, items[i])
    case _ => false
  }

  function ItemsOf(raw: Raw): seq<(Option<int>, Option<seq<Path>>)> {
    if raw.Object? then raw.items else []
  }

  /** The last answer for the instance, or nothing ticked. */
  function LastAnswer(items: seq<(Option<int>, Option<seq<Path>>)>, id: int): set<Path> {
    if items == [] then {}
    else
      var item := items[|items| - 1];
      if item.0 != Some(id) then LastAnswer(items[..|items| - 1], id)
      else if item.1.None? then {} else set p | p in item.1.value
  }

  /** Every captured instance with its last answer, sorted, without what is replaced anyway. */
  ghost predicate AnswersAre(captured: map<int, Captured>, items: seq<(Option<int>, Option<seq<Path>>)>, ticked: map<int, seq<Path>>) {
    && ticked.Keys == captured.Keys
    && forall id :: id in captured ==> SortedOf(PathAtMost, Asked(captured[id], LastAnswer(items, id)), ticked[id])
  }

  /** parse_answers: a later key for the same instance wins. */
  method ParseAnswers(captured: map<int, Captured>, raw: Raw) returns (r: Answers)
    ensures r.Valid? <==> GoodRaw(captured, raw)
    ensures r.Valid? ==> AnswersAre(captured, ItemsOf(raw), r.ticked)
  {
    if raw.NotJson? || raw.NotAnObject? { return Invalid; }
    var items := ItemsOf(raw);
    var answers: map<int, seq<Path>> := map id | id in captured :: [];
    PathsAreOrdered();
    for k := 0 to |items|
      invariant forall i :: 0 <= i < k ==> GoodItem(captured, items[i])
      invariant AnswersAre(captured, items[..k], answers)
    {
      if !GoodItem(captured, items[k]) { return Invalid; }
      var id := items[k].0.value;
      var ticked := Sort(Asked(captured[id], set p | p in items[k].1.value), PathAtMost);
      OneMoreAnswer(captured, items, k, answers, ticked);
      answers := answers[id := ticked];
    }
    assert items[..|items|] == items;
    return Valid(answers);
  }

  lemma OneMoreAnswer(captured: map<int, Captured>, items: seq<(Option<int>, Option<seq<Path>>)>, k: nat,
                      answers: map<int, seq<Path>>, ticked: seq<Path>)
    requires k < |items| && GoodItem(captured, items[k]) && AnswersAre(captured, items[..k], answers)
    requires SortedOf(PathAtMost, Asked(captured[items[k].0.value], set p | p in items[k].1.value), ticked)
    ensures AnswersAre(captured, items[..k + 1], answers[items[k].0.value := ticked])
  {
    assert items[..k + 1][..k] == items[..k] && items[..k + 1][k] == items[k];
  }

  /** auto_accepted + ticked */
  function Accepted(c: Captured, ticked: set<Path>): set<Path> {
    c.report.autoAccepted + ticked
  }

  /** The plugins that stay selected. */
  function ConvertedSelection<P(==, !new)>(effective: seq<P>, stripped: set<P>, ticked: set<P>): (kept: seq<P>)
    ensures forall p :: p in kept <==> p in effective && Stays(stripped, ticked, p)
  {
    if effective == [] then []
    else (if Stays(stripped, ticked, effective[0]) then [effective[0]] else [])
         + ConvertedSelection(effective[1..], stripped, ticked)
  }

  predicate Stays<P(==)>(stripped: set<P>, ticked: set<P>, p: P) {
    p !in stripped || p in ticked
  }

  function CountStays<P(==, !new)>(effective: seq<P>, stripped: set<P>, ticked: set<P>, i: nat): nat
    requires i <= |effective|
  {
    if i == 0 then 0
    else CountStays(effective, stripped, ticked, i - 1) + if Stays(stripped, ticked, effective[i - 1]) then 1 else 0
  }

  lemma {:induction false} CountStaysInRest<P(!new)>(effective: seq<P>, stripped: set<P>, ticked: set<P>, i: nat)
    requires i < |effective|
    ensures CountStays(effective, stripped, ticked, i + 1)
            == CountStays(effective[1..], stripped, ticked, i) + if Stays(stripped, ticked, effective[0]) then 1 else 0
  {
    if i > 0 { CountStaysInRest(effective, stripped, ticked, i - 1); }
  }

  /** Every plugin that stays does so at the place its predecessors that stay leave it. */
  lemma {:induction false} SelectionInOrder<P(!new)>(effective: seq<P>, stripped: set<P>, ticked: set<P>)
    ensures var kept := ConvertedSelection(effective, stripped, ticked);
            && |kept| == CountStays(effective, stripped, ticked, |effective|)
            && forall i :: 0 <= i < |effective| && Stays(stripped, ticked, effective[i]) ==>
                 var k := CountStays(effective, stripped, ticked, i);
                 k < |kept| && kept[k] == effective[i]
  {
    if effective != [] {
      SelectionInOrder(effective[1..], stripped, ticked);
      forall i | 0 <= i < |effective|
        ensures CountStays(effective, stripped, ticked, i + 1)
                == CountStays(effective[1..], stripped, ticked, i) + if Stays(stripped, ticked, effective[0]) then 1 else 0
      {
        CountStaysInRest(effective, stripped, ticked, i);
      }
      forall i | 0 <= i < |effective| && Stays(stripped, ticked, effective[i])
        ensures var k := CountStays(effective, stripped, ticked, i);
                var kept := ConvertedSelection(effective, stripped, ticked);
                k < |kept| && kept[k] == effective[i]
      {
        if i > 0 {
          CountStaysInRest(effective, stripped, ticked, i - 1);
          assert effective[1..][i - 1] == effective[i];
        }
      }
    }
  }
}
