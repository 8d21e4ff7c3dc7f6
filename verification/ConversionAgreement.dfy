/** The filter keeps what it should, and the report and the filter agree. */
module ConversionAgreement {
  import opened LineEndings
  import opened Options
  import opened RuntimeConversion
  import opened CompatReport

  /** The Python files the report sees: those that are valid UTF-8. */
  function Seen(files: Scripts): map<Path, string> {
    map p | p in files && IsPython(p) && files[p].Text? :: files[p].text
  }

  /** After a conversion every non-blank UTF-8 Python file left is the target's baseline,
      the target's own file at that path, or an accepted replacement, unless it could be
      neither written nor removed. */
  lemma ConvertedIsCompatible(target: Runtime, stuck: set<Path>, accepted: set<Path>, before: Scripts, after: Scripts, p: Path)
    requires Filtered(target, stuck, accepted, before, after)
    requires p in after && IsPython(p) && after[p].Text? && !Blank(after[p].text) && p !in stuck
    ensures var text := after[p].text;
            || Compatible(target, p, text)
            || ShippedHere(target, p, text)
            || (p in accepted && Offers(target, p) && text == target.shipped[p])
  {
  }

  /** Whatever is no Python, no UTF-8 or blank is left alone. */
  lemma OthersUntouched(target: Runtime, stuck: set<Path>, accepted: set<Path>, before: Scripts, after: Scripts, p: Path)
    requires Filtered(target, stuck, accepted, before, after) && p in before && p !in accepted
    requires !IsPython(p) || before[p].Binary? || Blank(before[p].text)
    ensures p in after && after[p] == before[p]
  {
  }

  ghost predicate Ticks(c: Captured, ticked: set<Path>) {
    forall p :: p in ticked ==> Offered(c, p)
  }

  /** Every plugin with a UTF-8 file of its own that stays in the converted selection
      still has a file at its path. */
  lemma SelectedHasFile(source: Runtime, target: Runtime, stuck: set<Path>, c: Captured, ticked: set<Path>,
                        before: Scripts, after: Scripts, p: Path)
    requires c.effective.Some? && Reports(source, target, Seen(before), c.effective, c.report) && Ticks(c, ticked)
    requires Filtered(target, stuck, Accepted(c, ticked), before, after)
    requires p in ConvertedSelection(c.effective.value, c.report.stripped.Keys, ticked) && p in Seen(before)
    ensures p in after
  {
    var text := before[p].text;
    assert Seen(before)[p] == text;
    if p in c.report.stripped {
      assert Offered(c, p) && Offers(target, p);
    }
  }

  /** A file the operator may have written is never lost or replaced unless the dialog
      had a row for it. */
  lemma NothingLostUnreported(source: Runtime, target: Runtime, stuck: set<Path>, c: Captured, ticked: set<Path>,
                              before: Scripts, after: Scripts, p: Path)
    requires Reports(source, target, Seen(before), c.effective, c.report) && Ticks(c, ticked)
    requires Filtered(target, stuck, Accepted(c, ticked), before, after)
    requires p in before && (p !in after || after[p] != before[p])
    ensures p in Seen(before)
    ensures Pristine(source, p, Seen(before)[p]) || p in c.report.stripped
  {
    if p in Accepted(c, ticked) {
      assert p in Seen(before);
    } else {
      assert IsPython(p) && before[p].Text?;
    }
  }

  /** A reported file that is not ticked survives as it was exactly when it is blank, is
      what the target ships there, or could not be touched. */
  lemma ReportedSurvives(source: Runtime, target: Runtime, stuck: set<Path>, c: Captured, ticked: set<Path>,
                         before: Scripts, after: Scripts, p: Path)
    requires Reports(source, target, Seen(before), c.effective, c.report) && Ticks(c, ticked)
    requires Filtered(target, stuck, Accepted(c, ticked), before, after)
    requires p in c.report.stripped && p !in ticked
    ensures p in Seen(before)
    ensures var text := Seen(before)[p];
            (p in after && after[p] == before[p]) <==> Blank(text) || ShippedHere(target, p, text) || p in stuck
  {
    var text := Seen(before)[p];
    assert before[p] == Text(text);
    assert p !in c.report.autoAccepted;
    if !Blank(text) && !ShippedHere(target, p, text) && p !in stuck && p in after {
      assert after[p] == Text(target.shipped[p]);
    }
  }

  /** What is replaced without asking is the target's copy of a file nobody wrote. */
  lemma AutoReplacesStock(source: Runtime, target: Runtime, stuck: set<Path>, c: Captured, ticked: set<Path>,
                          before: Scripts, after: Scripts, p: Path)
    requires Reports(source, target, Seen(before), c.effective, c.report)
    requires Filtered(target, stuck, Accepted(c, ticked), before, after)
    requires p in c.report.autoAccepted && p !in stuck
    ensures p in after && after[p] == Text(target.shipped[p])
    ensures p in Seen(before) && Pristine(source, p, Seen(before)[p])
  {
  }
}
