/**
 * What a runtime upgrade does to a directory of plugins: every Python file that the
 * target does not vouch for goes, and accepted replacements are written in.
 */
module RuntimeConversion {
  import opened Options
  import opened LineEndings

  /** A path under scripts/, one name per component. */
  type Path = seq<string>

  /** A file that is valid UTF-8, or one that is not or cannot be read. */
  datatype Content = Text(text: string) | Binary(id: int)

  type Scripts = map<Path, Content>

  function BaselineDigest(text: string): Digest {
    NormalizedDigest(text)
  }

  /** str.isspace */
  predicate IsSpace(c: char) {
    var n := c as int;
    || 9 <= n <= 13 || 28 <= n <= 32 || n in {0x85, 0xa0, 0x1680} || 0x2000 <= n <= 0x200a
    || n in {0x2028, 0x2029, 0x202f, 0x205f, 0x3000}
  }

  predicate Blank(text: string) {
    forall i :: 0 <= i < |text| ==> IsSpace(text[i])
  }

  function Lower(c: char): char {
    if 'A' <= c <= 'Z' then (c as int + 32) as char else c
  }

  predicate EndsWith(name: string, suffix: string) {
    |suffix| <= |name| && name[|name| - |suffix|..] == suffix
  }

  function LowerAll(s: string): string {
    seq(|s|, i requires 0 <= i < |s| => Lower(s[i]))
  }

  function BaseName(p: Path): string {
    if p == [] then "" else p[|p| - 1]
  }

  predicate IsPython(p: Path) {
    p != [] && EndsWith(LowerAll(BaseName(p)), ".py")
  }

  predicate IsRoot(p: Path) {
    |p| == 1
  }

  /** What a runtime ships: baseline hashes by filename, and its default preset. */
  datatype Runtime = Runtime(hashes: map<string, Digest>, shipped: map<Path, string>)

  /** The default preset's root files, which can be offered as replacements. */
  predicate Offers(target: Runtime, p: Path) {
    IsRoot(p) && p in target.shipped && EndsWith(p[0], ".py")
  }

  /** classify: a file is compatible exactly when its digest is the baseline's. */
  predicate Compatible(target: Runtime, p: Path, text: string) {
    BaseName(p) in target.hashes && target.hashes[BaseName(p)] == BaselineDigest(text)
  }

  predicate ShippedHere(target: Runtime, p: Path, text: string) {
    p in target.shipped && BaselineDigest(target.shipped[p]) == BaselineDigest(text)
  }

  datatype Fate = Keep | Restore | Remove

  /** What the filter does with one file; `stuck` are paths whose writes and removals raise. */
  function FateOf(target: Runtime, stuck: set<Path>, p: Path, c: Content): Fate {
    if !IsPython(p) || c.Binary? || Blank(c.text) then Keep
    else if ShippedHere(target, p, c.text) || Compatible(target, p, c.text) then Keep
    else if p in stuck then Keep
    else if !IsRoot(p) && p in target.shipped then Restore
    else Remove
  }

  predicate Written(target: Runtime, stuck: set<Path>, accepted: set<Path>, p: Path) {
    p in accepted && Offers(target, p) && p !in stuck
  }

  /** The directory after the filter. */
  ghost predicate Filtered(target: Runtime, stuck: set<Path>, accepted: set<Path>, before: Scripts, after: Scripts) {
    && (forall p :: p in after <==>
          Written(target, stuck, accepted, p) || (p in before && FateOf(target, stuck, p, before[p]) != Remove))
    && (forall p :: p in after ==>
          after[p] == if Written(target, stuck, accepted, p) then Text(target.shipped[p])
                      else if p in before && FateOf(target, stuck, p, before[p]) == Restore && p in target.shipped
                      then Text(target.shipped[p])
                      else if p in before then before[p] else after[p])
  }

  class Directory {
    var files: Scripts

    constructor (files: Scripts)
      ensures this.files == files
    {
      this.files := files;
    }

    /** One file of the walk. */
    method FilterOne(target: Runtime, stuck: set<Path>, p: Path) returns (fate: Fate)
      requires p in files
      modifies `files
      ensures fate == FateOf(target, stuck, p, old(files)[p])
      ensures files == if fate == Remove then old(files) - {p}
                       else if fate == Restore then old(files)[p := Text(target.shipped[p])] else old(files)
    {
      var c := files[p];
      if !IsPython(p) || c.Binary? || Blank(c.text) { return Keep; }
      if ShippedHere(target, p, c.text) || Compatible(target, p, c.text) || p in stuck { return Keep; }
      if !IsRoot(p) && p in target.shipped {
        files := files[p := Text(target.shipped[p])];
        return Restore;
      }
      files := files - {p};
      return Remove;
    }

    method FilterAll(target: Runtime, stuck: set<Path>, walk: seq<Path>) returns (removed: seq<Path>, restored: seq<Path>)
      requires forall p :: p in walk ==> p in files
      requires forall i, j :: 0 <= i < j < |walk| ==> walk[i] != walk[j]
      modifies `files
      ensures forall p :: p in removed <==> p in walk && FateOf(target, stuck, p, old(files)[p]) == Remove
      ensures forall p :: p in restored <==> p in walk && FateOf(target, stuck, p, old(files)[p]) == Restore
      ensures forall p :: p in files <==> p in old(files) && p !in removed
      ensures forall p :: p in files ==>
                files[p] == if p in restored && p in target.shipped then Text(target.shipped[p]) else old(files)[p]
    {
      removed, restored := [], [];
      for i := 0 to |walk|
        invariant forall p :: p in removed <==> p in walk[..i] && FateOf(target, stuck, p, old(files)[p]) == Remove
        invariant forall p :: p in restored <==> p in walk[..i] && FateOf(target, stuck, p, old(files)[p]) == Restore
        invariant forall p :: p in files <==> p in old(files) && p !in removed
        invariant forall p :: p in files ==>
                    files[p] == if p in restored && p in target.shipped then Text(target.shipped[p]) else old(files)[p]
      {
        var p := walk[i];
        assert walk[..i + 1] == walk[..i] + [p] && p !in walk[..i];
        var fate := FilterOne(target, stuck, p);
        if fate == Remove { removed := removed + [p]; }
        if fate == Restore { restored := restored + [p]; }
      }
      assert walk[..|walk|] == walk;
    }

    /** filter_scripts_for_target; `walk` is the order in which the files are met. */
    method Filter(target: Runtime, stuck: set<Path>, accepted: seq<Path>, walk: seq<Path>)
      returns (removed: seq<Path>, restored: seq<Path>)
      requires forall p :: p in walk <==> p in files
      requires forall i, j :: 0 <= i < j < |walk| ==> walk[i] != walk[j]
      modifies `files
      ensures Filtered(target, stuck, (set p | p in accepted), old(files), files)
      ensures forall p :: p in removed <==> p in old(files) && FateOf(target, stuck, p, old(files)[p]) == Remove
      ensures forall p :: p in restored <==> p in old(files) && FateOf(target, stuck, p, old(files)[p]) == Restore
    {
      removed, restored := FilterAll(target, stuck, walk);
      WriteAccepted(target, stuck, accepted);
    }

    method WriteAccepted(target: Runtime, stuck: set<Path>, accepted: seq<Path>)
      modifies `files
      ensures forall p :: p in files <==>
                p in old(files) || Written(target, stuck, (set q | q in accepted), p)
      ensures forall p :: p in files ==>
                files[p] == if Written(target, stuck, (set q | q in accepted), p) then Text(target.shipped[p])
                            else old(files)[p]
    {
      for i := 0 to |accepted|
        invariant forall p :: p in files <==>
                    p in old(files) || Written(target, stuck, (set q | q in accepted[..i]), p)
        invariant forall p :: p in files ==>
                    files[p] == if Written(target, stuck, (set q | q in accepted[..i]), p) then Text(target.shipped[p])
                                else old(files)[p]
      {
        var p := accepted[i];
        assert accepted[..i + 1] == accepted[..i] + [p];
        if Offers(target, p) && p !in stuck {
          files := files[p := Text(target.shipped[p])];
        }
      }
      assert accepted[..|accepted|] == accepted;
    }
  }
}
