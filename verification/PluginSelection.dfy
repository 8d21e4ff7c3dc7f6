/** The plugin selection as text: how it is read, and how a conversion writes it. */
module PluginSelection {
  import opened Options
  import opened RuntimeConversion
  import opened CompatReport

  /** str.split(',') */
  function Pieces(text: string): (pieces: seq<string>)
    ensures pieces != [] && forall i :: 0 <= i < |pieces| ==> ',' !in pieces[i]
  {
    if text == "" then [""]
    else
      var rest := Pieces(text[1..]);
      if text[0] == ',' then [""] + rest else [[text[0]] + rest[0]] + rest[1..]
  }

  function TrimLeft(s: string): string {
    if s != "" && IsSpace(s[0]) then TrimLeft(s[1..]) else s
  }

  function TrimRight(s: string): (r: string)
    ensures r <= s && (r != "" ==> !IsSpace(r[|r| - 1]))
  {
    if s != "" && IsSpace(s[|s| - 1]) then TrimRight(s[..|s| - 1]) else s
  }

  /** str.strip() */
  function Strip(s: string): string {
    TrimRight(TrimLeft(s))
  }

  /** A plugin's name as reading leaves it. */
  predicate Clean(name: string) {
    name != "" && !IsSpace(name[0]) && !IsSpace(name[|name| - 1]) && ',' !in name
  }

  function Named(pieces: seq<string>): (plugins: seq<string>)
  {
    if pieces == [] then []
    else (if Strip(pieces[0]) == "" then [] else [Strip(pieces[0]) + ".py"]) + Named(pieces[1..])
  }

  /** _checked_plugins */
  function Read(text: Option<string>): Option<seq<string>> {
    if text.None? || text.value == "" then None else Some(Named(Pieces(text.value)))
  }

  function Bare(plugin: string): string {
    if EndsWith(plugin, ".py") then plugin[..|plugin| - 3] else plugin
  }

  /** ', '.join(...) */
  function Joined(plugins: seq<string>): string {
    if plugins == [] then ""
    else if |plugins| == 1 then Bare(plugins[0])
    else Bare(plugins[0]) + ", " + Joined(plugins[1..])
  }

  /** converted_plugin_selection: no selection stays what it was. */
  function Converted(raw: Option<string>, stripped: set<string>, ticked: set<string>): Option<string> {
    match Read(raw)
    case None => raw
    case Some(effective) => Some(Joined(ConvertedSelection(effective, stripped, ticked)))
  }

  lemma {:induction false} TrimLeftKeeps(s: string)
    ensures TrimLeft(s) != "" ==> !IsSpace(TrimLeft(s)[0])
    ensures ',' !in s ==> ',' !in TrimLeft(s)
  {
    if s != "" && IsSpace(s[0]) { TrimLeftKeeps(s[1..]); }
  }

  lemma StripIsClean(s: string)
    requires ',' !in s
    ensures Strip(s) == "" || Clean(Strip(s))
  {
    TrimLeftKeeps(s);
  }

  ghost predicate AllClean(plugins: seq<string>) {
    forall i :: 0 <= i < |plugins| ==> EndsWith(plugins[i], ".py") && Clean(Bare(plugins[i])) && Bare(plugins[i]) + ".py" == plugins[i]
  }

  lemma {:induction false} NamedAreClean(pieces: seq<string>)
    requires forall i :: 0 <= i < |pieces| ==> ',' !in pieces[i]
    ensures AllClean(Named(pieces))
  {
    if pieces != [] {
      NamedAreClean(pieces[1..]);
      StripIsClean(pieces[0]);
      var name := Strip(pieces[0]);
      assert Bare(name + ".py") == name;
    }
  }

  lemma {:induction false} SelectionStaysClean(plugins: seq<string>, stripped: set<string>, ticked: set<string>)
    requires AllClean(plugins)
    ensures AllClean(ConvertedSelection(plugins, stripped, ticked))
  {
    if plugins != [] { SelectionStaysClean(plugins[1..], stripped, ticked); }
  }

  lemma {:induction false} FirstPiece(a: string, rest: string)
    requires ',' !in a
    ensures Pieces(a + "," + rest) == [a] + Pieces(rest)
    ensures Pieces(a) == [a]
  {
    if a == "" {
      assert "" + "," + rest == "," + rest && ("," + rest)[1..] == rest;
    } else {
      FirstPiece(a[1..], rest);
      assert (a + "," + rest)[1..] == a[1..] + "," + rest;
      assert [a[0]] + a[1..] == a;
    }
  }

  lemma CleanStrips(name: string)
    requires Clean(name)
    ensures Strip(name) == name && Strip(" " + name) == name
  {
    assert (" " + name)[1..] == name;
    assert TrimLeft(" " + name) == TrimLeft(name);
  }

  /** Reading what was joined, with or without a space before it. */
  lemma {:induction false} ReadsJoined(plugins: seq<string>, spaced: bool)
    requires AllClean(plugins) && plugins != []
    ensures Named(Pieces(Spaced(Joined(plugins), spaced))) == plugins
    decreases |plugins|
  {
    var name := Bare(plugins[0]);
    SpacedName(name, spaced);
    if |plugins| == 1 {
      FirstPiece(Spaced(name, spaced), "");
      NamedFirst(Spaced(name, spaced), []);
      assert [Spaced(name, spaced)] + [] == [Spaced(name, spaced)];
    } else {
      ReadsJoined(plugins[1..], true);
      JoinedPieces(plugins, spaced);
      NamedFirst(Spaced(name, spaced), Pieces(Spaced(Joined(plugins[1..]), true)));
    }
  }

  function Spaced(s: string, spaced: bool): string {
    if spaced then " " + s else s
  }

  lemma SpacedName(name: string, spaced: bool)
    requires Clean(name)
    ensures ',' !in Spaced(name, spaced) && Strip(Spaced(name, spaced)) == name
  {
    CleanStrips(name);
  }

  lemma NamedFirst(piece: string, rest: seq<string>)
    requires Strip(piece) != ""
    ensures Named([piece] + rest) == [Strip(piece) + ".py"] + Named(rest)
  {
    assert ([piece] + rest)[1..] == rest;
  }

  lemma JoinedPieces(plugins: seq<string>, spaced: bool)
    requires AllClean(plugins) && |plugins| > 1
    ensures Pieces(Spaced(Joined(plugins), spaced))
            == [Spaced(Bare(plugins[0]), spaced)] + Pieces(Spaced(Joined(plugins[1..]), true))
  {
    SpacedComma(Bare(plugins[0]), Joined(plugins[1..]), spaced);
    SpacedName(Bare(plugins[0]), spaced);
    FirstPiece(Spaced(Bare(plugins[0]), spaced), " " + Joined(plugins[1..]));
  }

  lemma SpacedComma(a: string, b: string, spaced: bool)
    ensures Spaced(a + ", " + b, spaced) == Spaced(a, spaced) + "," + (" " + b)
  {
    assert ", " + b == "," + (" " + b);
    assert a + ", " + b == a + (", " + b);
    assert a + "," + (" " + b) == a + ("," + (" " + b));
  }

  /** The converted selection, read again, is exactly what stays selected, in the original
      order; nothing selected reads as no selection. */
  lemma SelectionReadsBack(raw: Option<string>, stripped: set<string>, ticked: set<string>)
    requires Read(raw).Some?
    ensures var kept := ConvertedSelection(Read(raw).value, stripped, ticked);
            Read(Converted(raw, stripped, ticked)) == if kept == [] then None else Some(kept)
  {
    NamedAreClean(Pieces(raw.value));
    SelectionStaysClean(Read(raw).value, stripped, ticked);
    var kept := ConvertedSelection(Read(raw).value, stripped, ticked);
    if kept != [] {
      ReadsJoined(kept, false);
    }
  }
}
