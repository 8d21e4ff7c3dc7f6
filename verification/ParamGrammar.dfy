/** Well-formed parameters as trees, and the scanner's round trip over their text. */
module ParamGrammar {
  import opened Options
  import opened ParamScanner

  datatype Item = Escaped(c: char) | Bare(c: char)

  /** A parameter is a sequence of pieces; a lambda's body is what follows it. */
  datatype Piece =
    | Plain(c: char)
    | Comma
    | Colon
    | Str(quote: char, items: seq<Item>)
    | Group(open: char, inner: seq<Piece>, close: char)
    | Lambda(header: seq<Piece>)

  function ItemText(item: Item): string {
    match item
    case Escaped(c) => ['\\', c]
    case Bare(c) => [c]
  }

  function ItemsText(items: seq<Item>): string {
    if items == [] then "" else ItemText(items[0]) + ItemsText(items[1..])
  }

  function PieceText(p: Piece): string
    decreases p
  {
    match p
    case Plain(c) => [c]
    case Comma => ","
    case Colon => ":"
    case Str(q, items) => [q] + ItemsText(items) + [q]
    case Group(open, inner, close) => [open] + Text(inner) + [close]
    case Lambda(header) => LAMBDA + Text(header) + ":"
  }

  function Text(ps: seq<Piece>): string
    decreases ps
  {
    if ps == [] then "" else PieceText(ps[0]) + Text(ps[1..])
  }

  predicate Matching(open: char, close: char) {
    (open == '(' && close == ')') || (open == '[' && close == ']') || (open == '{' && close == '}')
  }

  /** Where a piece stands: directly in the parameter, inside brackets, or in the header
      of a lambda. A parameter has no comma of its own, a lambda header no colon. */
  datatype Place = Top | Inside | Header

  predicate ItemOk(item: Item, quote: char) {
    item.Bare? ==> item.c != quote && item.c != '\\'
  }

  predicate PieceOk(p: Piece, place: Place)
    decreases p
  {
    match p
    case Plain(c) => !IsQuote(c) && !IsOpen(c) && !IsClose(c) && c != ',' && c != ':'
    case Comma => place != Top
    case Colon => place != Header
    case Str(q, items) => IsQuote(q) && forall i :: 0 <= i < |items| ==> ItemOk(items[i], q)
    case Group(open, inner, close) => Matching(open, close) && Ok(inner, Inside)
    case Lambda(header) => Ok(header, Header)
  }

  predicate Ok(ps: seq<Piece>, place: Place)
    decreases ps
  {
    ps == [] || (PieceOk(ps[0], place) && Ok(ps[1..], place))
  }

  /** What a piece at i needs, apart from its text. */
  predicate Rightly(text: string, i: nat, p: Piece)
    decreases p, 0
  {
    match p
    case Plain(_) => !Word(text, i)
    case Group(_, inner, _) => Placed(text, i + 1, inner)
    case Lambda(header) => Word(text, i) && Placed(text, i + 6, header)
    case _ => true
  }

  /** The pieces' text stands at i, and `lambda` is a whole word exactly where a lambda is. */
  predicate PiecePlaced(text: string, i: nat, p: Piece)
    decreases p, 1
  {
    && i + |PieceText(p)| <= |text| && text[i..i + |PieceText(p)|] == PieceText(p)
    && Rightly(text, i, p)
  }

  predicate Placed(text: string, i: nat, ps: seq<Piece>)
    decreases ps
  {
    ps == [] || (PiecePlaced(text, i, ps[0]) && Placed(text, i + |PieceText(ps[0])|, ps[1..]))
  }

  /** A well-formed parameter. */
  ghost predicate WellFormed(param: string) {
    exists ps :: IsParam(param, ps)
  }

  ghost predicate IsParam(param: string, ps: seq<Piece>) {
    Text(ps) == param && Ok(ps, Top) && Placed(param, 0, ps)
  }

  // --- The scanner walks over well-formed pieces --------------------------------------

  /** The scanner's state fits the place. */
  ghost predicate Fits(s: State, place: Place) {
    && s.quote == None && s.depth >= 1
    && match place
       case Top => s.depth == 1 && s.lambdas == []
       case Inside => s.depth > 1 && (s.lambdas == [] || s.lambdas[|s.lambdas| - 1] < s.depth)
       case Header => s.lambdas != [] && s.lambdas[|s.lambdas| - 1] == s.depth
  }

  /** A stretch of a text that is known is known piece by piece. */
  lemma Part(text: string, i: nat, whole: string, a: nat, b: nat)
    requires i + |whole| <= |text| && text[i..i + |whole|] == whole && a <= b <= |whole|
    ensures text[i + a..i + b] == whole[a..b]
    ensures forall j :: i + a <= j < i + b ==> text[j] == whole[j - i]
  {
    forall j | i + a <= j < i + b ensures text[j] == whole[j - i] {
      assert text[i..i + |whole|][j - i] == text[j];
    }
  }

  type Result = Option<seq<string>>

  predicate Tick(i: nat, s: State) { true }

  /** f says the same before and after every move that is no split and no close, as the
      rest of the scan does. */
  ghost predicate Walks(text: string, f: (nat, State) -> Result, lo: nat) {
    forall i: nat, s: State {:trigger Tick(i, s)} ::
      Tick(i, s) && lo <= i < |text| && Next(text, i, s).Skip? ==> f(i, s) == f(i + Next(text, i, s).n, Next(text, i, s).state)
  }

  lemma SkipOnce(text: string, f: (nat, State) -> Result, lo: nat, i: nat, s: State)
    requires Walks(text, f, lo) && lo <= i < |text| && Next(text, i, s).Skip?
    ensures f(i, s) == f(i + Next(text, i, s).n, Next(text, i, s).state)
  {
    assert Tick(i, s);
  }

  lemma ScanWalks(text: string, from: nat, done: seq<string>)
    ensures Walks(text, (i: nat, s: State) => if from <= i then Scan(text, i, from, done, s) else None, from)
  {
  }

  lemma {:induction false} SkipsItems(text: string, f: (nat, State) -> Result, lo: nat, i: nat, s: State, items: seq<Item>)
    requires Walks(text, f, lo) && lo <= i && s.quote.Some? && s.quote.value != '\\'
    requires forall j :: 0 <= j < |items| ==> ItemOk(items[j], s.quote.value)
    requires i + |ItemsText(items)| <= |text| && text[i..i + |ItemsText(items)|] == ItemsText(items)
    ensures f(i, s) == f(i + |ItemsText(items)|, s)
    decreases |items|
  {
    if items != [] {
      var n, all, rest := |ItemText(items[0])|, ItemsText(items), ItemsText(items[1..]);
      Part(text, i, all, 0, n);
      Part(text, i, all, n, |all|);
      assert all[n..] == rest;
      SkipOnce(text, f, lo, i, s);
      SkipsItems(text, f, lo, i + n, s, items[1..]);
    }
  }

  lemma NotWord(text: string, i: nat)
    requires i < |text| && text[i] != 'l'
    ensures !Word(text, i)
  {
    if i + 6 <= |text| { assert text[i..i + 6][0] == text[i]; }
  }

  lemma SkipsString(text: string, f: (nat, State) -> Result, lo: nat, i: nat, s: State, p: Piece)
    requires Walks(text, f, lo) && lo <= i && s.quote.None? && p.Str? && PieceOk(p, Inside) && PiecePlaced(text, i, p)
    ensures f(i, s) == f(i + |PieceText(p)|, s)
  {
    var body, all := ItemsText(p.items), PieceText(p);
    var n := 1 + |body|;
    assert |all| == n + 1 && all[0] == p.quote && all[n] == p.quote && all[1..n] == body;
    Part(text, i, all, 0, |all|);
    Part(text, i, all, 1, n);
    NotWord(text, i);
    SkipOnce(text, f, lo, i, s);
    SkipsItems(text, f, lo, i + 1, s.(quote := Some(p.quote)), p.items);
    SkipOnce(text, f, lo, i + n, s.(quote := Some(p.quote)));
  }

  /** The brackets around what is walked over cancel. */
  lemma SkipsGroup(text: string, f: (nat, State) -> Result, lo: nat, i: nat, s: State, p: Piece)
    requires Walks(text, f, lo) && lo <= i && s.quote.None? && s.depth >= 1 && p.Group? && Matching(p.open, p.close)
    requires PiecePlaced(text, i, p)
    requires var s' := s.(depth := s.depth + 1);
             f(i + 1, s') == f(i + 1 + |Text(p.inner)|, s')
    ensures f(i, s) == f(i + |PieceText(p)|, s)
  {
    var all, n := PieceText(p), |Text(p.inner)| + 1;
    assert |all| == n + 1 && all[0] == p.open && all[n] == p.close;
    Part(text, i, all, 0, |all|);
    NotWord(text, i);
    NotWord(text, i + n);
    SkipOnce(text, f, lo, i, s);
    SkipOnce(text, f, lo, i + n, s.(depth := s.depth + 1));
  }

  /** The colon closes the header that the word opened. */
  lemma SkipsLambda(text: string, f: (nat, State) -> Result, lo: nat, i: nat, s: State, p: Piece)
    requires Walks(text, f, lo) && lo <= i && s.quote.None? && s.depth >= 1 && p.Lambda? && PiecePlaced(text, i, p)
    requires var s' := s.(lambdas := s.lambdas + [s.depth]);
             f(i + 6, s') == f(i + 6 + |Text(p.header)|, s')
    ensures f(i, s) == f(i + |PieceText(p)|, s)
  {
    var all, n := PieceText(p), |Text(p.header)| + 6;
    assert |all| == n + 1 && all[n] == ':';
    Part(text, i, all, 0, |all|);
    NotWord(text, i + n);
    var within := s.(lambdas := s.lambdas + [s.depth]);
    assert within.lambdas[..|within.lambdas| - 1] == s.lambdas;
    SkipOnce(text, f, lo, i, s);
    SkipOnce(text, f, lo, i + n, within);
  }

  lemma SkipsChar(text: string, f: (nat, State) -> Result, lo: nat, i: nat, s: State, p: Piece, place: Place)
    requires Walks(text, f, lo) && lo <= i && Fits(s, place) && PieceOk(p, place) && PiecePlaced(text, i, p)
    requires p.Plain? || p.Comma? || p.Colon?
    ensures f(i, s) == f(i + |PieceText(p)|, s)
  {
    Part(text, i, PieceText(p), 0, 1);
    if !p.Plain? { NotWord(text, i); }
    SkipOnce(text, f, lo, i, s);
  }

  lemma FitsWithin(s: State, place: Place)
    requires Fits(s, place)
    ensures Fits(s.(depth := s.depth + 1), Inside)
    ensures Fits(s.(lambdas := s.lambdas + [s.depth]), Header)
  {
  }

  /** A well-formed piece is walked over without a split or a close, and leaves the
      scanner in the state it found. */
  lemma {:induction false} SkipsPiece(text: string, f: (nat, State) -> Result, lo: nat, i: nat, s: State, p: Piece, place: Place)
    requires Walks(text, f, lo) && lo <= i && Fits(s, place) && PieceOk(p, place) && PiecePlaced(text, i, p)
    ensures f(i, s) == f(i + |PieceText(p)|, s)
    decreases p
  {
    match p
    case Plain(_) => SkipsChar(text, f, lo, i, s, p, place);
    case Comma => SkipsChar(text, f, lo, i, s, p, place);
    case Colon => SkipsChar(text, f, lo, i, s, p, place);
    case Str(_, _) => SkipsString(text, f, lo, i, s, p);
    case Group(_, inner, _) =>
      FitsWithin(s, place);
      SkipsPieces(text, f, lo, i + 1, s.(depth := s.depth + 1), inner, Inside);
      SkipsGroup(text, f, lo, i, s, p);
    case Lambda(header) =>
      FitsWithin(s, place);
      SkipsPieces(text, f, lo, i + 6, s.(lambdas := s.lambdas + [s.depth]), header, Header);
      SkipsLambda(text, f, lo, i, s, p);
  }

  lemma {:induction false} SkipsPieces(text: string, f: (nat, State) -> Result, lo: nat, i: nat, s: State, ps: seq<Piece>, place: Place)
    requires Walks(text, f, lo) && lo <= i && Fits(s, place) && Ok(ps, place) && Placed(text, i, ps)
    ensures f(i, s) == f(i + |Text(ps)|, s)
    decreases ps
  {
    if ps != [] {
      SkipsPiece(text, f, lo, i, s, ps[0], place);
      SkipsPieces(text, f, lo, i + |PieceText(ps[0])|, s, ps[1..], place);
    }
  }

  // --- A parameter keeps its shape where it is put --------------------------------------

  /** param stands at o in the text, between characters that are no part of a word. */
  predicate Stands(text: string, o: nat, param: string) {
    && o + |param| <= |text| && text[o..o + |param|] == param
    && (o == 0 || !IsIdent(text[o - 1]))
    && (o + |param| == |text| || !IsIdent(text[o + |param|]))
  }

  lemma SameWords(text: string, o: nat, param: string, j: nat)
    requires Stands(text, o, param) && j < |param|
    ensures Word(param, j) <==> Word(text, o + j)
  {
    Part(text, o, param, 0, |param|);
    if j + 6 <= |param| {
      Part(text, o, param, j, j + 6);
    } else if o + j + 6 <= |text| {
      var edge := |param| - j;
      assert text[o + j..o + j + 6][edge] == text[o + |param|];
      assert forall e :: 0 <= e < 6 ==> IsIdent(LAMBDA[e]);
    }
  }

  lemma Slides(text: string, o: nat, param: string, j: nat, n: nat)
    requires Stands(text, o, param) && n > 0 && j + n <= |param|
    ensures o + j + n <= |text| && text[o + j..o + j + n] == param[j..j + n]
    ensures Word(param, j) <==> Word(text, o + j)
  {
    Part(text, o, param, j, j + n);
    SameWords(text, o, param, j);
  }

  lemma HasText(p: Piece)
    ensures |PieceText(p)| > 0
  {
    match p
    case Plain(_) =>
    case Comma =>
    case Colon =>
    case _ =>
  }

  lemma {:induction false} PieceMoves(text: string, o: nat, param: string, j: nat, p: Piece)
    requires Stands(text, o, param) && PiecePlaced(param, j, p)
    ensures PiecePlaced(text, o + j, p)
    decreases p, 1
  {
    HasText(p);
    Slides(text, o, param, j, |PieceText(p)|);
    InnerMoves(text, o, param, j, p);
  }

  lemma {:induction false} InnerMoves(text: string, o: nat, param: string, j: nat, p: Piece)
    requires Stands(text, o, param) && j < |param| && (Word(param, j) <==> Word(text, o + j)) && Rightly(param, j, p)
    ensures Rightly(text, o + j, p)
    decreases p, 0
  {
    match p
    case Group(_, inner, _) => PiecesMove(text, o, param, j + 1, inner);
    case Lambda(header) => PiecesMove(text, o, param, j + 6, header);
    case _ =>
  }

  lemma {:induction false} PiecesMove(text: string, o: nat, param: string, j: nat, ps: seq<Piece>)
    requires Stands(text, o, param) && Placed(param, j, ps)
    ensures Placed(text, o + j, ps)
    decreases ps
  {
    if ps != [] {
      PieceMoves(text, o, param, j, ps[0]);
      PiecesMove(text, o, param, j + |PieceText(ps[0])|, ps[1..]);
    }
  }

  lemma ParamPlaced(text: string, i: nat, param: string) returns (ps: seq<Piece>)
    requires WellFormed(param) && Stands(text, i, param)
    ensures Ok(ps, Top) && Placed(text, i, ps) && |Text(ps)| == |param|
  {
    ps :| IsParam(param, ps);
    PiecesMove(text, i, param, 0, ps);
  }

  lemma SkipsTop(text: string, i: nat, done: seq<string>, ps: seq<Piece>, n: nat)
    requires Ok(ps, Top) && Placed(text, i, ps) && |Text(ps)| == n
    ensures Scan(text, i, i, done, START) == Scan(text, i + n, i, done, START)
  {
    var f := (j: nat, s: State) => if i <= j then Scan(text, j, i, done, s) else None;
    ScanWalks(text, i, done);
    SkipsPieces(text, f, i, i, START, ps, Top);
    assert f(i, START) == f(i + n, START);
  }

  lemma SkipsParam(text: string, i: nat, done: seq<string>, param: string, n: nat)
    requires WellFormed(param) && Stands(text, i, param) && n == |param|
    ensures Scan(text, i, i, done, START) == Scan(text, i + n, i, done, START)
  {
    var ps := ParamPlaced(text, i, param);
    SkipsTop(text, i, done, ps, n);
  }

  // --- Round trip ---------------------------------------------------------------------------

  /** The joined parameters stand at i, closed by a parenthesis. */
  predicate Listed(text: string, i: nat, params: seq<string>) {
    var n := |Join(params)|;
    i + n < |text| && text[i..i + n] == Join(params) && text[i + n] == ')' && (i == 0 || !IsIdent(text[i - 1]))
  }

  lemma AtComma(text: string, i: nat, from: nat, done: seq<string>)
    requires from <= i < |text| && text[i] == ','
    ensures Scan(text, i, from, done, START) == Scan(text, i + 1, i + 1, done + [text[from..i]], START)
  {
    NotWord(text, i);
  }

  lemma AtParen(text: string, i: nat, from: nat, done: seq<string>)
    requires from <= i < |text| && text[i] == ')'
    ensures Scan(text, i, from, done, START) == Some(done + [text[from..i]])
  {
    NotWord(text, i);
  }

  /** After the first parameter there is a comma, and then the others stand. */
  lemma ListedHead(text: string, i: nat, params: seq<string>)
    requires |params| > 1 && Listed(text, i, params)
    ensures var n := i + |params[0]|;
            && Stands(text, i, params[0]) && text[n] == ',' && text[i..n] == params[0] && Listed(text, n + 1, params[1..])
  {
    var n, all := |params[0]|, Join(params);
    assert all[..n] == params[0] && all[n] == ',' && all[n + 1..] == Join(params[1..]);
    Part(text, i, all, 0, n);
    Part(text, i, all, n, n + 1);
    Part(text, i, all, n + 1, |all|);
  }

  lemma ScansHead(text: string, i: nat, done: seq<string>, params: seq<string>) returns (n: nat)
    requires |params| > 1 && WellFormed(params[0]) && Listed(text, i, params)
    ensures Scan(text, i, i, done, START) == Scan(text, n, n, done + [params[0]], START)
    ensures Listed(text, n, params[1..])
  {
    n := i + |params[0]| + 1;
    ListedHead(text, i, params);
    SkipsParam(text, i, done, params[0], |params[0]|);
    AtComma(text, i + |params[0]|, i, done);
  }

  lemma ScansLast(text: string, i: nat, done: seq<string>, p: string)
    requires WellFormed(p) && Listed(text, i, [p])
    ensures Scan(text, i, i, done, START) == Some(done + [p])
  {
    SkipsParam(text, i, done, p, |p|);
    AtParen(text, i + |p|, i, done);
  }

  lemma {:induction false} ScansList(text: string, i: nat, done: seq<string>, params: seq<string>)
    requires params != [] && (forall k :: 0 <= k < |params| ==> WellFormed(params[k])) && Listed(text, i, params)
    ensures Scan(text, i, i, done, START) == Some(done + params)
    decreases |params|
  {
    var p := params[0];
    if |params| == 1 {
      assert params == [p];
      ScansLast(text, i, done, p);
    } else {
      var n := ScansHead(text, i, done, params);
      ScansList(text, n, done + [p], params[1..]);
      assert done + [p] + params[1..] == done + params;
    }
  }

  /** Scanning the comma-join of any non-empty list of well-formed parameters, followed by
      a closing parenthesis and anything at all, gives back exactly that list. */
  lemma RoundTrip(before: string, params: seq<string>, after: string)
    requires params != [] && forall k :: 0 <= k < |params| ==> WellFormed(params[k])
    requires before == "" || !IsIdent(before[|before| - 1])
    ensures Scan(before + Join(params) + ")" + after, |before|, |before|, [], START) == Some(params)
  {
    var text, n := before + Join(params) + ")" + after, |Join(params)|;
    assert text[|before|..|before| + n] == Join(params) && text[|before| + n] == ')';
    assert before != "" ==> text[|before| - 1] == before[|before| - 1];
    assert Listed(text, |before|, params);
    ScansList(text, |before|, [], params);
    assert [] + params == params;
  }

  /** Putting a piece in front. */
  lemma InFront(text: string, i: nat, p: Piece, ps: seq<Piece>, place: Place)
    requires PiecePlaced(text, i, p) && PieceOk(p, place)
    requires Placed(text, i + |PieceText(p)|, ps) && Ok(ps, place)
    ensures Placed(text, i, [p] + ps) && Ok([p] + ps, place) && Text([p] + ps) == PieceText(p) + Text(ps)
  {
    assert ([p] + ps)[0] == p && ([p] + ps)[1..] == ps;
  }

  lemma PlainInFront(text: string, i: nat, c: char, ps: seq<Piece>, place: Place)
    requires i < |text| && text[i] == c && c != 'l' && PieceOk(Plain(c), place)
    requires Placed(text, i + 1, ps) && Ok(ps, place)
    ensures Placed(text, i, [Plain(c)] + ps) && Ok([Plain(c)] + ps, place) && Text([Plain(c)] + ps) == [c] + Text(ps)
  {
    NotWord(text, i);
    assert text[i..i + 1] == [c];
    InFront(text, i, Plain(c), ps, place);
  }

  lemma ExampleHeader(text: string) returns (header: seq<Piece>)
    requires text == "lambda a,b:a"
    ensures Placed(text, 6, header) && Ok(header, Header) && Text(header) == " a,b"
  {
    PlainInFront(text, 9, 'b', [], Header);
    var three := [Plain('b')] + [];
    assert text[8..9] == ",";
    InFront(text, 8, Comma, three, Header);
    var two := [Comma] + three;
    PlainInFront(text, 7, 'a', two, Header);
    PlainInFront(text, 6, ' ', [Plain('a')] + two, Header);
    header := [Plain(' ')] + ([Plain('a')] + two);
  }

  /** The shapes are real: a lambda that takes two arguments is one parameter. */
  lemma AnExample()
    ensures WellFormed("lambda a,b:a")
  {
    var text := "lambda a,b:a";
    var header := ExampleHeader(text);
    PlainInFront(text, 11, 'a', [], Top);
    var body := [Plain('a')] + [];
    assert Word(text, 0) && text[0..11] == PieceText(Lambda(header));
    InFront(text, 0, Lambda(header), body, Top);
    assert IsParam(text, [Lambda(header)] + body);
  }
}
