/**
 * Splitting a Python signature into its parameters by walking its text: brackets nest,
 * string literals are skipped, and the commas of a lambda header belong to the lambda.
 */
module ParamScanner {
  import opened Options

  const LAMBDA: string := "lambda"

  /** The letters and digits beyond ASCII; everything below holds whichever they are. */
  const OTHER_LETTERS: set<char>

  predicate IsIdent(c: char) {
    'a' <= c <= 'z' || 'A' <= c <= 'Z' || '0' <= c <= '9' || c == '_' || (c as int >= 128 && c in OTHER_LETTERS)
  }

  predicate IsOpen(c: char) { c == '(' || c == '[' || c == '{' }

  predicate IsClose(c: char) { c == ')' || c == ']' || c == '}' }

  predicate IsQuote(c: char) { c == '"' || c == '\'' }

  /** The whole word `lambda` starts at i. */
  predicate Word(text: string, i: nat) {
    && i + 6 <= |text| && text[i..i + 6] == LAMBDA
    && (i == 0 || !IsIdent(text[i - 1])) && (i + 6 == |text| || !IsIdent(text[i + 6]))
  }

  /** `lambdas` holds the depth of every lambda header that is open. */
  datatype State = State(depth: nat, quote: Option<char>, lambdas: seq<nat>)

  datatype Move = Skip(n: nat, state: State) | Split | Close

  const START: State := State(1, None, [])

  function InQuote(c: char, s: State): (m: Move)
    requires s.quote.Some?
    ensures m.Skip? && m.n > 0
  {
    if c == '\\' then Skip(2, s) else Skip(1, if Some(c) == s.quote then s.(quote := None) else s)
  }

  function AtChar(c: char, s: State): (m: Move)
    requires s.quote.None?
    ensures m.Skip? ==> m.n > 0
  {
    if IsQuote(c) then Skip(1, s.(quote := Some(c)))
    else if c == ':' && s.lambdas != [] && s.lambdas[|s.lambdas| - 1] == s.depth
    then Skip(1, s.(lambdas := s.lambdas[..|s.lambdas| - 1]))
    else if IsOpen(c) then Skip(1, s.(depth := s.depth + 1))
    else if IsClose(c) then if s.depth <= 1 then Close else Skip(1, s.(depth := s.depth - 1))
    else if c == ',' && s.depth == 1 && s.lambdas == [] then Split
    else Skip(1, s)
  }

  function Next(text: string, i: nat, s: State): (m: Move)
    requires i < |text|
    ensures m.Skip? ==> m.n > 0
  {
    if s.quote.Some? then InQuote(text[i], s)
    else if Word(text, i) then Skip(6, s.(lambdas := s.lambdas + [s.depth]))
    else AtChar(text[i], s)
  }

  /** From i on, with the parameters before `from` done. */
  function Scan(text: string, i: nat, from: nat, done: seq<string>, s: State): Option<seq<string>>
    requires from <= i
    decreases |text| - i
  {
    if i >= |text| then None
    else
      match Next(text, i, s)
      case Skip(n, s') => Scan(text, i + n, from, done, s')
      case Split => Scan(text, i + 1, i + 1, done + [text[from..i]], s)
      case Close => Some(done + [text[from..i]])
  }

  /** _scan_params */
  method ScanParams(text: string, start: nat) returns (params: Option<seq<string>>)
    ensures params == Scan(text, start, start, [], START)
  {
    var depth: nat, index: nat, from: nat := 1, start, start;
    var done: seq<string> := [];
    var quote: Option<char> := None;
    var lambdas: seq<nat> := [];
    while index < |text|
      invariant from <= index
      invariant Scan(text, start, start, [], START) == Scan(text, index, from, done, State(depth, quote, lambdas))
      invariant depth >= 1
      decreases |text| - index
    {
      var c := text[index];
      ghost var s := State(depth, quote, lambdas);
      if quote.Some? {
        if c == '\\' {
          index := index + 2;
          continue;
        }
        if c == quote.value { quote := None; }
        index := index + 1;
        continue;
      }
      if Word(text, index) {
        lambdas := lambdas + [depth];
        index := index + 6;
        continue;
      }
      if IsQuote(c) {
        quote := Some(c);
      } else if c == ':' && lambdas != [] && lambdas[|lambdas| - 1] == depth {
        lambdas := lambdas[..|lambdas| - 1];
      } else if IsOpen(c) {
        depth := depth + 1;
      } else if IsClose(c) {
        depth := depth - 1;
        if depth == 0 { return Some(done + [text[from..index]]); }
      } else if c == ',' && depth == 1 && lambdas == [] {
        assert AtChar(c, s) == Split;
        done := done + [text[from..index]];
        from, index := index + 1, index + 1;
        continue;
      }
      assert AtChar(c, s) == Skip(1, State(depth, quote, lambdas));
      index := index + 1;
    }
    return None;
  }

  // --- Nothing is lost: any text at all ------------------------------------------------

  /** Where the signature closes, looking at brackets and strings only. */
  function CloseAt(text: string, i: nat, depth: nat, quote: Option<char>): (close: Option<nat>)
    ensures close.Some? ==> i <= close.value < |text|
    decreases |text| - i
  {
    if i >= |text| then None
    else if quote.Some? then
      if text[i] == '\\' then CloseAt(text, i + 2, depth, quote)
      else CloseAt(text, i + 1, depth, if Some(text[i]) == quote then None else quote)
    else if IsQuote(text[i]) then CloseAt(text, i + 1, depth, Some(text[i]))
    else if IsOpen(text[i]) then CloseAt(text, i + 1, depth + 1, None)
    else if IsClose(text[i]) then if depth <= 1 then Some(i) else CloseAt(text, i + 1, depth - 1, None)
    else CloseAt(text, i + 1, depth, None)
  }

  function Join(params: seq<string>): string {
    if params == [] then "" else if |params| == 1 then params[0] else params[0] + "," + Join(params[1..])
  }

  lemma {:induction false} PlainRun(text: string, i: nat, depth: nat, n: nat)
    requires i + n <= |text|
    requires forall j :: i <= j < i + n ==> !IsQuote(text[j]) && !IsOpen(text[j]) && !IsClose(text[j])
    ensures CloseAt(text, i, depth, None) == CloseAt(text, i + n, depth, None)
    decreases n
  {
    if n > 0 { PlainRun(text, i + 1, depth, n - 1); }
  }

  lemma {:induction false} JoinMore(done: seq<string>, last: string)
    ensures Join(done + [last]) == if done == [] then last else Join(done) + "," + last
  {
    if |done| > 1 {
      assert (done + [last])[1..] == done[1..] + [last];
      JoinMore(done[1..], last);
    } else if |done| == 1 {
      assert (done + [last])[1..] == [last];
    }
  }

  /** The parameters done so far and the open one, as they stand in the text. */
  function SoFar(text: string, from: nat, i: nat, done: seq<string>): string
    requires from <= i <= |text|
  {
    if done == [] then text[from..i] else Join(done) + "," + text[from..i]
  }

  /** One move keeps where the signature closes, until it closes there. */
  lemma MoveKeepsClose(text: string, i: nat, s: State)
    requires i < |text| && s.depth >= 1
    ensures match Next(text, i, s)
            case Skip(n, s') => s'.depth >= 1 && CloseAt(text, i, s.depth, s.quote) == CloseAt(text, i + n, s'.depth, s'.quote)
            case Split => CloseAt(text, i, s.depth, s.quote) == CloseAt(text, i + 1, s.depth, s.quote) && text[i] == ','
            case Close => CloseAt(text, i, s.depth, s.quote) == Some(i)
  {
    if s.quote.None? && Word(text, i) {
      forall j | i <= j < i + 6 ensures !IsQuote(text[j]) && !IsOpen(text[j]) && !IsClose(text[j]) {
        assert text[j] == text[i..i + 6][j - i] == LAMBDA[j - i];
      }
      PlainRun(text, i, s.depth, 6);
    }
  }

  ghost predicate Faithful(text: string, i: nat, from: nat, done: seq<string>, s: State)
    requires from <= i
  {
    var result, close := Scan(text, i, from, done, s), CloseAt(text, i, s.depth, s.quote);
    && (result.None? <==> close.None?)
    && (result.Some? ==> Join(result.value) == SoFar(text, from, close.value, done))
  }

  /** For every text: the scan fails exactly when the signature never closes; otherwise
      its parameters, joined by commas again, are exactly the text up to the close. */
  lemma {:induction false} ScanLosesNothing(text: string, i: nat, from: nat, done: seq<string>, s: State)
    requires from <= i && s.depth >= 1
    ensures Faithful(text, i, from, done, s)
    decreases |text| - i
  {
    if i < |text| {
      MoveKeepsClose(text, i, s);
      match Next(text, i, s)
      case Skip(n, s') => ScanLosesNothing(text, i + n, from, done, s');
      case Split =>
        ScanLosesNothing(text, i + 1, i + 1, done + [text[from..i]], s);
        SplitLosesNothing(text, i, from, done, s);
      case Close => JoinMore(done, text[from..i]);
    }
  }

  lemma SplitLosesNothing(text: string, i: nat, from: nat, done: seq<string>, s: State)
    requires from <= i < |text| && s.depth >= 1 && Next(text, i, s) == Split && text[i] == ','
    requires CloseAt(text, i, s.depth, s.quote) == CloseAt(text, i + 1, s.depth, s.quote)
    requires Faithful(text, i + 1, i + 1, done + [text[from..i]], s)
    ensures Faithful(text, i, from, done, s)
  {
    var close := CloseAt(text, i, s.depth, s.quote);
    if close.Some? { CommaJoins(text, from, i, close.value, done); }
  }

  lemma CommaJoins(text: string, from: nat, i: nat, close: nat, done: seq<string>)
    requires from <= i < close <= |text| && text[i] == ','
    ensures SoFar(text, i + 1, close, done + [text[from..i]]) == SoFar(text, from, close, done)
  {
    JoinMore(done, text[from..i]);
    assert text[from..close] == text[from..i] + ("," + text[i + 1..close]);
    if done != [] {
      var head, mid, tail := Join(done) + ",", text[from..i], "," + text[i + 1..close];
      assert (head + mid) + tail == head + (mid + tail);
    }
  }

  lemma FailsExactly(text: string, start: nat)
    ensures Scan(text, start, start, [], START).None? <==> CloseAt(text, start, 1, None).None?
    ensures Scan(text, start, start, [], START).Some? ==>
              Join(Scan(text, start, start, [], START).value) == text[start..CloseAt(text, start, 1, None).value]
  {
    ScanLosesNothing(text, start, start, [], START);
  }
}
