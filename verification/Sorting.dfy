/** `sorted(...)` over a set. */
module Sorting {
  ghost predicate TotalOrder<T(!new)>(leq: (T, T) -> bool) {
    && (forall a, b :: leq(a, b) || leq(b, a))
    && (forall a, b, c :: leq(a, b) && leq(b, c) ==> leq(a, c))
  }

  ghost predicate Ascends<T>(leq: (T, T) -> bool, s: seq<T>) {
    forall i, j :: 0 <= i < j < |s| ==> leq(s[i], s[j])
  }

  predicate NoRepeats<T(==)>(s: seq<T>) {
    forall i, j :: 0 <= i < j < |s| ==> s[i] != s[j]
  }

  /** The members of the set in ascending order. */
  ghost predicate SortedOf<T(!new)>(leq: (T, T) -> bool, members: set<T>, s: seq<T>) {
    (forall x :: x in s <==> x in members) && NoRepeats(s) && Ascends(leq, s)
  }

  method Sort<T(==, !new)>(members: set<T>, leq: (T, T) -> bool) returns (s: seq<T>)
    requires TotalOrder(leq)
    ensures SortedOf(leq, members, s)
  {
    s := [];
    var todo := members;
    while todo != {}
      invariant todo <= members && SortedOf(leq, members - todo, s)
    {
      var x :| x in todo;
      s := Insert(s, x, leq, members - todo);
      assert members - todo + {x} == members - (todo - {x});
      todo := todo - {x};
    }
    assert members - todo == members;
  }

  method Insert<T(==, !new)>(s: seq<T>, x: T, leq: (T, T) -> bool, ghost members: set<T>) returns (r: seq<T>)
    requires TotalOrder(leq) && SortedOf(leq, members, s) && x !in members
    ensures SortedOf(leq, members + {x}, r)
  {
    var k := 0;
    while k < |s| && leq(s[k], x)
      invariant k <= |s| && forall i :: 0 <= i < k ==> leq(s[i], x)
    {
      k := k + 1;
    }
    r := s[..k] + [x] + s[k..];
    InsertKeeps(s, x, k, leq);
    assert forall y :: y in s <==> y in s[..k] || y in s[k..];
  }

  lemma InsertKeeps<T(!new)>(s: seq<T>, x: T, k: nat, leq: (T, T) -> bool)
    requires TotalOrder(leq) && Ascends(leq, s) && NoRepeats(s) && x !in s && k <= |s|
    requires (forall i :: 0 <= i < k ==> leq(s[i], x)) && (k < |s| ==> !leq(s[k], x))
    ensures var r := s[..k] + [x] + s[k..]; Ascends(leq, r) && NoRepeats(r)
  {
    var r := s[..k] + [x] + s[k..];
    assert forall i :: 0 <= i < |r| ==> r[i] == if i < k then s[i] else if i == k then x else s[i - 1];
    assert forall i :: k <= i < |s| ==> leq(x, s[i]);
  }

  // --- Text ------------------------------------------------------------------------------

  /** How strings compare: by character, a prefix first. */
  predicate AtMost(a: string, b: string) {
    a == "" || (b != "" && (a[0] < b[0] || (a[0] == b[0] && AtMost(a[1..], b[1..]))))
  }

  lemma {:induction false} AtMostTotal(a: string, b: string)
    ensures AtMost(a, b) || AtMost(b, a)
  {
    if a != "" && b != "" && a[0] == b[0] { AtMostTotal(a[1..], b[1..]); }
  }

  lemma {:induction false} AtMostChains(a: string, b: string, c: string)
    requires AtMost(a, b) && AtMost(b, c)
    ensures AtMost(a, c)
  {
    if a != "" && a[0] == b[0] && b[0] == c[0] { AtMostChains(a[1..], b[1..], c[1..]); }
  }

  /** A path as it is written, with slashes. */
  function Slashed(p: seq<string>): string {
    if p == [] then "" else if |p| == 1 then p[0] else p[0] + "/" + Slashed(p[1..])
  }

  predicate PathAtMost(p: seq<string>, q: seq<string>) {
    AtMost(Slashed(p), Slashed(q))
  }

  lemma PathsAreOrdered()
    ensures TotalOrder(PathAtMost)
  {
    forall a, b ensures PathAtMost(a, b) || PathAtMost(b, a) { AtMostTotal(Slashed(a), Slashed(b)); }
    forall a, b, c | PathAtMost(a, b) && PathAtMost(b, c) ensures PathAtMost(a, c) {
      AtMostChains(Slashed(a), Slashed(b), Slashed(c));
    }
  }
}
