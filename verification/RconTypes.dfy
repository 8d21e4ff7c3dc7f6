/** The vocabulary shared by the RCON modules. */
module RconTypes {
  /** A Socket.IO session id. */
  type Sid = nat

  /** A handler thread; it doubles as the identity of the ticket that thread queues. */
  type Tid = nat

  /** A game instance on a host. */
  datatype Key = Key(host: int, instance: int)

  /** What one session holds for one target. */
  datatype Slot = Slot(sid: Sid, key: Key)

  datatype Owner = Individual | Fleet

  predicate Less(a: Key, b: Key) {
    a.host < b.host || (a.host == b.host && a.instance < b.instance)
  }

  ghost predicate Ascending(keys: seq<Key>) {
    forall i, j :: 0 <= i < j < |keys| ==> Less(keys[i], keys[j])
  }

  ghost predicate Lists(keys: seq<Key>, s: set<Key>) {
    && (forall k :: k in keys <==> k in s)
    && (forall i, j :: 0 <= i < j < |keys| ==> keys[i] != keys[j])
  }

  lemma LeastExists(s: set<Key>)
    requires s != {}
    ensures exists k :: k in s && forall j :: j in s ==> j == k || Less(k, j)
  {
    var k :| k in s;
    var rest := s - {k};
    if rest == {} {
      assert s == {k};
    } else {
      LeastExists(rest);
      var m :| m in rest && forall j :: j in rest ==> j == m || Less(m, j);
      assert forall j :: j in s ==> j == k || j in rest;
      var least := if Less(k, m) then k else m;
      assert least in s && forall j :: j in s ==> j == least || Less(least, j);
    }
  }

  /** `sorted(...)` over a set of target keys. */
  ghost function SortKeys(s: set<Key>): (keys: seq<Key>)
    ensures Ascending(keys)
    ensures Lists(keys, s)
  {
    if s == {} then []
    else
      LeastExists(s);
      var k :| k in s && forall j :: j in s ==> j == k || Less(k, j);
      [k] + SortKeys(s - {k})
  }
}
