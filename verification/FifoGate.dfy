/**
 * The FIFO ticket gate. The target gate keys its queues by target, the fleet
 * gate by session; the code is the same, so it is modelled once, for any key.
 */
module FifoGate {
  import opened RconTypes

  ghost predicate NoDup(s: seq<Tid>) {
    forall i, j :: 0 <= i < j < |s| ==> s[i] != s[j]
  }

  function QueueOf<K>(q: map<K, seq<Tid>>, k: K): seq<Tid> {
    if k in q then q[k] else []
  }

  /** deque.remove */
  function Without(s: seq<Tid>, t: Tid): seq<Tid> {
    if s == [] then [] else if s[0] == t then s[1..] else [s[0]] + Without(s[1..], t)
  }

  function Arrive<K>(q: map<K, seq<Tid>>, k: K, t: Tid): map<K, seq<Tid>> {
    q[k := QueueOf(q, k) + [t]]
  }

  function Depart<K>(q: map<K, seq<Tid>>, k: K, t: Tid): map<K, seq<Tid>> {
    var rest := Without(QueueOf(q, k), t);
    if rest == [] then q - {k} else q[k := rest]
  }

  predicate IsHead<K>(q: map<K, seq<Tid>>, k: K, t: Tid) {
    QueueOf(q, k) != [] && QueueOf(q, k)[0] == t
  }

  /** A key has an entry exactly while somebody queues there, and holds no ticket twice. */
  ghost predicate GateOk<K(!new)>(q: map<K, seq<Tid>>) {
    forall k :: k in q ==> q[k] != [] && NoDup(q[k])
  }

  lemma {:induction false} WithoutMembers(s: seq<Tid>, t: Tid)
    requires NoDup(s)
    ensures NoDup(Without(s, t))
    ensures forall u :: u in Without(s, t) <==> u in s && u != t
    ensures s != [] && s[0] != t ==> Without(s, t) != [] && Without(s, t)[0] == s[0]
    decreases |s|
  {
    if s != [] {
      assert forall u :: u in s <==> u == s[0] || u in s[1..];
      if s[0] == t {
        assert forall u :: u in s[1..] ==> u != t;
      } else {
        WithoutMembers(s[1..], t);
        var w := Without(s[1..], t);
        assert s[0] !in w;
        forall i, j | 0 <= i < j < |[s[0]] + w| ensures ([s[0]] + w)[i] != ([s[0]] + w)[j] {
          if i == 0 { assert w[j - 1] in w; }
        }
      }
    }
  }

  lemma ArriveKeeps<K(!new)>(q: map<K, seq<Tid>>, k: K, t: Tid)
    requires GateOk(q) && t !in QueueOf(q, k)
    ensures GateOk(Arrive(q, k, t))
    ensures forall j, u :: u in QueueOf(Arrive(q, k, t), j) <==> u in QueueOf(q, j) || (j == k && u == t)
    ensures QueueOf(q, k) != [] ==> QueueOf(Arrive(q, k, t), k)[0] == QueueOf(q, k)[0]
  {
  }

  lemma DepartKeeps<K(!new)>(q: map<K, seq<Tid>>, k: K, t: Tid)
    requires GateOk(q)
    ensures GateOk(Depart(q, k, t))
    ensures forall j, u :: u in QueueOf(Depart(q, k, t), j) <==> u in QueueOf(q, j) && !(j == k && u == t)
    ensures forall j :: j != k ==> QueueOf(Depart(q, k, t), j) == QueueOf(q, j)
    ensures QueueOf(q, k) != [] && QueueOf(q, k)[0] != t ==> IsHead(Depart(q, k, t), k, QueueOf(q, k)[0])
  {
    WithoutMembers(QueueOf(q, k), t);
  }

  /** The ticket map of one gate module and the operations on it. */
  class Gate<K(==, !new)> {
    var tickets: map<K, seq<Tid>>

    ghost predicate Valid()
      reads this
    {
      GateOk(tickets)
    }

    constructor ()
      ensures Valid() && tickets == map[]
    {
      tickets := map[];
    }

    /** Take a ticket; `entered` says the wait loop was not needed. */
    method Join(k: K, t: Tid) returns (entered: bool)
      requires Valid() && t !in QueueOf(tickets, k)
      modifies this
      ensures Valid()
      ensures tickets == Arrive(old(tickets), k, t)
      ensures entered <==> QueueOf(old(tickets), k) == []
    {
      ArriveKeeps(tickets, k, t);
      var queue := if k in tickets then tickets[k] else [];
      queue := queue + [t];
      tickets := tickets[k := queue];
      entered := queue[0] == t;
    }

    /** One evaluation of the wait loop's guard, on waking up. */
    method Recheck(k: K, t: Tid) returns (entered: bool)
      requires Valid() && t in QueueOf(tickets, k)
      ensures entered <==> IsHead(tickets, k, t)
    {
      entered := tickets[k][0] == t;
    }

    /** The exit of the body, and the exit of a cancelled wait: every waiter is notified. */
    method Quit(k: K, t: Tid)
      requires Valid() && t in QueueOf(tickets, k)
      modifies this
      ensures Valid()
      ensures tickets == Depart(old(tickets), k, t)
      ensures forall j, u :: u in QueueOf(tickets, j)
                             <==> u in QueueOf(old(tickets), j) && !(j == k && u == t)
    {
      DepartKeeps(tickets, k, t);
      var queue := Without(tickets[k], t);
      if queue == [] {
        tickets := tickets - {k};
      } else {
        tickets := tickets[k := queue];
      }
    }
  }
}
