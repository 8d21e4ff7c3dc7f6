/** Every run of one gate queue: mutual exclusion, arrival order, no stranded head. */
module FifoOrder {
  import opened RconTypes
  import opened FifoGate

  /** One key's queue with its history: who arrived, who entered the body, and
      who was cancelled while waiting. */
  datatype Line = Line(
    queue: seq<Tid>, asleep: set<Tid>, inside: set<Tid>,
    arrived: seq<Tid>, entered: seq<Tid>, cancelled: set<Tid>)

  datatype Event = Come(t: Tid) | Look(t: Tid) | Stir(t: Tid) | Cancel(t: Tid) | Leave(t: Tid)

  ghost predicate Can(l: Line, e: Event) {
    match e
    case Come(t) => t !in l.arrived
    case Look(t) => t in l.queue && t !in l.inside && t !in l.asleep
    case Stir(t) => t in l.asleep
    case Cancel(t) => t in l.queue && t !in l.inside
    case Leave(t) => t in l.inside
  }

  /** Leave the wait loop at the head of the queue, else sleep. */
  function TryEnter(l: Line, t: Tid): Line
    requires l.queue != []
  {
    if l.queue[0] == t then l.(inside := l.inside + {t}, entered := l.entered + [t])
    else l.(asleep := l.asleep + {t})
  }

  /** Removing a ticket notifies everybody who sleeps. */
  function Remove(l: Line, t: Tid): Line {
    l.(queue := Without(l.queue, t), asleep := {}, inside := l.inside - {t})
  }

  ghost function Occurs(l: Line, e: Event): Line
    requires Can(l, e)
  {
    match e
    case Come(t) => TryEnter(l.(queue := l.queue + [t], arrived := l.arrived + [t]), t)
    case Look(t) => TryEnter(l, t)
    case Stir(t) => l.(asleep := l.asleep - {t})
    case Cancel(t) => Remove(l, t).(cancelled := l.cancelled + {t})
    case Leave(t) => Remove(l, t)
  }

  ghost predicate RunOf(lines: seq<Line>, events: seq<Event>) {
    && |lines| == |events| + 1
    && lines[0] == Line([], {}, {}, [], [], {})
    && forall i :: 0 <= i < |events| ==> Can(lines[i], events[i]) && lines[i + 1] == Occurs(lines[i], events[i])
  }

  function Staying(arrived: seq<Tid>, cancelled: set<Tid>): seq<Tid> {
    if arrived == [] then []
    else if arrived[0] in cancelled then Staying(arrived[1..], cancelled)
    else [arrived[0]] + Staying(arrived[1..], cancelled)
  }

  function StillWaiting(l: Line): seq<Tid> {
    if l.queue != [] && l.queue[0] in l.inside then l.queue[1..] else l.queue
  }

  ghost predicate LineOk(l: Line) {
    && NoDup(l.queue) && NoDup(l.arrived)
    && (forall t :: t in l.queue ==> t in l.arrived)
    && (forall t :: t in l.cancelled ==> t in l.arrived && t !in l.queue)
    && (forall t :: t in l.inside ==> l.queue != [] && t == l.queue[0])
    && (forall t :: t in l.asleep ==> t in l.queue && t != l.queue[0] && t !in l.inside)
    && Staying(l.arrived, l.cancelled) == l.entered + StillWaiting(l)
  }

  lemma {:induction false} StayingAppend(a: seq<Tid>, t: Tid, cancelled: set<Tid>)
    requires t !in cancelled
    ensures Staying(a + [t], cancelled) == Staying(a, cancelled) + [t]
    decreases |a|
  {
    if a != [] {
      assert (a + [t])[1..] == a[1..] + [t];
      StayingAppend(a[1..], t, cancelled);
    }
  }

  lemma {:induction false} StayingMembers(a: seq<Tid>, cancelled: set<Tid>)
    requires NoDup(a)
    ensures forall u :: u in Staying(a, cancelled) <==> u in a && u !in cancelled
    ensures NoDup(Staying(a, cancelled))
    decreases |a|
  {
    if a != [] {
      assert a[0] !in a[1..];
      StayingMembers(a[1..], cancelled);
      assert forall u :: u in a <==> u == a[0] || u in a[1..];
      var rest := Staying(a[1..], cancelled);
      if a[0] !in cancelled {
        forall i, j | 0 <= i < j < |[a[0]] + rest| ensures ([a[0]] + rest)[i] != ([a[0]] + rest)[j] {
          if i == 0 { assert rest[j - 1] in rest; }
        }
      }
    }
  }

  lemma {:induction false} StayingCancel(a: seq<Tid>, t: Tid, cancelled: set<Tid>)
    requires NoDup(a)
    ensures Staying(a, cancelled + {t}) == Without(Staying(a, cancelled), t)
    decreases |a|
  {
    if a != [] {
      assert a[0] !in a[1..];
      StayingCancel(a[1..], t, cancelled);
      StayingMembers(a[1..], cancelled);
      if a[0] == t {
        WithoutAbsent(Staying(a[1..], cancelled), t);
      }
    }
  }

  lemma {:induction false} WithoutAbsent(s: seq<Tid>, t: Tid)
    requires t !in s
    ensures Without(s, t) == s
    decreases |s|
  {
    if s != [] { WithoutAbsent(s[1..], t); }
  }

  lemma {:induction false} WithoutAppend(a: seq<Tid>, b: seq<Tid>, t: Tid)
    requires t !in a
    ensures Without(a + b, t) == a + Without(b, t)
    decreases |a|
  {
    if a == [] {
      assert a + b == b;
    } else {
      assert (a + b)[1..] == a[1..] + b;
      WithoutAppend(a[1..], b, t);
    }
  }

  lemma Apart(a: seq<Tid>, b: seq<Tid>, t: Tid)
    requires NoDup(a + b) && t in b
    ensures t !in a
  {
    var j :| 0 <= j < |b| && b[j] == t;
    forall i | 0 <= i < |a| ensures a[i] != t {
      assert (a + b)[i] != (a + b)[|a| + j];
    }
  }

  lemma EnterKeeps(l: Line, t: Tid)
    requires NoDup(l.queue) && NoDup(l.arrived)
    requires forall u :: u in l.queue ==> u in l.arrived
    requires forall u :: u in l.cancelled ==> u in l.arrived && u !in l.queue
    requires forall u :: u in l.inside ==> l.queue != [] && u == l.queue[0]
    requires forall u :: u in l.asleep ==> u in l.queue && u != l.queue[0] && u !in l.inside
    requires Staying(l.arrived, l.cancelled) == l.entered + StillWaiting(l)
    requires t in l.queue && t !in l.inside && t !in l.asleep
    ensures LineOk(TryEnter(l, t))
  {
    if l.queue[0] == t {
      assert l.queue == [t] + l.queue[1..];
      assert l.entered + l.queue == (l.entered + [t]) + l.queue[1..];
    }
  }

  lemma CancelKeeps(l: Line, t: Tid)
    requires LineOk(l) && Can(l, Cancel(t))
    ensures LineOk(Occurs(l, Cancel(t)))
  {
    var l' := Occurs(l, Cancel(t));
    WithoutMembers(l.queue, t);
    StayingCancel(l.arrived, t, l.cancelled);
    StayingMembers(l.arrived, l.cancelled);
    var all := Staying(l.arrived, l.cancelled);
    var w := StillWaiting(l);
    assert t in w by {
      var i :| 0 <= i < |l.queue| && l.queue[i] == t;
      if w != l.queue { assert i > 0; assert w[i - 1] == t; }
    }
    Apart(l.entered, w, t);
    WithoutAppend(l.entered, w, t);
    if w != l.queue {
      assert l.queue[0] != t;
      assert Without(l.queue, t) == [l.queue[0]] + Without(l.queue[1..], t);
    }
    assert StillWaiting(l') == Without(w, t);
  }

  lemma EventKeepsLine(l: Line, e: Event)
    requires LineOk(l) && Can(l, e)
    ensures LineOk(Occurs(l, e))
  {
    match e
    case Come(t) =>
      assert t !in l.queue && t !in l.cancelled;
      StayingAppend(l.arrived, t, l.cancelled);
      var l1 := l.(queue := l.queue + [t], arrived := l.arrived + [t]);
      assert StillWaiting(l1) == StillWaiting(l) + [t] by {
        if l.queue != [] && l.queue[0] in l.inside {
          assert (l.queue + [t])[1..] == l.queue[1..] + [t];
        }
      }
      EnterKeeps(l1, t);
    case Look(t) => EnterKeeps(l, t);
    case Stir(t) =>
    case Cancel(t) => CancelKeeps(l, t);
    case Leave(t) =>
      assert Without(l.queue, t) == l.queue[1..];
      assert forall u :: u in l.queue[1..] ==> u in l.queue;
      assert l.inside - {t} == {};
  }

  lemma {:induction false} RunKeepsLine(lines: seq<Line>, events: seq<Event>, i: nat)
    requires RunOf(lines, events) && i < |lines|
    ensures LineOk(lines[i])
  {
    if i > 0 {
      RunKeepsLine(lines, events, i - 1);
      EventKeepsLine(lines[i - 1], events[i - 1]);
    }
  }

  /** One thread at a time, and it is the head of the queue. */
  lemma MutualExclusion(lines: seq<Line>, events: seq<Event>, i: nat, t: Tid, u: Tid)
    requires RunOf(lines, events) && i < |lines|
    requires t in lines[i].inside && u in lines[i].inside
    ensures t == u && lines[i].queue != [] && lines[i].queue[0] == t
  {
    RunKeepsLine(lines, events, i);
  }

  /** Threads enter in arrival order: leaving out those cancelled while they
      waited, the entries so far are a prefix of the arrivals so far. */
  lemma ArrivalOrder(lines: seq<Line>, events: seq<Event>, i: nat)
    requires RunOf(lines, events) && i < |lines|
    ensures lines[i].entered <= Staying(lines[i].arrived, lines[i].cancelled)
    ensures forall t :: t in lines[i].cancelled ==> t !in lines[i].entered
  {
    RunKeepsLine(lines, events, i);
    StayingMembers(lines[i].arrived, lines[i].cancelled);
    assert forall t :: t in lines[i].entered ==> t in Staying(lines[i].arrived, lines[i].cancelled);
  }

  /** Nobody is stranded: whoever is first in a queue is in the body or awake,
      also right after the ticket before it was cancelled. */
  lemma HeadIsNeverStranded(lines: seq<Line>, events: seq<Event>, i: nat)
    requires RunOf(lines, events) && i < |lines|
    requires lines[i].queue != []
    ensures lines[i].queue[0] in lines[i].inside
            || (Can(lines[i], Look(lines[i].queue[0]))
                && lines[i].queue[0] in Occurs(lines[i], Look(lines[i].queue[0])).inside)
  {
    RunKeepsLine(lines, events, i);
  }

  // --- The line is the gate's -----------------------------------------------------------

  /** What the event does to the gate's tickets. */
  function GateAfter<K>(q: map<K, seq<Tid>>, k: K, e: Event): map<K, seq<Tid>> {
    match e
    case Come(t) => Arrive(q, k, t)
    case Cancel(t) => Depart(q, k, t)
    case Leave(t) => Depart(q, k, t)
    case _ => q
  }

  /** One event on the gate is that event on the line, and whoever looks enters exactly as
      the gate's guard says. */
  lemma LineIsTheGate<K>(q: map<K, seq<Tid>>, k: K, l: Line, e: Event)
    requires LineOk(l) && Can(l, e) && QueueOf(q, k) == l.queue
    ensures QueueOf(GateAfter(q, k, e), k) == Occurs(l, e).queue
    ensures e.Come? || e.Look? ==> (e.t in Occurs(l, e).inside <==> IsHead(GateAfter(q, k, e), k, e.t))
  {
  }

  function GateRun<K>(k: K, events: seq<Event>): map<K, seq<Tid>> {
    if events == [] then map[]
    else GateAfter(GateRun(k, events[..|events| - 1]), k, events[|events| - 1])
  }

  /** So any run of a line is the run of a gate, and what is proved of the line holds of
      its queue and of who is let in. */
  lemma {:induction false} RunsTheGate<K>(lines: seq<Line>, events: seq<Event>, k: K, i: nat)
    requires RunOf(lines, events) && i < |lines|
    ensures QueueOf(GateRun(k, events[..i]), k) == lines[i].queue
    ensures i > 0 && (events[i - 1].Come? || events[i - 1].Look?) ==>
              (events[i - 1].t in lines[i].inside <==> IsHead(GateRun(k, events[..i]), k, events[i - 1].t))
  {
    if i > 0 {
      RunsTheGate(lines, events, k, i - 1);
      RunKeepsLine(lines, events, i - 1);
      assert events[..i][..i - 1] == events[..i - 1];
      LineIsTheGate(GateRun(k, events[..i - 1]), k, lines[i - 1], events[i - 1]);
    }
  }
}
