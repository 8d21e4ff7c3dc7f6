/**
 * The per-session record of registered operations and of a disconnect in
 * progress. A record is an object in the program, so it carries an identity.
 */
module SidLifecycle {
  import opened RconTypes

  datatype Rec = Rec(id: nat, active: nat, closing: bool)

  type Records = map<Sid, Rec>

  /** The sid has this very record. */
  predicate Attached(recs: Records, sid: Sid, id: nat) {
    sid in recs && recs[sid].id == id
  }

  predicate Accepts(recs: Records, sid: Sid) {
    sid !in recs || !recs[sid].closing
  }

  /** Entry of operation(sid), once accepted. */
  function Register(recs: Records, sid: Sid, newId: nat): Records
    requires Accepts(recs, sid)
  {
    var state := if sid in recs then recs[sid] else Rec(newId, 0, false);
    recs[sid := state.(active := state.active + 1)]
  }

  /** Exit of operation(sid). */
  function Deregister(recs: Records, sid: Sid): Records
    requires sid in recs && recs[sid].active > 0
  {
    var state := recs[sid].(active := recs[sid].active - 1);
    if state.active == 0 && !state.closing then recs - {sid} else recs[sid := state]
  }

  /** Entry of closing(sid): whoever finds the record closing only follows. */
  function MarkClosing(recs: Records, sid: Sid, newId: nat): Records {
    var state := if sid in recs then recs[sid] else Rec(newId, 0, false);
    recs[sid := state.(closing := true)]
  }

  /** Exit of the one closing(sid) that ran the cleanup body. */
  function Forget(recs: Records, sid: Sid, id: nat): Records {
    if Attached(recs, sid, id) then recs - {sid} else recs
  }

  /** A record exists only while it is used. */
  ghost predicate RecordsOk(recs: Records, nextId: nat) {
    && (forall sid :: sid in recs ==> recs[sid].id < nextId)
    && (forall sid :: sid in recs ==> recs[sid].active > 0 || recs[sid].closing)
    && (forall a, b :: a in recs && b in recs && recs[a].id == recs[b].id ==> a == b)
  }

  datatype Role = Closer | Follower

  class Lifecycle {
    var records: Records
    var nextId: nat

    ghost predicate Valid()
      reads this
    {
      RecordsOk(records, nextId)
    }

    constructor ()
      ensures Valid() && records == map[]
    {
      records, nextId := map[], 0;
    }

    method Enter(sid: Sid) returns (accepted: bool, id: nat)
      requires Valid()
      modifies this
      ensures Valid()
      ensures accepted <==> Accepts(old(records), sid)
      ensures accepted ==> records == Register(old(records), sid, old(nextId)) && Attached(records, sid, id)
      ensures !accepted ==> records == old(records)
    {
      id := nextId;
      accepted := sid !in records || !records[sid].closing;
      if accepted {
        var state := Rec(nextId, 0, false);
        if sid in records { state := records[sid]; } else { nextId := nextId + 1; }
        state := state.(active := state.active + 1);
        records := records[sid := state];
        id := state.id;
      }
    }

    method Exit(sid: Sid)
      requires Valid() && sid in records && records[sid].active > 0
      modifies this`records
      ensures Valid()
      ensures records == Deregister(old(records), sid)
    {
      var state := records[sid].(active := records[sid].active - 1);
      records := records[sid := state];
      if state.active == 0 && !state.closing {
        records := records - {sid};
        assert records == old(records) - {sid};
      }
    }

    method StartClosing(sid: Sid) returns (role: Role, id: nat)
      requires Valid()
      modifies this
      ensures Valid()
      ensures records == MarkClosing(old(records), sid, old(nextId))
      ensures role == (if sid in old(records) && old(records)[sid].closing then Follower else Closer)
      ensures Attached(records, sid, id) && records[sid].closing
    {
      var state := Rec(nextId, 0, false);
      if sid in records { state := records[sid]; } else { nextId := nextId + 1; }
      role := if state.closing then Follower else Closer;
      id := state.id;
      records := records[sid := state.(closing := true)];
    }

    method FinishClosing(sid: Sid, id: nat)
      requires Valid()
      modifies this`records
      ensures Valid()
      ensures records == Forget(old(records), sid, id)
      ensures !Attached(records, sid, id)
    {
      if sid in records && records[sid].id == id {
        records := records - {sid};
      }
    }
  }
}
