// Requests that wait for an answer, in the order they were made: what the permission bridge and the ACP
// permission handler both keep.
module Requests {
  import opened Wrappers

  // createId is a fresh-name supply.
  type ReqId = nat

  datatype Ticket<+D> = Ticket(id: ReqId, what: D)

  function Find<D>(ts: seq<Ticket<D>>, id: ReqId): Option<Ticket<D>> {
    if ts == [] then None else if ts[0].id == id then Some(ts[0]) else Find(ts[1..], id)
  }

  function Remove<D>(ts: seq<Ticket<D>>, id: ReqId): seq<Ticket<D>> {
    if ts == [] then [] else if ts[0].id == id then ts[1..] else [ts[0]] + Remove(ts[1..], id)
  }

  ghost function IdSet<D(!new)>(ts: seq<Ticket<D>>): set<ReqId> {
    set i | 0 <= i < |ts| :: ts[i].id
  }

  predicate Unique<D>(ts: seq<Ticket<D>>) {
    forall i, j :: 0 <= i < j < |ts| ==> ts[i].id != ts[j].id
  }

  lemma {:induction false} RemoveStore<D(!new)>(ts: seq<Ticket<D>>, id: ReqId)
    requires Unique(ts)
    ensures Unique(Remove(ts, id)) && IdSet(Remove(ts, id)) == IdSet(ts) - {id}
    ensures forall t :: t in Remove(ts, id) ==> t in ts
    ensures Find(ts, id).Some? <==> id in IdSet(ts)
    ensures Find(ts, id).Some? ==> Find(ts, id).value in ts && Find(ts, id).value.id == id
  {
    if ts != [] {
      RemoveStore(ts[1..], id);
      assert ts == [ts[0]] + ts[1..];
      IdSetCons(ts[0], ts[1..]);
      assert ts[0].id !in IdSet(ts[1..]);
      if ts[0].id != id {
        IdSetCons(ts[0], Remove(ts[1..], id));
      }
    }
  }

  lemma IdSetCons<D(!new)>(t: Ticket<D>, ts: seq<Ticket<D>>)
    ensures IdSet([t] + ts) == {t.id} + IdSet(ts)
  {
    assert forall i :: 0 <= i < |ts| ==> ([t] + ts)[i + 1] == ts[i];
    assert ([t] + ts)[0] == t;
  }

  lemma AddStore<D(!new)>(ts: seq<Ticket<D>>, t: Ticket<D>)
    requires Unique(ts) && t.id !in IdSet(ts)
    ensures Unique(ts + [t]) && IdSet(ts + [t]) == IdSet(ts) + {t.id}
  {
    assert (ts + [t])[|ts|] == t;
    assert forall i :: 0 <= i < |ts| ==> (ts + [t])[i] == ts[i];
  }
}
