/** The blocked-target set and the store operation gate, as values and as the objects that hold them. */
module DeletionGate {

  datatype Guards = Guards(entities: set<string>, pingTasks: set<nat>)

  predicate GuardsOk(g: Guards) { "" !in g.entities }

  predicate EntityBlocked(g: Guards, entity: string) { entity in g.entities }

  predicate TaskBlocked(g: Guards, task: nat) { task in g.pingTasks }

  /** The empty name is never blocked. */
  function RaiseEntity(g: Guards, entity: string): Guards {
    if entity == "" then g else g.(entities := g.entities + {entity})
  }

  function LowerEntity(g: Guards, entity: string): Guards {
    g.(entities := g.entities - {entity})
  }

  function RaiseTasks(g: Guards, ids: seq<nat>): Guards {
    g.(pingTasks := g.pingTasks + set i | i in ids)
  }

  function LowerTasks(g: Guards, ids: seq<nat>): Guards {
    g.(pingTasks := g.pingTasks - set i | i in ids)
  }

  const GATE_WEIGHT := 1024

  /** Who holds a lease of weight one and who holds the whole weight. */
  datatype Gate = Gate(shared: set<nat>, exclusive: set<nat>)

  function Weight(g: Gate): nat { |g.shared| + GATE_WEIGHT * |g.exclusive| }

  /** The semaphore never hands out more than its weight. */
  predicate GateOk(g: Gate) { Weight(g) <= GATE_WEIGHT }

  predicate SharedFree(g: Gate) { Weight(g) + 1 <= GATE_WEIGHT }

  predicate ExclusiveFree(g: Gate) { Weight(g) + GATE_WEIGHT <= GATE_WEIGHT }

  /** Up to 1024 writers may be in at once while no deletion is, and a deletion only when nobody is. */
  lemma WhoMayEnter(g: Gate)
    requires GateOk(g)
    ensures SharedFree(g) <==> g.exclusive == {} && |g.shared| < 1024
    ensures ExclusiveFree(g) <==> g.exclusive == {} && g.shared == {}
  {
    if p :| p in g.exclusive { ExclusiveIsAlone(g, p); }
  }

  /** A holder of the whole weight is alone. */
  lemma ExclusiveIsAlone(g: Gate, p: nat)
    requires GateOk(g) && p in g.exclusive
    ensures g.shared == {} && g.exclusive == {p}
  {
    assert g.exclusive == {p} + (g.exclusive - {p});
    assert |g.exclusive| == 1 + |g.exclusive - {p}|;
  }

  class DeletionGuards {
    var entities: set<string>
    var pingTasks: set<nat>

    ghost function Contents(): Guards
      reads this
    {
      Guards(entities, pingTasks)
    }

    /** The empty name is never blocked. */
    ghost predicate Valid()
      reads this
    {
      GuardsOk(Contents())
    }

    constructor ()
      ensures Valid() && Contents() == Guards({}, {})
    {
      entities, pingTasks := {}, {};
    }

    method BlockEntityWrites(entity: string)
      requires Valid()
      modifies this`entities
      ensures Valid() && (EntityBlocked(Contents(), entity) <==> entity != "")
      ensures Contents() == RaiseEntity(old(Contents()), entity)
    {
      if entity == "" { return; }
      entities := entities + {entity};
    }

    method UnblockEntityWrites(entity: string)
      requires Valid()
      modifies this`entities
      ensures Valid() && !EntityBlocked(Contents(), entity)
      ensures Contents() == LowerEntity(old(Contents()), entity)
    {
      entities := entities - {entity};
    }

    method BlockPingTaskWrites(ids: seq<nat>)
      requires Valid()
      modifies this`pingTasks
      ensures Valid()
      ensures Contents() == RaiseTasks(old(Contents()), ids)
    {
      for i := 0 to |ids|
        invariant pingTasks == old(pingTasks) + set j | j in ids[..i]
      {
        pingTasks := pingTasks + {ids[i]};
      }
      assert ids[..|ids|] == ids;
    }

    method UnblockPingTaskWrites(ids: seq<nat>)
      requires Valid()
      modifies this`pingTasks
      ensures Valid()
      ensures Contents() == LowerTasks(old(Contents()), ids)
    {
      for i := 0 to |ids|
        invariant pingTasks == old(pingTasks) - set j | j in ids[..i]
      {
        pingTasks := pingTasks - {ids[i]};
      }
      assert ids[..|ids|] == ids;
    }
  }

  /** The weighted semaphore: a counter of free weight, with its holders for the proof. */
  class OperationGate {
    var free: int
    ghost var holders: Gate

    ghost predicate Valid()
      reads this
    {
      GateOk(holders) && free == GATE_WEIGHT - Weight(holders)
    }

    constructor ()
      ensures Valid() && holders == Gate({}, {})
    {
      free, holders := GATE_WEIGHT, Gate({}, {});
    }

    method TryAcquire(p: nat) returns (ok: bool)
      requires Valid() && p !in holders.exclusive
      modifies this
      ensures Valid() && ok == ExclusiveFree(old(holders))
      ensures holders == if ok then old(holders).(exclusive := {p}) else old(holders)
      ensures ok ==> holders.shared == {}
    {
      ok := free >= GATE_WEIGHT;
      if ok {
        free := free - GATE_WEIGHT;
        holders := holders.(exclusive := holders.exclusive + {p});
        assert holders.exclusive == {p};
      }
    }

    method TryAcquireShared(p: nat) returns (ok: bool)
      requires Valid() && p !in holders.shared
      modifies this
      ensures Valid() && ok == SharedFree(old(holders))
      ensures holders == if ok then old(holders).(shared := old(holders).shared + {p}) else old(holders)
      ensures ok ==> holders.exclusive == {}
    {
      ok := free >= 1;
      if ok {
        if q :| q in holders.exclusive { ExclusiveIsAlone(holders, q); }
        free := free - 1;
        holders := holders.(shared := holders.shared + {p});
      }
    }

    method Release(p: nat)
      requires Valid() && p in holders.exclusive
      modifies this
      ensures Valid() && holders == Gate({}, {})
    {
      ExclusiveIsAlone(holders, p);
      free := free + GATE_WEIGHT;
      holders := holders.(exclusive := holders.exclusive - {p});
    }

    method ReleaseShared(p: nat)
      requires Valid() && p in holders.shared
      modifies this
      ensures Valid() && holders == old(holders).(shared := old(holders).shared - {p})
    {
      free := free + 1;
      holders := holders.(shared := holders.shared - {p});
    }
  }
}
