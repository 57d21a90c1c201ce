/** Runs of the deletion protocol: what a writer alone stores, and how deleting twice reopens a client or task. */
module DeletionRuns {
  import opened DeletionGate
  import opened DeletionProtocol

  /** Steps of writers, new and old. */
  predicate WriterAction(a: Action) { a.CallReport? || a.CallPing? || a.Move? || a.Cancel? }

  predicate WriterActions(actions: seq<Action>) { forall i :: 0 <= i < |actions| ==> WriterAction(actions[i]) }

  ghost predicate Reaches(m: Machine, u: Machine) { exists actions :: Run(m, actions) == u }

  ghost predicate ReachesByWriters(m: Machine, u: Machine) {
    exists actions :: WriterActions(actions) && Run(m, actions) == u
  }

  lemma {:induction false} RunAppends(m: Machine, a: seq<Action>, b: seq<Action>)
    ensures Run(m, a + b) == Run(Run(m, a), b)
  {
    if b == [] {
      assert a + b == a;
    } else {
      RunAppends(m, a, b[..|b| - 1]);
      assert (a + b)[..|a + b| - 1] == a + b[..|b| - 1];
    }
  }

  lemma RunOne(m: Machine, a: Action)
    ensures Run(m, [a]) == Next(m, a)
  {
    assert [a][..0] == [] && Run(m, []) == m;
  }

  lemma ReachesSelf(m: Machine)
    ensures Reaches(m, m) && ReachesByWriters(m, m)
  {
    assert WriterActions([]) && Run(m, []) == m;
  }

  lemma ReachesNext(m: Machine, u: Machine, a: Action)
    requires Reaches(m, u)
    ensures Reaches(m, Next(u, a))
  {
    var actions :| Run(m, actions) == u;
    RunAppends(m, actions, [a]);
    RunOne(u, a);
    assert Run(m, actions + [a]) == Next(u, a);
  }

  lemma ReachesThrough(m: Machine, u: Machine, v: Machine)
    requires Reaches(m, u) && Reaches(u, v)
    ensures Reaches(m, v)
  {
    var first :| Run(m, first) == u;
    var second :| Run(u, second) == v;
    RunAppends(m, first, second);
    assert Run(m, first + second) == v;
  }

  lemma WritersReach(m: Machine, u: Machine)
    requires ReachesByWriters(m, u)
    ensures Reaches(m, u)
  {
    var actions :| WriterActions(actions) && Run(m, actions) == u;
  }

  lemma WritersThrough(m: Machine, u: Machine, v: Machine)
    requires ReachesByWriters(m, u) && ReachesByWriters(u, v)
    ensures ReachesByWriters(m, v)
  {
    var first :| WriterActions(first) && Run(m, first) == u;
    var second :| WriterActions(second) && Run(u, second) == v;
    RunAppends(m, first, second);
    assert WriterActions(first + second) && Run(m, first + second) == v;
  }

  lemma WriterSteps(m: Machine, a: Action)
    requires WriterAction(a)
    ensures ReachesByWriters(m, Next(m, a))
  {
    RunOne(m, a);
    assert WriterActions([a]) && Run(m, [a]) == Next(m, a);
  }

  /******* A writer alone *******/

  /** No guard concerns the item. */
  ghost predicate Unguarded(g: Guards, i: Item) { forall s :: Concerns(i, s) ==> !Blocked(g, s) }

  lemma AdmittedIsUnguarded(g: Guards, i: Item)
    ensures Admits(g, i) <==> Unguarded(g, i)
  {
    assert Concerns(i, Client(i.entity));
    if i.task.PingTask? { assert Concerns(i, Ping(i.task.id)); }
  }

  /** The machine with one writer at a phase. */
  function At(m: Machine, p: nat, report: bool, phase: Phase): Machine {
    m.(writers := m.writers[p := Writer(report, phase)])
  }

  lemma AtTwice(m: Machine, p: nat, report: bool, a: Phase, b: Phase)
    ensures At(At(m, p, report, a), p, report, b) == At(m, p, report, b)
  {
    assert m.writers[p := Writer(report, a)][p := Writer(report, b)] == m.writers[p := Writer(report, b)];
  }

  function Passing(g: Guards, items: seq<Item>): seq<Item> {
    if items == [] then [] else Filter(g, items[0], []) + Passing(g, items[1..])
  }

  lemma {:induction false} PassingMembers(g: Guards, items: seq<Item>)
    ensures forall i :: i in Passing(g, items) <==> i in items && Admits(g, i)
  {
    if items != [] {
      PassingMembers(g, items[1..]);
      assert items == [items[0]] + items[1..];
    }
  }

  lemma {:induction false} PassingAll(g: Guards, items: seq<Item>)
    requires forall i :: i in items ==> Admits(g, i)
    ensures Passing(g, items) == items
  {
    if items != [] {
      PassingAll(g, items[1..]);
      assert items == [items[0]] + items[1..];
    }
  }

  /** The first check or the second. */
  function Check(first: bool, todo: seq<Item>, kept: seq<Item>): Phase {
    if first then FirstCheck(todo, kept) else Recheck(todo, kept)
  }

  lemma {:induction false} ChecksAll(m: Machine, p: nat, report: bool, first: bool, todo: seq<Item>, kept: seq<Item>)
    ensures ReachesByWriters(At(m, p, report, Check(first, todo, kept)),
                             At(m, p, report, Check(first, [], kept + Passing(m.guards, todo))))
    decreases |todo|
  {
    var here := At(m, p, report, Check(first, todo, kept));
    if todo == [] {
      assert kept + Passing(m.guards, todo) == kept;
      ReachesSelf(here);
    } else {
      var next := Filter(m.guards, todo[0], kept);
      AtTwice(m, p, report, Check(first, todo, kept), Check(first, todo[1..], next));
      WriterSteps(here, Move(p, 0));
      ChecksAll(m, p, report, first, todo[1..], next);
      assert next + Passing(m.guards, todo[1..]) == kept + Passing(m.guards, todo);
      WritersThrough(here, At(m, p, report, Check(first, todo[1..], next)),
                     At(m, p, report, Check(first, [], kept + Passing(m.guards, todo))));
    }
  }

  function Entities(items: seq<Item>): set<string> { set i | i in items :: i.entity }

  lemma {:induction false} PreparesAll(m: Machine, p: nat, todo: seq<Item>, batch: seq<Item>)
    ensures ReachesByWriters(At(m, p, true, Preparing(todo, batch)),
                             At(m.(states := m.states + Entities(todo)), p, true, Preparing([], batch)))
    decreases |todo|
  {
    var here := At(m, p, true, Preparing(todo, batch));
    if todo == [] {
      assert m.states + Entities(todo) == m.states;
      ReachesSelf(here);
    } else {
      var more := m.(states := m.states + {todo[0].entity});
      AtTwice(m, p, true, Preparing(todo, batch), Preparing(todo[1..], batch));
      WriterSteps(here, Move(p, 0));
      PreparesAll(more, p, todo[1..], batch);
      EntitiesFront(todo, m.states);
      WritersThrough(here, At(more, p, true, Preparing(todo[1..], batch)),
                     At(m.(states := m.states + Entities(todo)), p, true, Preparing([], batch)));
    }
  }

  lemma EntitiesFront(items: seq<Item>, states: set<string>)
    requires items != []
    ensures states + {items[0].entity} + Entities(items[1..]) == states + Entities(items)
  {
    assert items == [items[0]] + items[1..];
  }

  /** From the call to the lease: the writer waits with exactly the items that passed. */
  lemma WriterWaits(m: Machine, p: nat, report: bool, items: seq<Item>)
    requires NewProcess(m, p) && (report || |items| == 1)
    ensures var kept := Passing(m.guards, items);
            ReachesByWriters(m, At(m, p, report, if kept == [] then Returned else WaitLease(kept)))
  {
    var kept := Passing(m.guards, items);
    var end := if kept == [] then Returned else WaitLease(kept);
    var called := At(m, p, report, FirstCheck(items, []));
    var checked := At(m, p, report, FirstCheck([], kept));
    if report {
      WriterSteps(m, CallReport(p, items));
    } else {
      assert items == [items[0]];
      WriterSteps(m, CallPing(p, items[0]));
    }
    ChecksAll(m, p, report, true, items, []);
    assert [] + kept == kept;
    WritersThrough(m, called, checked);
    AtTwice(m, p, report, FirstCheck([], kept), end);
    WriterSteps(checked, Move(p, 0));
    WritersThrough(m, checked, At(m, p, report, end));
  }

  lemma LeaseGranted(m: Machine, p: nat, report: bool, kept: seq<Item>)
    requires m.gate == Gate({}, {})
    ensures Next(At(m, p, report, WaitLease(kept)), Move(p, 0))
         == At(m.(gate := Gate({p}, {})), p, report, Recheck(kept, []))
  {
    AtTwice(m, p, report, WaitLease(kept), Recheck(kept, []));
    assert m.gate.shared + {p} == {p};
  }

  /** With the lease: the second check lets the same items through. */
  lemma WriterRechecks(m: Machine, p: nat, report: bool, kept: seq<Item>)
    requires kept != [] && m.gate == Gate({}, {}) && Passing(m.guards, kept) == kept
    ensures ReachesByWriters(At(m, p, report, WaitLease(kept)),
                             At(m.(gate := Gate({p}, {})), p, report,
                                if report then Preparing(kept, kept) else Writing(kept)))
  {
    var here, held := At(m, p, report, WaitLease(kept)), m.(gate := Gate({p}, {}));
    var checked := At(held, p, report, Recheck([], kept));
    var end := if report then Preparing(kept, kept) else Writing(kept);
    LeaseGranted(m, p, report, kept);
    WriterSteps(here, Move(p, 0));
    ChecksAll(held, p, report, false, kept, []);
    assert [] + kept == kept;
    WritersThrough(here, At(held, p, report, Recheck(kept, [])), checked);
    AtTwice(held, p, report, Recheck([], kept), end);
    WriterSteps(checked, Move(p, 0));
    WritersThrough(here, checked, At(held, p, report, end));
  }

  lemma WriterPrepares(m: Machine, p: nat, kept: seq<Item>)
    ensures ReachesByWriters(At(m, p, true, Preparing(kept, kept)),
                             At(m.(states := m.states + Entities(kept)), p, true, Writing(kept)))
  {
    var here, ready := At(m, p, true, Preparing(kept, kept)), m.(states := m.states + Entities(kept));
    PreparesAll(m, p, kept, kept);
    AtTwice(ready, p, true, Preparing([], kept), Writing(kept));
    WriterSteps(At(ready, p, true, Preparing([], kept)), Move(p, 0));
    WritersThrough(here, At(ready, p, true, Preparing([], kept)), At(ready, p, true, Writing(kept)));
  }

  /** The write and the release. */
  lemma WriterLands(m: Machine, p: nat, report: bool, kept: seq<Item>)
    requires m.gate == Gate({p}, {})
    ensures ReachesByWriters(At(m, p, report, Writing(kept)),
                             At(m.(gate := Gate({}, {}), points := m.points + Stored(kept)), p, report, Returned))
  {
    var here, there := At(m, p, report, Writing(kept)), m.(points := m.points + Stored(kept));
    AtTwice(m, p, report, Writing(kept), Leaving);
    WriterSteps(here, Move(p, |kept|));
    AtTwice(there, p, report, Leaving, Returned);
    assert m.gate.shared - {p} == {};
    WriterSteps(At(there, p, report, Leaving), Move(p, 0));
    WritersThrough(here, At(there, p, report, Leaving), At(there.(gate := Gate({}, {})), p, report, Returned));
  }

  /** Some unguarded item of the entity is among the reports. */
  ghost predicate Reported(g: Guards, items: seq<Item>, entity: string) {
    exists i :: i in items && i.entity == entity && Unguarded(g, i)
  }

  /** What a whole call of a writer leaves, in the terms of its caller: exactly the items that no guard
      concerns, and of reports their traffic states. */
  ghost predicate Wrote(m: Machine, u: Machine, p: nat, report: bool, items: seq<Item>) {
    && u == m.(writers := m.writers[p := Writer(report, Returned)], points := u.points, states := u.states)
    && (forall i :: i in u.points <==> i in m.points || (i in items && Unguarded(m.guards, i)))
    && (forall e :: e in u.states <==> e in m.states || (report && Reported(m.guards, items, e)))
  }

  lemma WroteKept(m: Machine, u: Machine, p: nat, report: bool, items: seq<Item>)
    requires u == m.(writers := m.writers[p := Writer(report, Returned)], points := u.points, states := u.states)
    requires u.points == m.points + Stored(Passing(m.guards, items))
    requires u.states == if report then m.states + Entities(Passing(m.guards, items)) else m.states
    ensures Wrote(m, u, p, report, items)
  {
    var kept := Passing(m.guards, items);
    PassingMembers(m.guards, items);
    forall i ensures i in kept <==> i in items && Unguarded(m.guards, i) { AdmittedIsUnguarded(m.guards, i); }
    forall e ensures e in Entities(kept) <==> Reported(m.guards, items, e) {
      if Reported(m.guards, items, e) {
        var i :| i in items && i.entity == e && Unguarded(m.guards, i);
        assert i in kept;
      }
    }
  }

  /** A report batch or a ping that meets a free gate runs to its end and stores exactly what no guard
      concerns. */
  lemma WriterAlone(m: Machine, p: nat, report: bool, items: seq<Item>) returns (u: Machine)
    requires m.gate == Gate({}, {}) && NewProcess(m, p) && (report || |items| == 1)
    ensures ReachesByWriters(m, u) && Wrote(m, u, p, report, items)
  {
    var kept := Passing(m.guards, items);
    WriterWaits(m, p, report, items);
    if kept == [] {
      u := At(m, p, report, Returned);
      assert m.points + Stored(kept) == m.points && m.states + Entities(kept) == m.states;
    } else {
      PassingMembers(m.guards, items);
      PassingAll(m.guards, kept);
      u := KeptLand(m, p, report, kept);
      WritersThrough(m, At(m, p, report, WaitLease(kept)), u);
    }
    WroteKept(m, u, p, report, items);
  }

  lemma KeptLand(m: Machine, p: nat, report: bool, kept: seq<Item>) returns (u: Machine)
    requires kept != [] && m.gate == Gate({}, {}) && Passing(m.guards, kept) == kept
    ensures ReachesByWriters(At(m, p, report, WaitLease(kept)), u)
    ensures var states := if report then m.states + Entities(kept) else m.states;
            u == m.(writers := m.writers[p := Writer(report, Returned)], points := m.points + Stored(kept),
                    states := states)
  {
    var here, held := At(m, p, report, WaitLease(kept)), m.(gate := Gate({p}, {}));
    var states := if report then m.states + Entities(kept) else m.states;
    var ready := held.(states := states);
    WriterRechecks(m, p, report, kept);
    if report {
      WriterPrepares(held, p, kept);
      WritersThrough(here, At(held, p, true, Preparing(kept, kept)), At(ready, p, true, Writing(kept)));
    }
    WriterLands(ready, p, report, kept);
    u := At(ready.(gate := Gate({}, {}), points := m.points + Stored(kept)), p, report, Returned);
    WritersThrough(here, At(ready, p, report, Writing(kept)), u);
  }

  /******* What the guard decides *******/

  lemma {:induction false} WritersKeepClean(m: Machine, actions: seq<Action>, s: Subject)
    requires Inv(m) && Clean(m, s) && Blocked(m.guards, s) && WriterActions(actions)
    ensures Clean(Run(m, actions), s) && Blocked(Run(m, actions).guards, s)
  {
    if actions != [] {
      var front := actions[..|actions| - 1];
      assert forall i :: 0 <= i < |front| ==> front[i] == actions[i];
      WritersKeepClean(m, front, s);
      RunKeeps(m, front);
      NextStaysClean(Run(m, front), actions[|actions| - 1], s);
    }
  }

  /** An item that only this subject's guard could stop. */
  function ItemOf(s: Subject): Item {
    match s
    case Client(entity) => Item(entity, NoTask)
    case Ping(id) => Item("", PingTask(id))
  }

  /** With the guard down a late report of the client, or a late ping of the task, is stored. */
  lemma LateItemLands(m: Machine, s: Subject, p: nat) returns (u: Machine)
    requires m.gate == Gate({}, {}) && NewProcess(m, p) && GuardsOk(m.guards) && !Blocked(m.guards, s)
    ensures ReachesByWriters(m, u) && ItemOf(s) in u.points && (s.Client? ==> s.entity in u.states)
    ensures u.clients == m.clients && u.tasks == m.tasks
  {
    var item := ItemOf(s);
    u := WriterAlone(m, p, s.Client?, [item]);
    assert Unguarded(m.guards, item);
    assert item in [item];
    if s.Client? { assert Reported(m.guards, [item], s.entity); }
  }

  /** In a quiet system, whether writers can bring a deleted client or task back is decided by its guard
      alone: they never can if it is up, and one report or ping does if it is down. */
  lemma GuardDecides(m: Machine, s: Subject, p: nat)
    requires Inv(m) && Clean(m, s) && m.gate == Gate({}, {}) && NewProcess(m, p)
    ensures (forall u :: ReachesByWriters(m, u) ==> Clean(u, s)) <==> Blocked(m.guards, s)
  {
    if Blocked(m.guards, s) {
      forall u | ReachesByWriters(m, u) ensures Clean(u, s) {
        var actions :| WriterActions(actions) && Run(m, actions) == u;
        WritersKeepClean(m, actions, s);
      }
    } else {
      var u := LateItemLands(m, s, p);
      assert Concerns(ItemOf(s), s) && !NoPoint(u.points, s);
    }
  }

  /******* Deleting the same thing twice *******/

  /** The machine with one deletion at a stage. */
  function Stands(m: Machine, p: nat, target: Target, stage: Stage): Machine {
    m.(deleters := m.deleters[p := Deleter(target, stage)])
  }

  lemma StandsTwice(m: Machine, p: nat, target: Target, a: Stage, b: Stage)
    ensures Stands(Stands(m, p, target, a), p, target, b) == Stands(m, p, target, b)
  {
    assert m.deleters[p := Deleter(target, a)][p := Deleter(target, b)] == m.deleters[p := Deleter(target, b)];
  }

  function WithoutTasks(points: set<Item>, ids: seq<nat>): set<Item> {
    if ids == [] then points else WithoutTasks(WithoutTask(points, ids[0]), ids[1..])
  }

  lemma {:induction false} WithoutTasksMembers(points: set<Item>, ids: seq<nat>)
    ensures forall i :: i in WithoutTasks(points, ids) <==>
                          i in points && !(i.task.PingTask? && i.task.id in ids)
  {
    if ids != [] {
      WithoutTasksMembers(WithoutTask(points, ids[0]), ids[1..]);
      assert ids == [ids[0]] + ids[1..];
    }
  }

  lemma {:induction false} ErasesAll(m: Machine, p: nat, target: Target, todo: seq<nat>)
    requires target.TasksTarget?
    ensures Reaches(Stands(m, p, target, Erasing(todo)),
                    Stands(m.(points := WithoutTasks(m.points, todo)), p, target, Erasing([])))
    decreases |todo|
  {
    var here := Stands(m, p, target, Erasing(todo));
    ReachesSelf(here);
    if todo != [] {
      var less := m.(points := WithoutTask(m.points, todo[0]));
      StandsTwice(m, p, target, Erasing(todo), Erasing(todo[1..]));
      ReachesNext(here, here, Advance(p, true));
      ErasesAll(less, p, target, todo[1..]);
      ReachesThrough(here, Stands(less, p, target, Erasing(todo[1..])),
                     Stands(m.(points := WithoutTasks(m.points, todo)), p, target, Erasing([])));
    }
  }

  /** Nothing of the target is left, and nothing else is touched. */
  ghost predicate Purged(m: Machine, u: Machine, target: Target) {
    && (forall i :: i in u.points <==> i in m.points && !exists s :: Covers(target, s) && Concerns(i, s))
    && (forall e :: e in u.states <==> e in m.states && target != ClientTarget(e))
  }

  lemma PurgedClient(m: Machine, u: Machine, entity: string)
    requires u.points == WithoutEntity(m.points, entity) && u.states == m.states - {entity}
    ensures Purged(m, u, ClientTarget(entity))
  {
    forall i: Item | i.entity == entity ensures exists s :: Covers(ClientTarget(entity), s) && Concerns(i, s) {
      assert Covers(ClientTarget(entity), Client(entity)) && Concerns(i, Client(entity));
    }
  }

  lemma PurgedTasks(m: Machine, u: Machine, ids: seq<nat>)
    requires u.points == WithoutTasks(m.points, ids) && u.states == m.states
    ensures Purged(m, u, TasksTarget(ids))
  {
    WithoutTasksMembers(m.points, ids);
    forall i: Item | i.task.PingTask? && i.task.id in ids
      ensures exists s :: Covers(TasksTarget(ids), s) && Concerns(i, s)
    {
      assert Covers(TasksTarget(ids), Ping(i.task.id)) && Concerns(i, Ping(i.task.id));
    }
  }

  /** From the call to the exclusive lease. */
  lemma DeletionLeases(m: Machine, target: Target, p: nat) returns (u: Machine)
    requires m.gate == Gate({}, {}) && NewProcess(m, p) && target != TasksTarget([])
    ensures Reaches(m, u)
    ensures u == Stands(m.(guards := Raise(m.guards, target), gate := Gate({}, {p})), p, target,
                        if target.ClientTarget? then Holding else Erasing(target.ids))
  {
    var a := Advance(p, true);
    var m1 := Next(m, CallDelete(p, target));
    var m2 := Next(m1, a);
    ReachesSelf(m);
    ReachesNext(m, m, CallDelete(p, target));
    ReachesNext(m, m1, a);
    StandsTwice(m, p, target, Called, WaitExclusive);
    var raised := m.(guards := Raise(m.guards, target));
    assert m2 == Stands(raised, p, target, WaitExclusive);
    ReachesNext(m, m2, a);
    StandsTwice(raised, p, target, WaitExclusive, if target.ClientTarget? then Holding else Erasing(target.ids));
    assert m.gate.exclusive + {p} == {p};
    u := Next(m2, a);
  }

  lemma DeletionErases(m: Machine, target: Target, p: nat) returns (u: Machine)
    ensures Reaches(Stands(m, p, target, if target.ClientTarget? then Holding else Erasing(target.ids)), u)
    ensures u == Stands(m.(points := u.points, states := u.states), p, target, StoreDeleted) && Purged(m, u, target)
  {
    var a := Advance(p, true);
    var here := Stands(m, p, target, if target.ClientTarget? then Holding else Erasing(target.ids));
    ReachesSelf(here);
    if target.ClientTarget? {
      var one := Next(here, a);
      ReachesNext(here, here, a);
      ReachesNext(here, one, a);
      u := Next(one, a);
      var less := m.(points := WithoutEntity(m.points, target.entity));
      StandsTwice(m, p, target, Holding, PointsDeleted);
      StandsTwice(less, p, target, PointsDeleted, StoreDeleted);
      PurgedClient(m, u, target.entity);
    } else {
      var less := m.(points := WithoutTasks(m.points, target.ids));
      ErasesAll(m, p, target, target.ids);
      ReachesNext(here, Stands(less, p, target, Erasing([])), a);
      StandsTwice(less, p, target, Erasing([]), StoreDeleted);
      u := Next(Stands(less, p, target, Erasing([])), a);
      PurgedTasks(m, u, target.ids);
    }
  }

  /** A deletion that the store goes along with, up to the rows. */
  lemma DeletionUpToRows(m: Machine, target: Target, p: nat) returns (u: Machine)
    requires m.gate == Gate({}, {}) && NewProcess(m, p) && target != TasksTarget([])
    ensures Reaches(m, u) && Purged(m, u, target)
    ensures u == Stands(m.(guards := Raise(m.guards, target), points := u.points, states := u.states), p, target,
                        DeletingRows)
  {
    var leased := DeletionLeases(m, target, p);
    var held := m.(guards := Raise(m.guards, target), gate := Gate({}, {p}));
    var erased := DeletionErases(held, target, p);
    ReachesThrough(m, leased, erased);
    ReachesNext(m, erased, Advance(p, true));
    StandsTwice(held.(points := erased.points, states := erased.states), p, target, StoreDeleted, DeletingRows);
    assert {p} - {p} == {};
    u := Next(erased, Advance(p, true));
  }

  /** What a successful deletion leaves: neither points, nor states, nor rows, and the guard up. */
  lemma DeletionSucceeds(m: Machine, target: Target, p: nat) returns (u: Machine)
    requires m.gate == Gate({}, {}) && HasRow(m, target) && NewProcess(m, p)
    ensures Reaches(m, u) && Purged(m, u, target) && !HasRow(u, target)
    ensures u.gate == Gate({}, {}) && u.writers == m.writers && u.guards == Raise(m.guards, target)
    ensures u.deleters == m.deleters[p := Deleter(target, Finished(true))]
    ensures forall e :: e in u.clients <==> e in m.clients && target != ClientTarget(e)
    ensures forall id :: id in u.tasks <==> id in m.tasks && !(target.TasksTarget? && id in target.ids)
  {
    var rows := DeletionUpToRows(m, target, p);
    ReachesNext(m, rows, Advance(p, true));
    u := Next(rows, Advance(p, true));
    assert u.deleters == m.deleters[p := Deleter(target, Finished(true))];
  }

  /** Deleting what has no rows any more fails, and lowers the guard that the first, successful deletion
      left up. */
  lemma SecondDeletionReopens(m: Machine, target: Target, p: nat) returns (u: Machine)
    requires m.gate == Gate({}, {}) && !HasRow(m, target) && NewProcess(m, p) && target != TasksTarget([])
    ensures Reaches(m, u) && u.gate == Gate({}, {}) && u.writers == m.writers
    ensures u.clients == m.clients && u.tasks == m.tasks
    ensures u.deleters == m.deleters[p := Deleter(target, Finished(false))]
    ensures forall s :: Blocked(u.guards, s) <==> Blocked(m.guards, s) && !Covers(target, s)
  {
    var rows := DeletionUpToRows(m, target, p);
    ReachesNext(m, rows, Advance(p, true));
    var lowering := Next(rows, Advance(p, true));
    ReachesNext(m, lowering, Advance(p, true));
    u := Next(lowering, Advance(p, true));
    assert u.deleters == m.deleters[p := Deleter(target, Finished(false))];
  }

  /** The failing run as a whole. From any idle system: a client, or ping tasks, are deleted, successfully and
      leaving nothing behind; they are deleted again; and one report or ping arrives. It is stored for a
      client or task that no longer exists. */
  lemma DeletedTwiceThenWritten(m: Machine, target: Target, s: Subject) returns (deleted: Machine, u: Machine)
    requires Idle(m) && HasRow(m, target) && Covers(target, s)
    ensures Reaches(m, deleted) && deleted.deleters == map[0 := Deleter(target, Finished(true))]
    ensures Gone(deleted, s) && !HasRow(deleted, target) && (s != Client("") ==> Blocked(deleted.guards, s))
    ensures Reaches(deleted, u) && ItemOf(s) in u.points && (s.Client? ==> s.entity in u.states)
    ensures !HasRow(u, target)
  {
    deleted := DeletionSucceeds(m, target, 0);
    assert Gone(deleted, s) by {
      forall i | i in deleted.points ensures !Concerns(i, s) { }
    }
    var reopened := SecondDeletionReopens(deleted, target, 1);
    assert !Blocked(reopened.guards, Client(""));
    u := LateItemLands(reopened, s, 2);
    WritersReach(reopened, u);
    ReachesThrough(deleted, reopened, u);
  }
}
