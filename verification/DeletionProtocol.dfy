/** Deletion of clients and of ping tasks against report and ping writers, as interleaved steps of any number
    of processes.

    A writer filters its items one by one, takes a shared lease, filters again, prepares traffic
    states, writes and leaves. A deleter raises the guard, takes the exclusive lease, deletes points
    and, of a client, the traffic state, leaves, deletes the rows, and lowers the guard when any of it
    failed. */
module DeletionProtocol {
  import opened DeletionGate

  datatype Task = NoTask | PingTask(id: nat)

  /** A report of an entity, or a ping result of an entity for a task. */
  datatype Item = Item(entity: string, task: Task)

  predicate Admits(g: Guards, i: Item) {
    !EntityBlocked(g, i.entity) && (i.task.PingTask? ==> !TaskBlocked(g, i.task.id))
  }

  /** What one deletion removes: one client, or a list of ping tasks. */
  datatype Target = ClientTarget(entity: string) | TasksTarget(ids: seq<nat>)

  function Raise(g: Guards, t: Target): Guards {
    match t
    case ClientTarget(entity) => RaiseEntity(g, entity)
    case TasksTarget(ids) => RaiseTasks(g, ids)
  }

  function Lower(g: Guards, t: Target): Guards {
    match t
    case ClientTarget(entity) => LowerEntity(g, entity)
    case TasksTarget(ids) => LowerTasks(g, ids)
  }

  datatype Phase =
    | FirstCheck(todo: seq<Item>, kept: seq<Item>)
    | WaitLease(batch: seq<Item>)
    | Recheck(todo: seq<Item>, kept: seq<Item>)
    | Preparing(todo: seq<Item>, batch: seq<Item>)
    | Writing(batch: seq<Item>)
    | Leaving
    | Returned

  datatype Writer = Writer(report: bool, phase: Phase)

  /** A client's points go in one call, the tasks' points task by task. */
  datatype Stage =
    | Called
    | WaitExclusive
    | Holding
    | Erasing(todo: seq<nat>)
    | PointsDeleted
    | StoreDeleted
    | DeletingRows
    | FailedHolding
    | Lowering
    | Finished(ok: bool)

  datatype Deleter = Deleter(target: Target, stage: Stage)

  /** `points` are the items with at least one stored point, `states` the entities with a traffic state. */
  datatype Machine = Machine(
    guards: Guards, gate: Gate, writers: map<nat, Writer>, deleters: map<nat, Deleter>,
    points: set<Item>, states: set<string>, clients: set<string>, tasks: set<nat>)

  datatype Action =
    | CallReport(pid: nat, items: seq<Item>)
    | CallPing(pid: nat, item: Item)
    | Move(pid: nat, landed: nat)
    | Cancel(pid: nat)
    | CallDelete(pid: nat, target: Target)
    | Advance(pid: nat, ok: bool)
    | AddClient(entity: string)
    | AddTask(id: nat)

  function Filter(g: Guards, i: Item, kept: seq<Item>): seq<Item> {
    if Admits(g, i) then kept + [i] else kept
  }

  function Goes(m: Machine, p: nat, w: Writer, phase: Phase): Machine {
    m.(writers := m.writers[p := w.(phase := phase)])
  }

  function Leased(batch: seq<Item>, report: bool): Phase {
    if batch == [] then Leaving else if report then Preparing(batch, batch) else Writing(batch)
  }

  function Stored(items: seq<Item>): set<Item> { set i | i in items }

  /** One step of a writer. A failed write may leave any prefix of its batch behind. */
  function MoveWriter(m: Machine, p: nat, landed: nat): Machine
    requires p in m.writers
  {
    var w := m.writers[p];
    match w.phase
    case FirstCheck(todo, kept) =>
      if todo != [] then Goes(m, p, w, FirstCheck(todo[1..], Filter(m.guards, todo[0], kept)))
      else Goes(m, p, w, if kept == [] then Returned else WaitLease(kept))
    case WaitLease(batch) =>
      if SharedFree(m.gate) && p !in m.gate.shared
      then Goes(m, p, w, Recheck(batch, [])).(gate := m.gate.(shared := m.gate.shared + {p}))
      else m
    case Recheck(todo, kept) =>
      if todo != [] then Goes(m, p, w, Recheck(todo[1..], Filter(m.guards, todo[0], kept)))
      else Goes(m, p, w, Leased(kept, w.report))
    case Preparing(todo, batch) =>
      if todo != [] then Goes(m, p, w, Preparing(todo[1..], batch)).(states := m.states + {todo[0].entity})
      else Goes(m, p, w, Writing(batch))
    case Writing(batch) =>
      var written := if landed < |batch| then batch[..landed] else batch;
      Goes(m, p, w, Leaving).(points := m.points + Stored(written))
    case Leaving => Goes(m, p, w, Returned).(gate := m.gate.(shared := m.gate.shared - {p}))
    case Returned => m
  }

  /** A cancelled writer returns, through its deferred release when it holds the lease. */
  function CancelWriter(m: Machine, p: nat): Machine
    requires p in m.writers
  {
    var w := m.writers[p];
    match w.phase
    case WaitLease(_) => Goes(m, p, w, Returned)
    case Preparing(_, _) => Goes(m, p, w, Leaving)
    case Writing(_) => Goes(m, p, w, Leaving)
    case _ => m
  }

  function Turns(m: Machine, p: nat, stage: Stage): Machine
    requires p in m.deleters
  {
    m.(deleters := m.deleters[p := m.deleters[p].(stage := stage)])
  }

  function WithoutEntity(points: set<Item>, entity: string): set<Item> { set i | i in points && i.entity != entity }

  function WithoutTask(points: set<Item>, id: nat): set<Item> { set i | i in points && i.task != PingTask(id) }

  /** Deleting rows fails when there are none. */
  predicate HasRow(m: Machine, t: Target) {
    match t
    case ClientTarget(entity) => entity in m.clients
    case TasksTarget(ids) => exists id :: id in ids && id in m.tasks
  }

  function WithoutRows(m: Machine, t: Target): Machine {
    match t
    case ClientTarget(entity) => m.(clients := m.clients - {entity})
    case TasksTarget(ids) => m.(tasks := set id | id in m.tasks && id !in ids)
  }

  /** What the exclusive lease is for: the points of a client at once, of tasks one task after the other. */
  function Erase(m: Machine, p: nat, ok: bool): Machine
    requires p in m.deleters
  {
    var d := m.deleters[p];
    match d.target
    case ClientTarget(entity) =>
      if d.stage.Holding? then
        if ok then Turns(m, p, PointsDeleted).(points := WithoutEntity(m.points, entity))
        else Turns(m, p, FailedHolding)
      else if d.stage.PointsDeleted? then Turns(m, p, StoreDeleted).(states := m.states - {entity})
      else m
    case TasksTarget(ids) =>
      if !d.stage.Erasing? then m
      else if d.stage.todo == [] then Turns(m, p, StoreDeleted)
      else if ok
      then Turns(m, p, Erasing(d.stage.todo[1..])).(points := WithoutTask(m.points, d.stage.todo[0]))
      else Turns(m, p, FailedHolding)
  }

  /** One step of a deletion; `ok` says whether the store or the database went along. */
  function AdvanceDeleter(m: Machine, p: nat, ok: bool): Machine
    requires p in m.deleters
  {
    var d := m.deleters[p];
    match d.stage
    case Called => Turns(m, p, WaitExclusive).(guards := Raise(m.guards, d.target))
    case WaitExclusive =>
      if ExclusiveFree(m.gate)
      then Turns(m, p, if d.target.ClientTarget? then Holding else Erasing(d.target.ids)).(
             gate := m.gate.(exclusive := m.gate.exclusive + {p}))
      else m
    case StoreDeleted => Turns(m, p, DeletingRows).(gate := m.gate.(exclusive := m.gate.exclusive - {p}))
    case DeletingRows =>
      if ok && HasRow(m, d.target) then WithoutRows(Turns(m, p, Finished(true)), d.target) else Turns(m, p, Lowering)
    case FailedHolding => Turns(m, p, Lowering).(gate := m.gate.(exclusive := m.gate.exclusive - {p}))
    case Lowering => Turns(m, p, Finished(false)).(guards := Lower(m.guards, d.target))
    case Finished(_) => m
    case _ => Erase(m, p, ok)
  }

  predicate NewProcess(m: Machine, p: nat) {
    p !in m.writers && p !in m.deleters && p !in m.gate.shared && p !in m.gate.exclusive
  }

  /** One step of the whole system; a step that is not enabled changes nothing. Deleting no tasks is refused
      before anything happens. */
  function Next(m: Machine, a: Action): Machine {
    match a
    case CallReport(p, items) =>
      if NewProcess(m, p) then m.(writers := m.writers[p := Writer(true, FirstCheck(items, []))]) else m
    case CallPing(p, item) =>
      if NewProcess(m, p) then m.(writers := m.writers[p := Writer(false, FirstCheck([item], []))]) else m
    case Move(p, landed) => if p in m.writers then MoveWriter(m, p, landed) else m
    case Cancel(p) => if p in m.writers then CancelWriter(m, p) else m
    case CallDelete(p, target) =>
      if NewProcess(m, p) && target != TasksTarget([])
      then m.(deleters := m.deleters[p := Deleter(target, Called)]) else m
    case Advance(p, ok) => if p in m.deleters then AdvanceDeleter(m, p, ok) else m
    case AddClient(entity) => m.(clients := m.clients + {entity})
    case AddTask(id) => m.(tasks := m.tasks + {id})
  }

  function Run(m: Machine, actions: seq<Action>): Machine {
    if actions == [] then m else Next(Run(m, actions[..|actions| - 1]), actions[|actions| - 1])
  }

  /** No process yet; anything may be stored and any named entity may be blocked. */
  predicate Idle(m: Machine) {
    m.writers == map[] && m.deleters == map[] && m.gate == Gate({}, {}) && GuardsOk(m.guards)
  }

  /******* What every step keeps *******/

  predicate HoldsShared(w: Writer) {
    w.phase.Recheck? || w.phase.Preparing? || w.phase.Writing? || w.phase.Leaving?
  }

  predicate HoldsExclusive(d: Deleter) {
    d.stage.Holding? || d.stage.Erasing? || d.stage.PointsDeleted? || d.stage.StoreDeleted? || d.stage.FailedHolding?
  }

  /** What must stay gone after a deletion: one client, or one ping task. */
  datatype Subject = Client(entity: string) | Ping(id: nat)

  predicate Concerns(i: Item, s: Subject) {
    match s
    case Client(entity) => i.entity == entity
    case Ping(id) => i.task == PingTask(id)
  }

  predicate Blocked(g: Guards, s: Subject) {
    match s
    case Client(entity) => entity in g.entities
    case Ping(id) => id in g.pingTasks
  }

  predicate Covers(t: Target, s: Subject) {
    match t
    case ClientTarget(entity) => s == Client(entity)
    case TasksTarget(ids) => s.Ping? && s.id in ids
  }

  predicate NoPoint(points: set<Item>, s: Subject) { forall i :: i in points ==> !Concerns(i, s) }

  /** Neither a point nor a traffic state. */
  predicate Gone(m: Machine, s: Subject) { NoPoint(m.points, s) && (s.Client? ==> s.entity !in m.states) }

  /** The items that have passed the second check and are still to be written. */
  function Admitted(w: Writer): seq<Item> {
    match w.phase
    case Recheck(_, kept) => kept
    case Preparing(_, batch) => batch
    case Writing(batch) => batch
    case _ => []
  }

  /** The states a writer will still create are those of admitted items. */
  predicate WriterOk(m: Machine, p: nat)
    requires p in m.writers
  {
    var w := m.writers[p];
    && (HoldsShared(w) <==> p in m.gate.shared)
    && (w.phase.Preparing? ==> forall i :: i in w.phase.todo ==> i in w.phase.batch)
  }

  /** How far the exclusive delete has come. */
  predicate EraseOk(points: set<Item>, states: set<string>, d: Deleter) {
    match d.stage
    case Erasing(todo) =>
      d.target.TasksTarget? && forall id :: id in d.target.ids && id !in todo ==> NoPoint(points, Ping(id))
    case Holding => d.target.ClientTarget?
    case PointsDeleted => d.target.ClientTarget? && NoPoint(points, Client(d.target.entity))
    case StoreDeleted =>
      match d.target {
        case ClientTarget(entity) => NoPoint(points, Client(entity)) && entity !in states
        case TasksTarget(ids) => forall id :: id in ids ==> NoPoint(points, Ping(id))
      }
    case _ => true
  }

  predicate DeleterOk(m: Machine, p: nat)
    requires p in m.deleters
  {
    (HoldsExclusive(m.deleters[p]) <==> p in m.gate.exclusive) && EraseOk(m.points, m.states, m.deleters[p])
  }

  predicate WritersOk(m: Machine) { forall p :: p in m.writers ==> WriterOk(m, p) }

  predicate DeletersOk(m: Machine) { forall p :: p in m.deleters ==> DeleterOk(m, p) }

  predicate Inv(m: Machine) {
    && GuardsOk(m.guards) && GateOk(m.gate) && WritersOk(m) && DeletersOk(m)
    && m.gate.shared <= m.writers.Keys && m.gate.exclusive <= m.deleters.Keys
  }

  /** A writer past its second check keeps every deleter out. */
  lemma WriterKeepsDeletersOut(m: Machine, p: nat)
    requires Inv(m) && p in m.writers && HoldsShared(m.writers[p])
    ensures forall q :: q in m.deleters ==> !HoldsExclusive(m.deleters[q])
  {
    assert WriterOk(m, p);
    forall q | q in m.deleters ensures !HoldsExclusive(m.deleters[q]) {
      assert DeleterOk(m, q);
      if q in m.gate.exclusive { ExclusiveIsAlone(m.gate, q); }
    }
  }

  ghost predicate SameExcept(a: set<nat>, b: set<nat>, p: nat) {
    forall q :: q != p ==> (q in a <==> q in b)
  }

  /** A writer's step touches its own phase, its own lease, and nothing a deleter relies on. */
  lemma WriterStepKeeps(m: Machine, u: Machine, p: nat, w: Writer)
    requires Inv(m) && p in m.writers && u.writers == m.writers[p := w] && u.deleters == m.deleters
    requires GateOk(u.gate) && u.gate.exclusive == m.gate.exclusive
    requires SameExcept(m.gate.shared, u.gate.shared, p)
    requires WriterOk(u, p) && u.guards == m.guards
    requires (u.points == m.points && u.states == m.states) || HoldsShared(m.writers[p])
    ensures Inv(u)
  {
    forall q | q in u.writers ensures WriterOk(u, q) { if q != p { assert WriterOk(m, q); } }
    if HoldsShared(m.writers[p]) { WriterKeepsDeletersOut(m, p); }
    forall q | q in u.deleters ensures DeleterOk(u, q) { assert DeleterOk(m, q); }
  }

  lemma MovedWriterOk(m: Machine, p: nat, landed: nat)
    requires p in m.writers && WriterOk(m, p)
    ensures var u := MoveWriter(m, p, landed); p in u.writers && WriterOk(u, p)
  {
  }

  lemma MovedGate(m: Machine, p: nat, landed: nat)
    requires p in m.writers && GateOk(m.gate)
    ensures var g := MoveWriter(m, p, landed).gate;
            GateOk(g) && g.exclusive == m.gate.exclusive && SameExcept(m.gate.shared, g.shared, p)
  {
  }

  lemma MoveKeeps(m: Machine, p: nat, landed: nat)
    requires Inv(m) && p in m.writers
    ensures Inv(MoveWriter(m, p, landed))
  {
    var u := MoveWriter(m, p, landed);
    assert WriterOk(m, p);
    if u != m {
      MovedWriterOk(m, p, landed);
      MovedGate(m, p, landed);
      WriterStepKeeps(m, u, p, u.writers[p]);
    }
  }

  lemma CancelKeeps(m: Machine, p: nat)
    requires Inv(m) && p in m.writers
    ensures Inv(CancelWriter(m, p))
  {
    var u := CancelWriter(m, p);
    assert WriterOk(m, p);
    WriterStepKeeps(m, u, p, u.writers[p]);
  }

  /** Deleting more keeps what a deletion has achieved. */
  lemma LessStored(points: set<Item>, states: set<string>, points': set<Item>, states': set<string>, d: Deleter)
    requires EraseOk(points, states, d) && points' <= points && states' <= states
    ensures EraseOk(points', states', d)
  {
    forall s | NoPoint(points, s) ensures NoPoint(points', s) {
      forall i | i in points' ensures !Concerns(i, s) { assert i in points; }
    }
  }

  lemma DeleterStepKeeps(m: Machine, u: Machine, p: nat, d: Deleter)
    requires Inv(m) && p in m.deleters && u.writers == m.writers && u.deleters == m.deleters[p := d]
    requires GateOk(u.gate) && u.gate.shared == m.gate.shared
    requires SameExcept(m.gate.exclusive, u.gate.exclusive, p)
    requires DeleterOk(u, p) && u.points <= m.points && u.states <= m.states && GuardsOk(u.guards)
    ensures Inv(u)
  {
    forall q | q in u.writers ensures WriterOk(u, q) { assert WriterOk(m, q); }
    forall q | q in u.deleters ensures DeleterOk(u, q) {
      if q != p {
        assert DeleterOk(m, q);
        LessStored(m.points, m.states, u.points, u.states, m.deleters[q]);
      }
    }
  }

  lemma AdvanceGate(m: Machine, p: nat, ok: bool)
    requires GateOk(m.gate) && p in m.deleters && DeleterOk(m, p)
    ensures var g := AdvanceDeleter(m, p, ok).gate;
            GateOk(g) && g.shared == m.gate.shared && SameExcept(m.gate.exclusive, g.exclusive, p)
  {
    EraseLeavesGate(m, p, ok);
    if p in m.gate.exclusive { ExclusiveIsAlone(m.gate, p); }
  }

  lemma EraseLeavesGate(m: Machine, p: nat, ok: bool)
    requires p in m.deleters
    ensures Erase(m, p, ok).gate == m.gate
  {
  }

  lemma ErasedTask(points: set<Item>, ids: seq<nat>, todo: seq<nat>)
    requires todo != [] && forall id :: id in ids && id !in todo ==> NoPoint(points, Ping(id))
    ensures forall id :: id in ids && id !in todo[1..] ==> NoPoint(WithoutTask(points, todo[0]), Ping(id))
  {
    forall id | id in ids && id !in todo[1..] ensures NoPoint(WithoutTask(points, todo[0]), Ping(id)) {
      if id != todo[0] { assert todo == [todo[0]] + todo[1..]; }
    }
  }

  lemma AdvancedDeleterOk(m: Machine, p: nat, ok: bool)
    requires p in m.deleters && DeleterOk(m, p)
    ensures var u := AdvanceDeleter(m, p, ok); p in u.deleters && DeleterOk(u, p)
  {
    var d := m.deleters[p];
    if d.stage.Erasing? && d.stage.todo != [] { ErasedTask(m.points, d.target.ids, d.stage.todo); }
  }

  lemma AdvanceShape(m: Machine, p: nat, ok: bool)
    requires p in m.deleters
    ensures var u := AdvanceDeleter(m, p, ok);
            && u.writers == m.writers && p in u.deleters && u.deleters == m.deleters[p := u.deleters[p]]
            && u.deleters[p].target == m.deleters[p].target
            && u.points <= m.points && u.states <= m.states && (GuardsOk(m.guards) ==> GuardsOk(u.guards))
  {
  }

  lemma AdvanceKeeps(m: Machine, p: nat, ok: bool)
    requires Inv(m) && p in m.deleters
    ensures Inv(AdvanceDeleter(m, p, ok))
  {
    var u := AdvanceDeleter(m, p, ok);
    assert DeleterOk(m, p);
    AdvanceGate(m, p, ok);
    AdvanceShape(m, p, ok);
    AdvancedDeleterOk(m, p, ok);
    DeleterStepKeeps(m, u, p, u.deleters[p]);
  }

  lemma CallKeeps(m: Machine, a: Action)
    requires Inv(m) && !a.Move? && !a.Cancel? && !a.Advance?
    ensures Inv(Next(m, a))
  {
    var u := Next(m, a);
    forall q | q in u.writers ensures WriterOk(u, q) { if q in m.writers { assert WriterOk(m, q); } }
    forall q | q in u.deleters ensures DeleterOk(u, q) { if q in m.deleters { assert DeleterOk(m, q); } }
  }

  lemma NextKeeps(m: Machine, a: Action)
    requires Inv(m)
    ensures Inv(Next(m, a))
  {
    match a
    case Move(p, landed) => if p in m.writers { MoveKeeps(m, p, landed); }
    case Cancel(p) => if p in m.writers { CancelKeeps(m, p); }
    case Advance(p, ok) => if p in m.deleters { AdvanceKeeps(m, p, ok); }
    case _ => CallKeeps(m, a);
  }

  lemma {:induction false} RunKeeps(m: Machine, actions: seq<Action>)
    requires Inv(m)
    ensures Inv(Run(m, actions))
  {
    if actions != [] {
      RunKeeps(m, actions[..|actions| - 1]);
      NextKeeps(Run(m, actions[..|actions| - 1]), actions[|actions| - 1]);
    }
  }

  /******* Safety of a finished deletion *******/

  predicate Mentions(items: seq<Item>, s: Subject) {
    exists i :: i in items && Concerns(i, s)
  }

  /** Nothing of the subject is stored and no writer that passed its second check still carries it. */
  predicate Clean(m: Machine, s: Subject) {
    Gone(m, s) && forall p :: p in m.writers ==> !Mentions(Admitted(m.writers[p]), s)
  }

  /** The step that ends the exclusive delete of the subject. */
  predicate FinishesDelete(m: Machine, a: Action, s: Subject) {
    a.Advance? && a.pid in m.deleters && m.deleters[a.pid].stage.StoreDeleted? && Covers(m.deleters[a.pid].target, s)
  }

  lemma DeleteCleans(m: Machine, a: Action, s: Subject)
    requires Inv(m) && FinishesDelete(m, a, s)
    ensures Clean(Next(m, a), s)
  {
    assert DeleterOk(m, a.pid);
    ExclusiveIsAlone(m.gate, a.pid);
    forall p | p in m.writers ensures Admitted(m.writers[p]) == [] { assert WriterOk(m, p); }
  }

  /** The items that have passed a check and are still to be written, the first check included. */
  function Passed(w: Writer): seq<Item> {
    match w.phase
    case FirstCheck(_, kept) => kept
    case WaitLease(batch) => batch
    case Recheck(todo, kept) => todo + kept
    case _ => Admitted(w)
  }

  lemma FilterKeepsOut(g: Guards, i: Item, kept: seq<Item>, s: Subject)
    requires Blocked(g, s)
    ensures forall x :: x in Filter(g, i, kept) && Concerns(x, s) ==> x in kept
    ensures forall x :: x in Filter(g, i, kept) ==> x in kept || x == i
  {
  }

  lemma MovePassesNothing(m: Machine, p: nat, landed: nat, s: Subject, i: Item)
    requires Blocked(m.guards, s) && Concerns(i, s) && p in m.writers
    ensures var u := MoveWriter(m, p, landed);
            && u.writers == m.writers[p := u.writers[p]]
            && (i in Admitted(u.writers[p]) ==> i in Admitted(m.writers[p]))
            && (i in Passed(u.writers[p]) ==> i in Passed(m.writers[p]))
  {
    match m.writers[p].phase
    case FirstCheck(todo, kept) => if todo != [] { FilterKeepsOut(m.guards, todo[0], kept, s); }
    case Recheck(todo, kept) =>
      if todo != [] {
        FilterKeepsOut(m.guards, todo[0], kept, s);
        assert todo == [todo[0]] + todo[1..];
      }
    case _ =>
  }

  /** While the guard of a subject is up, no step of any process lets an item of it pass a check: whatever of it
      a writer carries it carried before, past the second check and past the first. */
  lemma GuardedPassesNothing(m: Machine, a: Action, s: Subject, p: nat, i: Item)
    requires Blocked(m.guards, s) && Concerns(i, s) && p in Next(m, a).writers
    ensures i in Admitted(Next(m, a).writers[p]) ==> p in m.writers && i in Admitted(m.writers[p])
    ensures i in Passed(Next(m, a).writers[p]) ==> p in m.writers && i in Passed(m.writers[p])
  {
    if a.Move? && a.pid in m.writers {
      MovePassesNothing(m, a.pid, a.landed, s, i);
    } else if a.Advance? && a.pid in m.deleters {
      AdvanceShape(m, a.pid, a.ok);
    }
  }

  /** Abandoning a write stores nothing, and the writer carries nothing any more. */
  lemma CancelAbandons(m: Machine, p: nat)
    requires p in m.writers
    ensures var w, u := m.writers[p], Next(m, Cancel(p));
            && u == m.(writers := m.writers[p := u.writers[p]]) && u.writers[p].report == w.report
            && (w.phase.WaitLease? ==> u.writers[p].phase == Returned)
            && (w.phase.Preparing? || w.phase.Writing? ==> u.writers[p].phase == Leaving)
            && (!w.phase.WaitLease? && !w.phase.Preparing? && !w.phase.Writing? ==> u == m)
  {
    assert m.writers == m.writers[p := m.writers[p]];
  }

  /** The item is one of the first n. */
  predicate Among(items: seq<Item>, n: nat, i: Item) {
    exists k :: 0 <= k < |items| && k < n && items[k] == i
  }

  /** A write stores a prefix of its batch, the whole of it unless it failed on the way; a batch that the second
      check emptied is not written at all. */
  lemma WriteStoresPrefix(m: Machine, p: nat, landed: nat)
    requires p in m.writers
    ensures var w, u := m.writers[p], Next(m, Move(p, landed));
            && (w.phase.Writing? ==>
                  && u.writers[p].phase == Leaving && u.states == m.states
                  && forall i :: i in u.points <==> i in m.points || Among(w.phase.batch, landed, i))
            && (w.phase == Recheck([], []) ==> u == m.(writers := m.writers[p := w.(phase := Leaving)]))
  {
  }

  /** Deleting no tasks at all is refused: no process starts and no guard moves. */
  lemma DeletingNothingIsRefused(m: Machine, p: nat)
    ensures Next(m, CallDelete(p, TasksTarget([]))) == m
  {
  }

  /** A client or task that is added again does not lower a guard. */
  lemma AddingKeepsGuards(m: Machine, entity: string, id: nat)
    ensures var u := Next(m, AddClient(entity)); u == m.(clients := u.clients) && u.clients == m.clients + {entity}
    ensures var u := Next(m, AddTask(id)); u == m.(tasks := u.tasks) && u.tasks == m.tasks + {id}
  {
  }

  /** And over every interleaving: what a writer carries of a subject whose guard stayed up, it carried at the
      start. */
  lemma {:induction false} GuardedRunPassesNothing(m: Machine, actions: seq<Action>, s: Subject, p: nat, i: Item)
    requires forall n :: 0 <= n < |actions| ==> Blocked(Run(m, actions[..n]).guards, s)
    requires Concerns(i, s) && p in Run(m, actions).writers
    ensures i in Admitted(Run(m, actions).writers[p]) ==> p in m.writers && i in Admitted(m.writers[p])
    ensures i in Passed(Run(m, actions).writers[p]) ==> p in m.writers && i in Passed(m.writers[p])
  {
    if actions != [] {
      var front := actions[..|actions| - 1];
      forall n | 0 <= n < |front| ensures Blocked(Run(m, front[..n]).guards, s) {
        assert front[..n] == actions[..n];
      }
      GuardedPassesNothing(Run(m, front), actions[|actions| - 1], s, p, i);
      if p in Run(m, front).writers { GuardedRunPassesNothing(m, front, s, p, i); }
    }
  }

  /** While the guard is up, a writer's step adds nothing of the subject, neither stored nor carried. */
  lemma MoveStaysClean(m: Machine, p: nat, landed: nat, s: Subject)
    requires Inv(m) && p in m.writers && Clean(m, s) && Blocked(m.guards, s)
    ensures var u := MoveWriter(m, p, landed); Gone(u, s) && !Mentions(Admitted(u.writers[p]), s)
  {
    var w, u := m.writers[p], MoveWriter(m, p, landed);
    assert WriterOk(m, p) && !Mentions(Admitted(w), s);
    forall i | i in Admitted(u.writers[p]) ensures !Concerns(i, s) {
      if Concerns(i, s) { MovePassesNothing(m, p, landed, s, i); }
    }
    if w.phase.Preparing? && w.phase.todo != [] { assert w.phase.todo[0] in w.phase.todo; }
  }

  /** Nothing but a writer's step can spoil a clean subject, and that one cannot while the guard is up. */
  lemma NextStaysClean(m: Machine, a: Action, s: Subject)
    requires Inv(m) && Clean(m, s) && Blocked(m.guards, s)
    ensures Clean(Next(m, a), s)
  {
    if a.Move? && a.pid in m.writers {
      MoveStaysClean(m, a.pid, a.landed, s);
      MoveTouchesOne(m, a.pid, a.landed);
    } else if a.Advance? && a.pid in m.deleters {
      AdvanceShape(m, a.pid, a.ok);
      LessIsClean(m, Next(m, a), s);
    } else if !a.Move? && !a.Advance? {
      OthersStayClean(m, a, s);
    }
  }

  lemma MoveTouchesOne(m: Machine, p: nat, landed: nat)
    requires p in m.writers
    ensures var u := MoveWriter(m, p, landed); p in u.writers && u.writers == m.writers[p := u.writers[p]]
  {
    assert m.writers == m.writers[p := m.writers[p]];
  }

  lemma LessIsClean(m: Machine, u: Machine, s: Subject)
    requires Clean(m, s) && u.writers == m.writers && u.points <= m.points && u.states <= m.states
    ensures Clean(u, s)
  {
  }

  lemma OthersStayClean(m: Machine, a: Action, s: Subject)
    requires Clean(m, s) && !a.Move? && !a.Advance?
    ensures Clean(Next(m, a), s)
  {
  }

  lemma {:induction false} GuardedStaysClean(m: Machine, actions: seq<Action>, s: Subject)
    requires Inv(m) && Clean(m, s)
    requires forall n :: 0 <= n < |actions| ==> Blocked(Run(m, actions[..n]).guards, s)
    ensures Clean(Run(m, actions), s)
  {
    if actions != [] {
      var front := actions[..|actions| - 1];
      forall n | 0 <= n < |front| ensures Blocked(Run(m, front[..n]).guards, s) {
        assert front[..n] == actions[..n];
      }
      GuardedStaysClean(m, front, s);
      RunKeeps(m, front);
      NextStaysClean(Run(m, front), actions[|actions| - 1], s);
    }
  }

  /** Main result. Start from any idle system and run any interleaving of any number of writers and
      deletions up to the step that finishes the exclusive delete of a client or a task. From then on, for
      as long as its guard stays up, the store holds no point and no traffic state of it, and no writer
      past its second check carries one. */
  lemma DeletedStaysDeleted(m0: Machine, before: seq<Action>, a: Action, s: Subject, after: seq<Action>)
    requires Idle(m0) && FinishesDelete(Run(m0, before), a, s)
    requires forall n :: 0 <= n < |after| ==> Blocked(Run(Next(Run(m0, before), a), after[..n]).guards, s)
    ensures Clean(Run(Next(Run(m0, before), a), after), s)
  {
    RunKeeps(m0, before);
    NextKeeps(Run(m0, before), a);
    DeleteCleans(Run(m0, before), a, s);
    GuardedStaysClean(Next(Run(m0, before), a), after, s);
  }

  /** The step lowers the guard of the subject: the last step of a deletion of it that failed. */
  predicate LowersGuard(m: Machine, a: Action, s: Subject) {
    a.Advance? && a.pid in m.deleters && m.deleters[a.pid].stage.Lowering? && Covers(m.deleters[a.pid].target, s)
  }

  /** A raised guard comes down in exactly one kind of step. */
  lemma OnlyFailureLowersGuard(m: Machine, a: Action, s: Subject)
    requires Blocked(m.guards, s)
    ensures Blocked(Next(m, a).guards, s) <==> !LowersGuard(m, a, s)
    ensures LowersGuard(m, a, s) ==> Next(m, a).deleters[a.pid].stage == Finished(false)
  {
  }

  /** A guard comes up in exactly one kind of step, the first of a deletion that covers the subject; the empty
      name has no guard. */
  lemma OnlyDeletionRaisesGuard(m: Machine, a: Action, s: Subject)
    requires !Blocked(m.guards, s)
    ensures Blocked(Next(m, a).guards, s) <==>
              && a.Advance? && a.pid in m.deleters && m.deleters[a.pid].stage.Called?
              && Covers(m.deleters[a.pid].target, s) && s != Client("")
  {
  }

  /** The guard of the subject is up before and after every step of the run. */
  predicate GuardUp(m: Machine, actions: seq<Action>, s: Subject) {
    forall n :: 0 <= n <= |actions| ==> Blocked(Run(m, actions[..n]).guards, s)
  }

  /** No step of the run ends a failed deletion of the subject. */
  predicate NeverLowered(m: Machine, actions: seq<Action>, s: Subject) {
    forall n :: 0 <= n < |actions| ==> !LowersGuard(Run(m, actions[..n]), actions[n], s)
  }

  /** The guard of a subject is up throughout a run if and only if no step of it ends a failed deletion of
      that subject. */
  lemma GuardStaysIff(m: Machine, actions: seq<Action>, s: Subject)
    requires Blocked(m.guards, s)
    ensures GuardUp(m, actions, s) <==> NeverLowered(m, actions, s)
  {
    if NeverLowered(m, actions, s) {
      forall n | 0 <= n <= |actions| ensures Blocked(Run(m, actions[..n]).guards, s) {
        GuardStaysUp(m, actions, s, n);
      }
    } else {
      var n :| 0 <= n < |actions| && LowersGuard(Run(m, actions[..n]), actions[n], s);
      GuardComesDown(m, actions, s, n);
    }
  }

  lemma GuardComesDown(m: Machine, actions: seq<Action>, s: Subject, n: nat)
    requires n < |actions| && LowersGuard(Run(m, actions[..n]), actions[n], s)
    ensures !GuardUp(m, actions, s)
  {
    assert actions[..n + 1][..n] == actions[..n];
    assert !Blocked(Run(m, actions[..n + 1]).guards, s);
  }

  lemma {:induction false} GuardStaysUp(m: Machine, actions: seq<Action>, s: Subject, n: nat)
    requires Blocked(m.guards, s) && n <= |actions| && NeverLowered(m, actions, s)
    ensures Blocked(Run(m, actions[..n]).guards, s)
  {
    if n == 0 {
      assert actions[..0] == [];
    } else {
      GuardStaysUp(m, actions, s, n - 1);
      assert actions[..n][..n - 1] == actions[..n - 1];
      OnlyFailureLowersGuard(Run(m, actions[..n - 1]), actions[n - 1], s);
    }
  }

  /** A deletion is about to lower its guard if and only if the store refused to delete the points, the
      database refused, or there is no row, which is the case whenever it was all deleted before. */
  lemma LoweringIff(m: Machine, p: nat, ok: bool)
    requires p in m.deleters && DeleterOk(m, p) && m.deleters[p].stage != Lowering
    ensures var d, u := m.deleters[p], AdvanceDeleter(m, p, ok).deleters[p];
            && (u.stage == Lowering <==>
                  || d.stage == FailedHolding
                  || (d.stage == DeletingRows && !(ok && HasRow(m, d.target))))
            && (u.stage == FailedHolding && d.stage != FailedHolding <==>
                  (d.stage.Holding? || (d.stage.Erasing? && d.stage.todo != [])) && !ok)
            && (u.stage == Finished(true) && d.stage != Finished(true) <==>
                  d.stage == DeletingRows && ok && HasRow(m, d.target))
  {
  }

  /** So after a deletion has finished its exclusive delete with the guard up, the subject stays clean
      for good as long as no deletion of the same subject fails. */
  lemma CleanUnlessDeletionFails(m0: Machine, before: seq<Action>, a: Action, s: Subject, after: seq<Action>)
    requires Idle(m0) && FinishesDelete(Run(m0, before), a, s) && Blocked(Run(m0, before).guards, s)
    requires NeverLowered(Next(Run(m0, before), a), after, s)
    ensures Clean(Run(Next(Run(m0, before), a), after), s)
    ensures Blocked(Run(Next(Run(m0, before), a), after).guards, s)
  {
    RunKeeps(m0, before);
    NextKeeps(Run(m0, before), a);
    DeleteCleans(Run(m0, before), a, s);
    NeverLoweredStaysClean(Next(Run(m0, before), a), after, s);
  }

  lemma NeverLoweredStaysClean(m: Machine, actions: seq<Action>, s: Subject)
    requires Inv(m) && Clean(m, s) && Blocked(m.guards, s) && NeverLowered(m, actions, s)
    ensures Clean(Run(m, actions), s) && Blocked(Run(m, actions).guards, s)
  {
    GuardStaysIff(m, actions, s);
    assert actions[..|actions|] == actions;
    GuardedStaysClean(m, actions, s);
  }
}
