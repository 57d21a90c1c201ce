/** The return-route monitor: a line must be confirmed several times before a switch or a recovery. */
module RouteHysteresis {
  import opened Common

  datatype State = Fresh | Unknown | Observing | Healthy | Switched

  datatype Task = Task(expected: string, switchConfirm: int, recoveryConfirm: int)

  /** Tasks are saved with a line and with one to twenty confirmations each. */
  predicate ValidTask(t: Task) {
    t.expected != "" && 1 <= t.switchConfirm <= 20 && 1 <= t.recoveryConfirm <= 20
  }

  datatype Status = Status(current: string, state: State, candidate: string, count: int)

  datatype Kind = Switch | Recovery

  datatype Event = Event(kind: Kind, from: string, to: string)

  /** A probe ends with an identified line, with the undecided CN2 line, or without a result. */
  datatype Observation = Line(name: string) | CN2Pending | Failed

  type Identified = o: Observation | o.Line? ==> o.name != "" && o.name != PENDING_LINE witness Failed

  const PENDING_LINE := "CN2 \U{5F85}\U{786E}\U{8BA4}"
  const INITIAL := Status("", Fresh, "", 0)

  function Required(t: Task, line: string): int {
    if line == t.expected then t.recoveryConfirm else t.switchConfirm
  }

  datatype Outcome = Outcome(status: Status, event: Option<Event>)

  function Settle(line: string, state: State): Status { Status(line, state, "", 0) }

  /** The counting branch: one more of the candidate, or a new candidate. */
  function Counted(s: Status, line: string): Status {
    s.(candidate := line, count := if s.candidate == line then s.count + 1 else 1)
  }

  function Count(s: Status, t: Task, line: string): Outcome {
    var counted := Counted(s, line);
    if counted.count < Required(t, line)
    then Outcome(if s.current == "" then counted.(state := Observing) else counted, None)
    else if line == t.expected
    then Outcome(Settle(line, Healthy), Some(Event(Recovery, if s.current == "" then t.expected else s.current, line)))
    else Outcome(Settle(line, Switched), Some(Event(Switch, if s.current == "" then t.expected else s.current, line)))
  }

  /** advanceReturnRouteState. */
  function Advance(s: Status, t: Task, line: string): Outcome {
    if line == t.expected && (s.current == "" || !s.state.Switched?) then Outcome(Settle(line, Healthy), None)
    else if line != t.expected && s.state.Switched? && line == s.current
    then Outcome(s.(candidate := "", count := 0), None)
    else Count(s, t, line)
  }

  /** applyReturnRouteObservation, and the branch for a failed probe around it. */
  function Apply(s: Status, t: Task, o: Observation): Outcome {
    match o
    case Line(line) => Advance(s, t, line)
    case CN2Pending =>
      Outcome(s.(candidate := PENDING_LINE, count := 0, state := if s.current == "" then Unknown else s.state), None)
    case Failed => Outcome(s.(state := if s.current == "" then Unknown else s.state), None)
  }

  class RouteStatus {
    var current: string
    var state: State
    var candidate: string
    var count: int

    ghost function Value(): Status
      reads this
    {
      Status(current, state, candidate, count)
    }

    constructor ()
      ensures Value() == INITIAL
    {
      current, state, candidate, count := "", Fresh, "", 0;
    }

    method AdvanceLine(t: Task, line: string) returns (event: Option<Event>)
      modifies this
      ensures Outcome(Value(), event) == Advance(old(Value()), t, line)
    {
      event := None;
      if current == "" && line == t.expected {
        current, state := line, Healthy;
        candidate, count := "", 0;
        return;
      }
      var targetState, required, kind := Switched, t.switchConfirm, Switch;
      var from := current;
      if from == "" { from := t.expected; }
      if line == t.expected {
        targetState, required, kind := Healthy, t.recoveryConfirm, Recovery;
        if !state.Switched? {
          current, state := line, Healthy;
          candidate, count := "", 0;
          return;
        }
      } else if state.Switched? && line == current {
        candidate, count := "", 0;
        return;
      }
      if candidate == line {
        count := count + 1;
      } else {
        candidate, count := line, 1;
      }
      if count < required {
        if current == "" { state := Observing; }
        return;
      }
      current, state := line, targetState;
      candidate, count := "", 0;
      event := Some(Event(kind, from, line));
    }

    method ApplyObservation(t: Task, o: Observation) returns (event: Option<Event>)
      modifies this
      ensures Outcome(Value(), event) == Apply(old(Value()), t, o)
    {
      event := None;
      match o {
        case Line(line) => event := AdvanceLine(t, line);
        case CN2Pending =>
          candidate, count := PENDING_LINE, 0;
          if current == "" { state := Unknown; }
        case Failed =>
          if current == "" { state := Unknown; }
      }
    }
  }

  /******* Observation sequences *******/

  function Run(t: Task, obs: seq<Identified>): Status {
    if obs == [] then INITIAL else Apply(Run(t, obs[..|obs| - 1]), t, obs[|obs| - 1]).status
  }

  function EventAt(t: Task, obs: seq<Identified>): Option<Event>
    requires obs != []
  {
    Apply(Run(t, obs[..|obs| - 1]), t, obs[|obs| - 1]).event
  }

  function Events(t: Task, obs: seq<Identified>): seq<Event> {
    if obs == [] then [] else
    Events(t, obs[..|obs| - 1]) + (if EventAt(t, obs).Some? then [EventAt(t, obs).value] else [])
  }

  /** Probes without a result neither confirm nor interrupt. */
  function Effective(obs: seq<Identified>): seq<Identified> {
    if obs == [] then [] else
    var front := Effective(obs[..|obs| - 1]);
    if obs[|obs| - 1].Failed? then front else front + [obs[|obs| - 1]]
  }

  /** How many of the last effective observations in a row were this line. */
  function Streak(obs: seq<Identified>, line: string): nat {
    if obs == [] then 0
    else if obs[|obs| - 1].Failed? then Streak(obs[..|obs| - 1], line)
    else if obs[|obs| - 1] == Line(line) then Streak(obs[..|obs| - 1], line) + 1
    else 0
  }

  /** A streak is a tail of equal effective observations. */
  lemma {:induction false} StreakIsTail(obs: seq<Identified>, line: string, n: nat)
    requires n <= Streak(obs, line)
    ensures n <= |Effective(obs)|
    ensures forall i :: |Effective(obs)| - n <= i < |Effective(obs)| ==> Effective(obs)[i] == Line(line)
  {
    if obs != [] {
      var front := obs[..|obs| - 1];
      if obs[|obs| - 1].Failed? {
        StreakIsTail(front, line, n);
      } else if n > 0 {
        StreakIsTail(front, line, n - 1);
      }
    }
  }

  /** Confirmations asked for: of the expected line those of a recovery, of any other those of a switch. */
  predicate Confirmed(t: Task, obs: seq<Identified>, line: string) {
    Streak(obs, line) >= if line == t.expected then t.recoveryConfirm else t.switchConfirm
  }

  /******* Invariants *******/

  /** The state says exactly how the current line relates to the expected one. */
  predicate StateOk(t: Task, s: Status) {
    && (s.state.Healthy? <==> s.current == t.expected)
    && (s.state.Switched? <==> s.current != "" && s.current != t.expected)
  }

  /** The candidate was seen in each of the last effective observations it counts, and a line that is
      still unconfirmed has been counted since its streak began. */
  predicate CountOk(t: Task, s: Status, obs: seq<Identified>) {
    && (s.candidate != "" && s.candidate != PENDING_LINE ==> 0 < s.count <= Streak(obs, s.candidate))
    && (s.candidate == "" || s.candidate == PENDING_LINE ==> s.count == 0)
    && (s.candidate != "" && s.candidate != PENDING_LINE ==> s.count < Required(t, s.candidate))
  }

  predicate Tracks(t: Task, s: Status, obs: seq<Identified>, line: string) {
    Streak(obs, line) > 0 ==> s.current == line || (s.candidate == line && s.count >= Streak(obs, line))
  }

  lemma {:induction false} EveryStateOk(t: Task, obs: seq<Identified>)
    requires ValidTask(t)
    ensures StateOk(t, Run(t, obs)) && CountOk(t, Run(t, obs), obs)
  {
    if obs != [] { EveryStateOk(t, obs[..|obs| - 1]); }
  }

  /** Healthy means that the current line is the expected one, and switched that it is another. */
  lemma StateMeansLine(t: Task, obs: seq<Identified>)
    requires ValidTask(t)
    ensures var s := Run(t, obs);
            && (s.state.Healthy? <==> s.current == t.expected)
            && (s.state.Switched? <==> s.current != "" && s.current != t.expected)
  {
    EveryStateOk(t, obs);
  }

  /** An event fires only when its line was each of the last required effective observations. */
  lemma EventsAreConfirmed(t: Task, obs: seq<Identified>)
    requires ValidTask(t) && obs != [] && EventAt(t, obs).Some?
    ensures var e := EventAt(t, obs).value; var seen := Effective(obs);
            var n := if e.kind.Recovery? then t.recoveryConfirm else t.switchConfirm;
            && n <= |seen|
            && (forall i :: |seen| - n <= i < |seen| ==> seen[i] == Line(e.to))
            && (e.kind.Recovery? <==> e.to == t.expected)
            && e.from != e.to
  {
    EveryStateOk(t, obs[..|obs| - 1]);
    var e := EventAt(t, obs).value;
    StreakIsTail(obs, e.to, Required(t, e.to));
  }

  lemma {:induction false} EveryLineTracked(t: Task, obs: seq<Identified>, line: string)
    requires ValidTask(t) && line != "" && line != PENDING_LINE
    ensures Tracks(t, Run(t, obs), obs, line)
  {
    if obs != [] {
      EveryLineTracked(t, obs[..|obs| - 1], line);
      EveryStateOk(t, obs[..|obs| - 1]);
    }
  }

  /** And it never fails to fire: once a line was each of the last required effective observations,
      it is the current line. */
  lemma ConfirmedLineIsCurrent(t: Task, obs: seq<Identified>, line: string)
    requires ValidTask(t) && line != "" && line != PENDING_LINE && Confirmed(t, obs, line)
    ensures Run(t, obs).current == line
  {
    EveryLineTracked(t, obs, line);
    EveryStateOk(t, obs);
  }

  /** What each observation does, told by the history alone. A line that is not where the route is taken to be, the
      expected line until it is known, fires exactly when it is confirmed, and is then the current one; the
      expected line is taken at once while none is known. Nothing else moves the route, and until it is known the
      state says whether the last probe identified a line. */
  lemma ObservationDecides(t: Task, obs: seq<Identified>)
    requires ValidTask(t) && obs != []
    ensures var last, before, after := obs[|obs| - 1], Run(t, obs[..|obs| - 1]).current, Run(t, obs);
            var from := if before == "" then t.expected else before;
            var fires := last.Line? && last.name != from && Confirmed(t, obs, last.name);
            && EventAt(t, obs) == (if !fires then None
                                   else if last.name == t.expected then Some(Event(Recovery, from, last.name))
                                   else Some(Event(Switch, from, last.name)))
            && after.current == (if fires || (last.Line? && last.name == from) then last.name else before)
            && (after.current == "" ==> after.state == if last.Line? then Observing else Unknown)
  {
    var last, front := obs[|obs| - 1], obs[..|obs| - 1];
    EveryStateOk(t, front);
    if last.Line? {
      EveryLineTracked(t, front, last.name);
      LineDecides(t, Run(t, front), last.name, Streak(front, last.name));
    }
  }

  /** One identified line, when the status has counted it since its streak began. */
  lemma LineDecides(t: Task, s: Status, line: string, streak: nat)
    requires ValidTask(t) && StateOk(t, s) && line != ""
    requires s.current != line ==> streak == if s.candidate == line then s.count else 0
    ensures var r, from := Apply(s, t, Line(line)), if s.current == "" then t.expected else s.current;
            var required := if line == t.expected then t.recoveryConfirm else t.switchConfirm;
            var fires := line != from && streak + 1 >= required;
            && r.event == (if !fires then None
                           else if line == t.expected then Some(Event(Recovery, from, line))
                           else Some(Event(Switch, from, line)))
            && r.status.current == (if fires || line == from then line else s.current)
            && (r.status.current == "" ==> r.status.state == Observing)
  {
  }

  /** The events chain: the first leaves the expected line, each later one leaves where the previous
      one went, the last leads to the current line, and every recovery follows a switch. */
  predicate Chained(t: Task, events: seq<Event>, current: string) {
    && (events == [] ==> current == "" || current == t.expected)
    && (events != [] ==> events[0].from == t.expected && events[|events| - 1].to == current != "")
    && (forall i :: 0 < i < |events| ==> events[i].from == events[i - 1].to)
    && (forall i :: 0 <= i < |events| && events[i].kind.Recovery? ==> i > 0 && events[i - 1].kind.Switch?)
    && (forall i :: 0 <= i < |events| ==> (events[i].kind.Recovery? <==> events[i].to == t.expected))
    && (forall i :: 0 <= i < |events| ==> events[i].from != events[i].to)
  }

  lemma ChainGrows(t: Task, events: seq<Event>, current: string, e: Event)
    requires ValidTask(t) && Chained(t, events, current)
    requires e.from == (if current == "" then t.expected else current) && e.from != e.to && e.to != ""
    requires e.kind.Recovery? <==> e.to == t.expected
    requires e.kind.Recovery? ==> current != "" && current != t.expected
    ensures Chained(t, events + [e], e.to)
  {
    var more := events + [e];
    assert forall i :: 0 <= i < |events| ==> more[i] == events[i];
    if e.kind.Recovery? { assert events[|events| - 1].kind.Switch?; }
  }

  /** What one observation does to the current line, with and without an event. */
  lemma StepMoves(t: Task, s: Status, o: Identified)
    requires ValidTask(t) && StateOk(t, s)
    ensures var r := Apply(s, t, o);
            match r.event
            case None => r.status.current == s.current || (s.current == "" && r.status.current == t.expected)
            case Some(e) =>
              && e.to == r.status.current && e.from == (if s.current == "" then t.expected else s.current)
              && e.from != e.to && e.to != ""
              && (e.kind.Recovery? <==> e.to == t.expected)
              && (e.kind.Recovery? ==> s.current != "" && s.current != t.expected)
  {
  }

  lemma {:induction false} EventsChain(t: Task, obs: seq<Identified>)
    requires ValidTask(t)
    ensures Chained(t, Events(t, obs), Run(t, obs).current)
  {
    if obs != [] {
      var front := obs[..|obs| - 1];
      EventsChain(t, front);
      EveryStateOk(t, front);
      StepMoves(t, Run(t, front), obs[|obs| - 1]);
      if EventAt(t, obs).Some? {
        ChainGrows(t, Events(t, front), Run(t, front).current, EventAt(t, obs).value);
      } else {
        assert Events(t, obs) == Events(t, front);
      }
    }
  }
}
