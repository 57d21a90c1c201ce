/** The calibrated-cycle cache: loads, reads and invalidations of any number of callers, interleaved.

    Each locked section is one step. Steps are numbered, so that "began after" has a meaning; a load
    is identified by its caller and by the step at which it read the generation. */
module CycleCache {
  import opened Common

  const TTL := 15

  datatype Load = Load(caller: nat, began: nat)

  /** The published entry: which database and load it came from and when it may be used. */
  datatype Entry = Entry(db: int, load: Load, from: int, expires: int)

  datatype Cache = Cache(generation: nat, entry: Option<Entry>)

  predicate Usable(e: Entry, db: int, clock: int) { e.db == db && e.from <= clock < e.expires }

  function Lookup(c: Cache, db: int, clock: int): Option<Load> {
    if c.entry.Some? && Usable(c.entry.value, db, clock) then Some(c.entry.value.load) else None
  }

  /** A finished load is stored only if nobody has invalidated since it began. */
  function Publish(c: Cache, generation: nat, e: Entry): Cache {
    if generation == c.generation then c.(entry := Some(e)) else c
  }

  function Invalidate(c: Cache): Cache { Cache(c.generation + 1, None) }

  /** The cache object, one method per locked section. */
  class CycleCacheState {
    var generation: nat
    var entry: Option<Entry>

    ghost function Value(): Cache
      reads this
    {
      Cache(generation, entry)
    }

    constructor ()
      ensures Value() == Cache(0, None)
    {
      generation, entry := 0, None;
    }

    method Read(db: int, clock: int) returns (hit: Option<Load>, seen: nat)
      ensures hit == Lookup(Value(), db, clock) && seen == generation
    {
      seen := generation;
      if entry.Some? && entry.value.db == db && clock >= entry.value.from && clock < entry.value.expires {
        return Some(entry.value.load), seen;
      }
      return None, seen;
    }

    /** The entry lives for the time to live, or until the next reset of any client if that is sooner. */
    method Store(seen: nat, db: int, load: Load, clock: int, resets: seq<int>)
      modifies this`entry
      ensures Value() == Publish(old(Value()), seen, Entry(db, load, clock, Expiry(clock, resets)))
    {
      var expires := clock + TTL;
      for i := 0 to |resets|
        invariant expires == Expiry(clock, resets[..i])
      {
        assert resets[..i + 1][..i] == resets[..i];
        if resets[i] < expires { expires := resets[i]; }
      }
      assert resets[..|resets|] == resets;
      if seen == generation {
        entry := Some(Entry(db, load, clock, expires));
      }
    }

    method InvalidateAll()
      modifies this
      ensures Value() == Invalidate(old(Value()))
    {
      generation := generation + 1;
      entry := None;
    }
  }

  function Expiry(clock: int, resets: seq<int>): int {
    if resets == [] then clock + TTL else Min(Expiry(clock, resets[..|resets| - 1]), resets[|resets| - 1])
  }

  lemma {:induction false} ExpiryIsEarliest(clock: int, resets: seq<int>)
    ensures Expiry(clock, resets) <= clock + TTL
    ensures forall i :: 0 <= i < |resets| ==> Expiry(clock, resets) <= resets[i]
    ensures Expiry(clock, resets) == clock + TTL || Expiry(clock, resets) in resets
  {
    if resets != [] {
      ExpiryIsEarliest(clock, resets[..|resets| - 1]);
      assert resets == resets[..|resets| - 1] + [resets[|resets| - 1]];
    }
  }

  /******* Interleavings *******/

  datatype Result = Values(load: Load) | Error

  datatype Phase =
    | Checking
    | WaitingTurn
    | Rechecking
    | Loading(generation: nat, load: Load)
    | Publishing(generation: nat, load: Load)
    | Leaving(result: Result)
    | Returned(result: Result)

  /** `resets` are the resets that the caller's own load saw. */
  datatype Reader = Reader(db: int, clock: int, began: nat, resets: seq<int>, phase: Phase)

  /** `step` numbers the steps; `invalidated` remembers at which of them the cache was invalidated;
      `turn` is who holds the load lock. */
  datatype Machine = Machine(step: nat, cache: Cache, turn: Option<nat>, readers: map<nat, Reader>,
                             invalidated: set<nat>)

  const IDLE := Machine(0, Cache(0, None), None, map[], {})

  datatype Action =
    | Call(pid: nat, db: int, clock: int)
    | Move(pid: nat, ok: bool, resets: seq<int>)
    | Clear

  function Goes(m: Machine, p: nat, r: Reader, phase: Phase): Machine {
    m.(readers := m.readers[p := r.(phase := phase)])
  }

  /** One locked section of one caller; `ok` says whether the context and the queries went well. */
  function MoveReader(m: Machine, p: nat, ok: bool, resets: seq<int>): Machine
    requires p in m.readers
  {
    var r := m.readers[p];
    match r.phase
    case Checking =>
      var hit := Lookup(m.cache, r.db, r.clock);
      Goes(m, p, r, if hit.Some? then Returned(Values(hit.value)) else WaitingTurn)
    case WaitingTurn => if m.turn.None? then Goes(m, p, r, Rechecking).(turn := Some(p)) else m
    case Rechecking =>
      if !ok then Goes(m, p, r, Leaving(Error)) else
      var hit := Lookup(m.cache, r.db, r.clock);
      Goes(m, p, r, if hit.Some? then Leaving(Values(hit.value)) else Loading(m.cache.generation, Load(p, m.step)))
    case Loading(generation, load) =>
      Goes(m, p, r.(resets := resets), if ok then Publishing(generation, load) else Leaving(Error))
    case Publishing(generation, load) =>
      Goes(m, p, r, Leaving(Values(load))).(
        cache := Publish(m.cache, generation, Entry(r.db, load, r.clock, Expiry(r.clock, r.resets))))
    case Leaving(result) => Goes(m, p, r, Returned(result)).(turn := None)
    case Returned(_) => m
  }

  function Act(m: Machine, a: Action): Machine {
    match a
    case Call(p, db, clock) =>
      if p in m.readers then m else m.(readers := m.readers[p := Reader(db, clock, m.step, [], Checking)])
    case Move(p, ok, resets) => if p in m.readers then MoveReader(m, p, ok, resets) else m
    case Clear => m.(cache := Invalidate(m.cache), invalidated := m.invalidated + {m.step})
  }

  function Next(m: Machine, a: Action): Machine { var u := Act(m, a); u.(step := m.step + 1) }

  function Run(actions: seq<Action>): Machine {
    if actions == [] then IDLE else Next(Run(actions[..|actions| - 1]), actions[|actions| - 1])
  }

  /******* What every step keeps *******/

  /** No invalidation at or after this step. */
  predicate SinceLast(m: Machine, began: nat) {
    forall v :: v in m.invalidated ==> v < began
  }

  /** No invalidation before the caller began is newer than the load. */
  predicate FreshFor(m: Machine, r: Reader, load: Load) {
    forall v :: v in m.invalidated && v < r.began ==> v < load.began
  }

  predicate HoldsTurn(r: Reader) {
    r.phase.Rechecking? || r.phase.Loading? || r.phase.Publishing? || r.phase.Leaving?
  }

  function ResultOf(r: Reader): Option<Result> {
    match r.phase
    case Leaving(result) => Some(result)
    case Returned(result) => Some(result)
    case _ => None
  }

  predicate LoadOk(m: Machine, p: nat, r: Reader, generation: nat, load: Load) {
    && generation <= m.cache.generation && load.caller == p && r.began <= load.began < m.step
    && (generation == m.cache.generation <==> SinceLast(m, load.began))
  }

  /** The load succeeded; it is the caller's own, or it was made for the same database and is within its time. */
  predicate Answers(m: Machine, p: nat, r: Reader, load: Load) {
    && load.caller in m.readers
    && var o := m.readers[load.caller];
    && ResultOf(o) == Some(Values(load))
    && (load.caller == p || (o.db == r.db && o.clock <= r.clock < Expiry(o.clock, o.resets)))
  }

  predicate ReaderOk(m: Machine, p: nat, r: Reader) {
    && (HoldsTurn(r) <==> m.turn == Some(p)) && r.began < m.step
    && (r.phase.Loading? ==> LoadOk(m, p, r, r.phase.generation, r.phase.load))
    && (r.phase.Publishing? ==> LoadOk(m, p, r, r.phase.generation, r.phase.load))
    && (ResultOf(r).Some? && ResultOf(r).value.Values? ==>
          FreshFor(m, r, ResultOf(r).value.load) && Answers(m, p, r, ResultOf(r).value.load))
  }

  /** The entry is newer than every invalidation, its load succeeded, and it says whose it is. */
  predicate EntryOk(m: Machine, e: Entry) {
    && SinceLast(m, e.load.began) && e.load.caller in m.readers
    && var o := m.readers[e.load.caller];
    && ResultOf(o) == Some(Values(e.load))
    && e.db == o.db && e.from == o.clock && e.expires == Expiry(o.clock, o.resets)
  }

  predicate Inv(m: Machine) {
    && (forall v :: v in m.invalidated ==> v < m.step)
    && (m.turn.Some? ==> m.turn.value in m.readers)
    && (m.cache.entry.Some? ==> EntryOk(m, m.cache.entry.value))
    && (forall p :: p in m.readers ==> ReaderOk(m, p, m.readers[p]))
  }

  /** A caller that has its result keeps it. */
  predicate Settled(a: Reader, b: Reader) {
    ResultOf(a).Some? ==> ResultOf(b) == ResultOf(a) && b.db == a.db && b.clock == a.clock && b.resets == a.resets
  }

  /** A step that does not invalidate leaves every other caller as it was. */
  lemma OthersKeep(m: Machine, u: Machine, p: nat, r: Reader)
    requires Inv(m) && p in m.readers && u.readers == m.readers[p := r] && u.step == m.step + 1
    requires u.invalidated == m.invalidated && u.cache.generation == m.cache.generation
    requires u.turn == m.turn || (u.turn == Some(p) && m.turn.None?) || (u.turn.None? && m.turn == Some(p))
    requires ReaderOk(u, p, r) && Settled(m.readers[p], r)
    ensures forall q :: q in u.readers ==> ReaderOk(u, q, u.readers[q])
  {
    forall q | q in u.readers ensures ReaderOk(u, q, u.readers[q]) {
      if q != p { assert ReaderOk(m, q, m.readers[q]); }
    }
  }

  /** A caller that looks the cache up, before or after its turn. */
  predicate LooksUp(r: Reader) { r.phase.Checking? || r.phase.Rechecking? }

  lemma LookedUpReaderOk(m: Machine, p: nat, ok: bool, resets: seq<int>)
    requires Inv(m) && p in m.readers && LooksUp(m.readers[p])
    ensures var u := Next(m, Move(p, ok, resets)); p in u.readers && ReaderOk(u, p, u.readers[p])
  {
    assert ReaderOk(m, p, m.readers[p]);
  }

  lemma LoadedReaderOk(m: Machine, p: nat, ok: bool, resets: seq<int>)
    requires Inv(m) && p in m.readers && !LooksUp(m.readers[p])
    ensures var u := Next(m, Move(p, ok, resets)); p in u.readers && ReaderOk(u, p, u.readers[p])
  {
    assert ReaderOk(m, p, m.readers[p]);
  }

  lemma MoveShape(m: Machine, p: nat, ok: bool, resets: seq<int>)
    requires Inv(m) && p in m.readers
    ensures var u := Next(m, Move(p, ok, resets));
            && p in u.readers && u.readers == m.readers[p := u.readers[p]] && u.invalidated == m.invalidated
            && Settled(m.readers[p], u.readers[p])
            && u.cache.generation == m.cache.generation && u.step == m.step + 1
            && (u.turn == m.turn || (u.turn == Some(p) && m.turn.None?) || (u.turn.None? && m.turn == Some(p)))
  {
    assert ReaderOk(m, p, m.readers[p]);
  }

  lemma MoveKeeps(m: Machine, p: nat, ok: bool, resets: seq<int>)
    requires Inv(m) && p in m.readers
    ensures Inv(Next(m, Move(p, ok, resets)))
  {
    var u := Next(m, Move(p, ok, resets));
    MoveShape(m, p, ok, resets);
    if LooksUp(m.readers[p]) { LookedUpReaderOk(m, p, ok, resets); } else { LoadedReaderOk(m, p, ok, resets); }
    OthersKeep(m, u, p, u.readers[p]);
    MovedEntryOk(m, p, ok, resets);
  }

  lemma MovedEntryOk(m: Machine, p: nat, ok: bool, resets: seq<int>)
    requires Inv(m) && p in m.readers
    ensures var u := Next(m, Move(p, ok, resets)); u.cache.entry.Some? ==> EntryOk(u, u.cache.entry.value)
  {
    assert ReaderOk(m, p, m.readers[p]);
  }

  lemma ClearKeeps(m: Machine)
    requires Inv(m)
    ensures Inv(Next(m, Clear))
  {
    var u := Next(m, Clear);
    forall p | p in u.readers ensures ReaderOk(u, p, u.readers[p]) { assert ReaderOk(m, p, m.readers[p]); }
  }

  lemma CallKeeps(m: Machine, p: nat, db: int, clock: int)
    requires Inv(m)
    ensures Inv(Next(m, Call(p, db, clock)))
  {
    var u := Next(m, Call(p, db, clock));
    forall q | q in u.readers ensures ReaderOk(u, q, u.readers[q]) {
      if q in m.readers { assert ReaderOk(m, q, m.readers[q]); }
    }
  }

  lemma {:induction false} EveryRunIsSafe(actions: seq<Action>)
    ensures Inv(Run(actions))
  {
    if actions != [] {
      var front, a := actions[..|actions| - 1], actions[|actions| - 1];
      EveryRunIsSafe(front);
      var m := Run(front);
      match a
      case Call(p, db, clock) => CallKeeps(m, p, db, clock);
      case Clear => ClearKeeps(m);
      case Move(p, ok, resets) =>
        if p in m.readers {
          MoveKeeps(m, p, ok, resets);
        } else {
          IdleKeeps(m);
        }
    }
  }

  lemma IdleKeeps(m: Machine)
    requires Inv(m)
    ensures Inv(m.(step := m.step + 1))
  {
    var u := m.(step := m.step + 1);
    forall p | p in u.readers ensures ReaderOk(u, p, u.readers[p]) { assert ReaderOk(m, p, m.readers[p]); }
  }

  /******* The guarantees *******/

  /** In every interleaving, a caller that began after an invalidation only ever returns values of a
      load that began after it. */
  lemma NeverStale(actions: seq<Action>, p: nat, v: nat)
    requires p in Run(actions).readers && v in Run(actions).invalidated && v < Run(actions).readers[p].began
    requires Run(actions).readers[p].phase.Returned? && Run(actions).readers[p].phase.result.Values?
    ensures v < Run(actions).readers[p].phase.result.load.began
  {
    EveryRunIsSafe(actions);
    assert ReaderOk(Run(actions), p, Run(actions).readers[p]);
  }

  /** What is published comes from a load that succeeded and began after the last invalidation, and stays usable
      from the time of that load for at most fifteen seconds and to the first reset it saw. */
  lemma OnlyGoodLoadsPublished(actions: seq<Action>)
    requires Run(actions).cache.entry.Some?
    ensures var m := Run(actions); var e := m.cache.entry.value;
            && e.load.caller in m.readers
            && var o := m.readers[e.load.caller];
            && ResultOf(o) == Some(Values(e.load)) && e.db == o.db && e.from == o.clock
            && (forall v :: v in m.invalidated ==> v < e.load.began)
            && e.expires <= e.from + 15 && (forall i :: 0 <= i < |o.resets| ==> e.expires <= o.resets[i])
            && (e.expires == e.from + 15 || e.expires in o.resets)
  {
    EveryRunIsSafe(actions);
    var o := Run(actions).readers[Run(actions).cache.entry.value.load.caller];
    ExpiryIsEarliest(o.clock, o.resets);
  }

  /** In every interleaving a caller that returns values made the load itself, or got one that was made for its
      database, not after its own time, less than fifteen seconds before it, and with no reset in between. */
  lemma AnswersFitTheCaller(actions: seq<Action>, p: nat)
    requires p in Run(actions).readers
    requires Run(actions).readers[p].phase.Returned? && Run(actions).readers[p].phase.result.Values?
    ensures var m := Run(actions); var r := m.readers[p]; var load := r.phase.result.load;
            && load.caller in m.readers
            && var o := m.readers[load.caller];
            && ResultOf(o) == Some(Values(load))
            && (load.caller == p
                || (&& o.db == r.db && o.clock <= r.clock < o.clock + 15
                    && forall i :: 0 <= i < |o.resets| ==> r.clock < o.resets[i]))
  {
    EveryRunIsSafe(actions);
    var m := Run(actions);
    assert ReaderOk(m, p, m.readers[p]);
    var o := m.readers[m.readers[p].phase.result.load.caller];
    ExpiryIsEarliest(o.clock, o.resets);
  }

  /** The cache is used: whoever calls for the database of the entry, within its time, is answered at once, before
      waiting for anybody; and whoever is not answered at once has found none that fits. */
  lemma FittingEntryAnswers(m: Machine, p: nat, ok: bool, resets: seq<int>)
    requires p in m.readers && m.readers[p].phase.Checking?
    ensures var r, u := m.readers[p], Next(m, Move(p, ok, resets)).readers[p];
            if m.cache.entry.Some? && m.cache.entry.value.db == r.db
               && m.cache.entry.value.from <= r.clock && r.clock < m.cache.entry.value.expires
            then u == r.(phase := Returned(Values(m.cache.entry.value.load)))
            else u == r.(phase := WaitingTurn)
  {
  }

  /** Steps of one caller: the first section, its turn and the second look, the load, the publication, the end. */
  function Moves(m: Machine, p: nat, live: bool, loads: bool, resets: seq<int>): Machine {
    var checked := Next(m, Move(p, true, []));
    var turned := Next(checked, Move(p, true, []));
    var looked := Next(turned, Move(p, live, []));
    var loaded := Next(looked, Move(p, loads, resets));
    var published := Next(loaded, Move(p, true, []));
    Next(published, Move(p, true, []))
  }

  /** A call that finds nothing that fits and meets nobody loads for itself: it returns what it loaded and leaves it
      in the cache, or, when its context has ended or the load failed, returns the error and leaves the cache. */
  lemma ColdCallLoads(m: Machine, p: nat, db: int, clock: int, live: bool, loads: bool, resets: seq<int>)
    requires p !in m.readers && m.turn.None?
    requires m.cache.entry.Some? ==> m.cache.entry.value.db != db || clock < m.cache.entry.value.from
                                     || m.cache.entry.value.expires <= clock
    ensures var u, load := Moves(Next(m, Call(p, db, clock)), p, live, loads, resets), Load(p, m.step + 3);
            && p in u.readers && u.turn.None? && u.invalidated == m.invalidated
            && u.readers[p].phase == Returned(if live && loads then Values(load) else Error)
            && (live && loads ==>
                  u.cache == Cache(m.cache.generation, Some(Entry(db, load, clock, Expiry(clock, resets)))))
            && (!(live && loads) ==> u.cache == m.cache)
            && forall q :: q in m.readers ==> q in u.readers && u.readers[q] == m.readers[q]
  {
  }

  /** A call that waited for its turn while another one loaded finds that load's values in its second look. */
  lemma SecondLookAnswers(m: Machine, p: nat, resets: seq<int>)
    requires p in m.readers && m.readers[p].phase.Rechecking?
    ensures var r, u := m.readers[p], Next(m, Move(p, true, resets)).readers[p];
            if m.cache.entry.Some? && m.cache.entry.value.db == r.db
               && m.cache.entry.value.from <= r.clock && r.clock < m.cache.entry.value.expires
            then u == r.(phase := Leaving(Values(m.cache.entry.value.load)))
            else u == r.(phase := Loading(m.cache.generation, Load(p, m.step)))
  {
  }

  /** In every interleaving a load that succeeded is published if and only if nothing was invalidated since it
      began; otherwise the cache stays as it is. */
  lemma PublishedIff(actions: seq<Action>, p: nat, ok: bool, resets: seq<int>)
    requires p in Run(actions).readers && Run(actions).readers[p].phase.Publishing?
    ensures var m := Run(actions); var r := m.readers[p]; var load := r.phase.load;
            var after := Next(m, Move(p, ok, resets)).cache;
            && after.generation == m.cache.generation
            && (if forall v :: v in m.invalidated ==> v < load.began
                then && after.entry.Some? && after.entry.value.db == r.db && after.entry.value.load == load
                     && after.entry.value.from == r.clock
                else after == m.cache)
  {
    EveryRunIsSafe(actions);
    assert ReaderOk(Run(actions), p, Run(actions).readers[p]);
  }

  /** No two callers load at the same time. */
  lemma SingleFlight(actions: seq<Action>, p: nat, q: nat)
    requires p in Run(actions).readers && q in Run(actions).readers
    requires HoldsTurn(Run(actions).readers[p]) && HoldsTurn(Run(actions).readers[q])
    ensures p == q
  {
    EveryRunIsSafe(actions);
    var m := Run(actions);
    assert ReaderOk(m, p, m.readers[p]) && ReaderOk(m, q, m.readers[q]);
  }
}
