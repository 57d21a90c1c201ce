/** Agent reports as metric points: what writing one report does, and what a list of them amounts to.

    Times are nanoseconds. A report always carries a receive time; an absent time is the zero time
    of a traffic state that has seen nothing. */
module ReportBatch {
  import opened Common

  /** Whether the two lookups of earlier counters, when this report needs them, can be read. */
  datatype Lookups = Lookups(up: bool, down: bool)

  datatype Report = Report(
    entity: string, time: int, up: int, down: int, totalUp: int, totalDown: int, gauges: string, lookups: Lookups)

  datatype Metric = NetTotalUp | NetTotalDown | TrafficUp | TrafficDown

  datatype Point =
    | Counter(metric: Metric, entity: string, time: int, value: int)
    | Gauges(entity: string, time: int, payload: string)

  /** The counters last seen from one entity. */
  datatype Values = Values(
    initialized: bool, timestamp: Option<int>, hasUp: bool, totalUp: int, hasDown: bool, totalDown: int)

  const UNSEEN := Values(false, None, false, 0, false, 0)

  datatype Store = Store(points: seq<Point>, states: map<string, Values>)

  const SECOND := 1_000_000_000
  const RATE_MULTIPLIER := 4
  const RATE_ALLOWANCE := 64 * 1024 * 1024

  /******* Deltas *******/

  function CounterDelta(current: int, previous: int): int {
    if current < 0 || previous < 0 then 0
    else if current >= previous then current - previous
    else 0
  }

  /** Whole seconds, rounded up, except that the 64-bit sum before the division wraps near its end and the
      division then truncates a negative. */
  function SecondsUp(elapsed: int): int {
    var sum := elapsed + SECOND - 1;
    if sum > MAX_INT64 then -((2 * (MAX_INT64 + 1) - sum) / SECOND) else sum / SECOND
  }

  /** reportTrafficDeltaUpperBound, with its two guards against overflow. */
  function UpperBound(rate: int, elapsed: int): int
    requires elapsed > 0
  {
    if rate < 0 then RATE_ALLOWANCE else
    var seconds := SecondsUp(elapsed);
    if seconds <= 0 || rate == 0 then RATE_ALLOWANCE
    else if rate > MAX_INT64 / seconds then MAX_INT64
    else if rate * seconds > (MAX_INT64 - RATE_ALLOWANCE) / RATE_MULTIPLIER then MAX_INT64
    else rate * seconds * RATE_MULTIPLIER + RATE_ALLOWANCE
  }

  lemma QuotientExceeded(rate: int, seconds: int)
    requires seconds > 0 && rate > MAX_INT64 / seconds
    ensures rate * seconds > MAX_INT64
  {
    var q := MAX_INT64 / seconds;
    assert MAX_INT64 == q * seconds + MAX_INT64 % seconds;
    assert rate * seconds >= (q + 1) * seconds;
  }

  /** For every rate and duration: the guards compute the exact bound, saturated at the largest 64-bit
      value, from the seconds rounded up; a negative rate, or a duration within a second of the longest,
      leaves only the allowance. */
  lemma UpperBoundSaturates(rate: int, elapsed: int)
    requires 0 < elapsed <= MAX_INT64
    ensures UpperBound(rate, elapsed) ==
              if rate < 0 || elapsed + 999_999_999 > MAX_INT64 then 67_108_864
              else Min(MAX_INT64, 4 * (rate * SecondsUp(elapsed)) + 67_108_864)
    ensures elapsed + 999_999_999 <= MAX_INT64 ==>
              SecondsUp(elapsed) * 1_000_000_000 >= elapsed > (SecondsUp(elapsed) - 1) * 1_000_000_000
  {
    var seconds := SecondsUp(elapsed);
    if rate >= 0 && seconds > 0 && rate > MAX_INT64 / seconds {
      QuotientExceeded(rate, seconds);
    }
  }

  function ReportDelta(current: int, previous: int, rate: int, elapsed: int): int {
    var delta := CounterDelta(current, previous);
    if delta == 0 || elapsed <= 0 then delta
    else if delta > UpperBound(rate, elapsed) then 0
    else delta
  }

  /** Subtracting two times saturates at the longest duration. */
  function Elapsed(later: int, earlier: int): int { Min(later - earlier, MAX_INT64) }

  /******* One report *******/

  predicate IsSample(p: Point, metric: Metric, entity: string, before: int) {
    p.Counter? && p.metric == metric && p.entity == entity && p.time < before
  }

  /** The stored sample with the greatest time strictly before the given one. */
  function LatestBefore(points: seq<Point>, metric: Metric, entity: string, before: int): (r: Option<Point>)
    ensures r.Some? ==> r.value in points && IsSample(r.value, metric, entity, before)
    ensures forall p :: p in points && IsSample(p, metric, entity, before) ==> r.Some? && p.time <= r.value.time
  {
    if points == [] then None else
    var rest := LatestBefore(points[..|points| - 1], metric, entity, before);
    var p := points[|points| - 1];
    assert points == points[..|points| - 1] + [p];
    if IsSample(p, metric, entity, before) && (rest.None? || rest.value.time <= p.time) then Some(p) else rest
  }

  /** A lookup that cannot be read counts as finding nothing. */
  function Found(points: seq<Point>, metric: Metric, r: Report, readable: bool): Option<Point> {
    if readable then LatestBefore(points, metric, r.entity, r.time) else None
  }

  function Restore(points: seq<Point>, r: Report): Values {
    var up := Found(points, NetTotalUp, r, r.lookups.up);
    var down := Found(points, NetTotalDown, r, r.lookups.down);
    Values(true,
           if up.Some? && down.Some? then Some(Max(up.value.time, down.value.time))
           else if up.Some? then Some(up.value.time)
           else if down.Some? then Some(down.value.time) else None,
           up.Some?, if up.Some? then up.value.value else 0,
           down.Some?, if down.Some? then down.value.value else 0)
  }

  /** What the traffic state says when the report arrives. */
  function Before(s: Store, r: Report): Values {
    var v := if r.entity in s.states then s.states[r.entity] else UNSEEN;
    if v.initialized then v else Restore(s.points, r)
  }

  /** A report that is not later than the last one is moved one nanosecond past it. */
  function Stamp(v: Values, r: Report): Report {
    if v.timestamp.Some? && r.time <= v.timestamp.value then r.(time := v.timestamp.value + 1) else r
  }

  function Delta(v: Values, time: int, has: bool, current: int, previous: int, rate: int): int {
    if !has then 0
    else ReportDelta(current, previous, rate, if v.timestamp.Some? then Elapsed(time, v.timestamp.value) else MAX_INT64)
  }

  function Points(v: Values, r: Report): seq<Point> {
    [Counter(NetTotalUp, r.entity, r.time, r.totalUp), Counter(NetTotalDown, r.entity, r.time, r.totalDown),
     Counter(TrafficUp, r.entity, r.time, Delta(v, r.time, v.hasUp, r.totalUp, v.totalUp, r.up)),
     Counter(TrafficDown, r.entity, r.time, Delta(v, r.time, v.hasDown, r.totalDown, v.totalDown, r.down)),
     Gauges(r.entity, r.time, r.gauges)]
  }

  function Seen(r: Report): Values { Values(true, Some(r.time), true, r.totalUp, true, r.totalDown) }

  /** Writing one report on its own. */
  function One(s: Store, r: Report): Store {
    var v := Before(s, r);
    var stamped := Stamp(v, r);
    Store(s.points + Points(v, stamped), s.states[r.entity := Seen(stamped)])
  }

  /******* A list of reports, one at a time *******/

  function Fold(s: Store, reports: seq<Report>): Store {
    if reports == [] then s else One(Fold(s, reports[..|reports| - 1]), reports[|reports| - 1])
  }

  /** The report at a position as it was stored. */
  function Prepared(s: Store, reports: seq<Report>, i: nat): Report
    requires i < |reports|
  {
    Stamp(Before(Fold(s, reports[..i]), reports[i]), reports[i])
  }

  /** Any split of a list gives the same points and states as the whole. */
  lemma {:induction false} SplitFold(s: Store, a: seq<Report>, b: seq<Report>)
    ensures Fold(s, a + b) == Fold(Fold(s, a), b)
  {
    if b == [] {
      assert a + b == a;
    } else {
      var front := b[..|b| - 1];
      assert (a + b)[..|a + b| - 1] == a + front;
      SplitFold(s, a, front);
    }
  }

  lemma FoldStep(s: Store, reports: seq<Report>, i: nat)
    requires i < |reports|
    ensures Fold(s, reports[..i + 1]) == One(Fold(s, reports[..i]), reports[i])
  {
    assert reports[..i + 1][..i] == reports[..i];
  }

  lemma {:induction false} StateIsLastReport(s: Store, reports: seq<Report>, i: nat, j: nat)
    requires i < j <= |reports|
    requires forall k :: i < k < j ==> reports[k].entity != reports[i].entity
    ensures reports[i].entity in Fold(s, reports[..j]).states
    ensures Fold(s, reports[..j]).states[reports[i].entity] == Seen(Prepared(s, reports, i))
  {
    FoldStep(s, reports, j - 1);
    if i < j - 1 { StateIsLastReport(s, reports, i, j - 1); }
  }

  /** The points that the report at a position adds. */
  function Added(s: Store, reports: seq<Report>, i: nat): seq<Point>
    requires i < |reports|
  {
    Points(Before(Fold(s, reports[..i]), reports[i]), Prepared(s, reports, i))
  }

  lemma AddedAreStored(s: Store, reports: seq<Report>, i: nat)
    requires i < |reports|
    ensures Fold(s, reports[..i + 1]).points == Fold(s, reports[..i]).points + Added(s, reports, i)
  {
    FoldStep(s, reports, i);
  }

  /** Between one report of an entity and its next, the next is stored strictly later, and its traffic
      is zero or exactly the growth of the counter, within the bound for its rate and the time since. */
  lemma ConsecutiveReports(s: Store, reports: seq<Report>, i: nat, j: nat)
    requires i < j < |reports| && reports[i].entity == reports[j].entity
    requires forall k :: i < k < j ==> reports[k].entity != reports[i].entity
    ensures var p, q := Prepared(s, reports, i), Prepared(s, reports, j); var added := Added(s, reports, j);
            && p.time < q.time && q == reports[j].(time := Max(reports[j].time, p.time + 1))
            && added[0] == Counter(NetTotalUp, q.entity, q.time, q.totalUp)
            && added[1] == Counter(NetTotalDown, q.entity, q.time, q.totalDown)
            && added[2] == Counter(TrafficUp, q.entity, q.time, added[2].value)
            && added[3] == Counter(TrafficDown, q.entity, q.time, added[3].value)
            && FairDelta(added[2].value, p.totalUp, q.totalUp, q.up, q.time - p.time)
            && FairDelta(added[3].value, p.totalDown, q.totalDown, q.down, q.time - p.time)
    ensures Fold(s, reports[..j + 1]).points == Fold(s, reports[..j]).points + Added(s, reports, j)
  {
    AddedAreStored(s, reports, j);
    StateIsLastReport(s, reports, i, j);
    var p, q := Prepared(s, reports, i), Prepared(s, reports, j);
    assert Before(Fold(s, reports[..j]), reports[j]) == Seen(p);
    DeltaIsFair(p.totalUp, q.totalUp, q.up, q.time - p.time);
    DeltaIsFair(p.totalDown, q.totalDown, q.down, q.time - p.time);
  }

  /** The newest stored counter of the direction strictly before the report, if it could be read and there is one. */
  ghost predicate NewestCounter(points: seq<Point>, metric: Metric, r: Report, readable: bool, found: Option<Point>) {
    match found
    case Some(p) =>
      && readable && p in points && p.Counter? && p.metric == metric && p.entity == r.entity && p.time < r.time
      && forall x :: x in points && x.Counter? && x.metric == metric && x.entity == r.entity && x.time < r.time ==>
           x.time <= p.time
    case None =>
      readable ==> forall x :: x in points ==>
        !(x.Counter? && x.metric == metric && x.entity == r.entity && x.time < r.time)
  }

  /** The first report of an entity after a restart is stored at its own time, and its traffic in each direction is
      the growth over the newest stored counter of that direction, or nothing when there is none; the time it
      took counts from the newer of the two counters. */
  lemma FirstReport(s: Store, r: Report) returns (up: Option<Point>, down: Option<Point>)
    requires r.entity in s.states ==> !s.states[r.entity].initialized
    ensures NewestCounter(s.points, NetTotalUp, r, r.lookups.up, up)
    ensures NewestCounter(s.points, NetTotalDown, r, r.lookups.down, down)
    ensures var added := Points(Before(s, r), Stamp(Before(s, r), r));
            && One(s, r) == Store(s.points + added, s.states[r.entity := Seen(r)])
            && added[0] == Counter(NetTotalUp, r.entity, r.time, r.totalUp)
            && added[1] == Counter(NetTotalDown, r.entity, r.time, r.totalDown)
            && added[2] == Counter(TrafficUp, r.entity, r.time, added[2].value)
            && added[3] == Counter(TrafficDown, r.entity, r.time, added[3].value)
            && added[4] == Gauges(r.entity, r.time, r.gauges) && |added| == 5
            && (up.None? ==> added[2].value == 0) && (down.None? ==> added[3].value == 0)
            && forall since :: Newer(up, down, since) ==>
                 && since < r.time
                 && (up.Some? ==> FairDelta(added[2].value, up.value.value, r.totalUp, r.up, r.time - since))
                 && (down.Some? ==> FairDelta(added[3].value, down.value.value, r.totalDown, r.down, r.time - since))
  {
    up, down := Found(s.points, NetTotalUp, r, r.lookups.up), Found(s.points, NetTotalDown, r, r.lookups.down);
    var v := Before(s, r);
    assert v == Restore(s.points, r) && Stamp(v, r) == r;
    if v.timestamp.Some? {
      var elapsed := r.time - v.timestamp.value;
      if up.Some? { DeltaIsFair(up.value.value, r.totalUp, r.up, elapsed); }
      if down.Some? { DeltaIsFair(down.value.value, r.totalDown, r.down, elapsed); }
    }
  }

  /** The time of the newer of the counters that were found. */
  ghost predicate Newer(up: Option<Point>, down: Option<Point>, since: int) {
    && (|| (up.Some? && up.value.Counter? && since == up.value.time)
        || (down.Some? && down.value.Counter? && since == down.value.time))
    && (up.Some? && up.value.Counter? ==> up.value.time <= since)
    && (down.Some? && down.value.Counter? ==> down.value.time <= since)
  }

  predicate FairDelta(delta: int, previous: int, current: int, rate: int, elapsed: int)
    requires elapsed > 0
  {
    && delta >= 0
    && (delta != 0 ==>
          0 <= previous <= current && delta == current - previous && delta <= UpperBound(rate, Min(elapsed, MAX_INT64)))
    && (0 <= previous <= current && current - previous <= UpperBound(rate, Min(elapsed, MAX_INT64)) ==>
          delta == current - previous)
  }

  lemma DeltaIsFair(previous: int, current: int, rate: int, elapsed: int)
    requires elapsed > 0
    ensures FairDelta(ReportDelta(current, previous, rate, Min(elapsed, MAX_INT64)), previous, current, rate, elapsed)
  {
  }

  /** Stored times of one entity strictly increase along the whole list, whatever times were reported. */
  lemma {:induction false} TimesIncrease(s: Store, reports: seq<Report>, i: nat, j: nat)
    requires i < j < |reports| && reports[i].entity == reports[j].entity
    ensures Prepared(s, reports, i).time < Prepared(s, reports, j).time
    decreases j - i
  {
    if k :| i < k < j && reports[k].entity == reports[i].entity {
      TimesIncrease(s, reports, i, k);
      TimesIncrease(s, reports, k, j);
    } else {
      ConsecutiveReports(s, reports, i, j);
    }
  }

  /******* The guard *******/

  function Keep(blocked: set<string>, reports: seq<Report>): (r: seq<Report>)
    ensures |r| <= |reports|
  {
    if reports == [] then [] else
    var last := reports[|reports| - 1];
    if last.entity in blocked then Keep(blocked, reports[..|reports| - 1])
    else Keep(blocked, reports[..|reports| - 1]) + [last]
  }

  /** Exactly the reports that are not blocked are kept. */
  lemma {:induction false} KeepMembers(blocked: set<string>, reports: seq<Report>)
    ensures forall x :: x in Keep(blocked, reports) <==> x in reports && x.entity !in blocked
  {
    if reports != [] {
      KeepMembers(blocked, reports[..|reports| - 1]);
      assert reports == reports[..|reports| - 1] + [reports[|reports| - 1]];
    }
  }

  lemma {:induction false} KeepSplit(blocked: set<string>, a: seq<Report>, b: seq<Report>)
    ensures Keep(blocked, a + b) == Keep(blocked, a) + Keep(blocked, b)
  {
    if b == [] {
      assert a + b == a;
    } else {
      var front := b[..|b| - 1];
      assert (a + b)[..|a + b| - 1] == a + front;
      KeepSplit(blocked, a, front);
    }
  }

  lemma {:induction false} KeepAll(blocked: set<string>, a: seq<Report>)
    requires forall x :: x in a ==> x.entity !in blocked
    ensures Keep(blocked, a) == a
  {
    if a != [] {
      assert a == a[..|a| - 1] + [a[|a| - 1]];
      KeepAll(blocked, a[..|a| - 1]);
    }
  }

  /** The guard as it is read before and after the wait for the lease. */
  datatype Readings = Readings(first: set<string>, second: set<string>)

  function KeepBoth(g: Readings, reports: seq<Report>): seq<Report> { Keep(g.second, Keep(g.first, reports)) }

  /** What both readings of the guard let through, in the order it came. */
  lemma {:induction false} KeptByBoth(g: Readings, reports: seq<Report>)
    ensures KeepBoth(g, reports) == Keep(g.first + g.second, reports)
  {
    if reports != [] {
      var front, last := reports[..|reports| - 1], reports[|reports| - 1];
      KeptByBoth(g, front);
      var once := Keep(g.first, front);
      if last.entity !in g.first { assert (once + [last])[..|once|] == once; }
    }
  }

  /** What filtering in place twice leaves in the memory of the batch. */
  function ShiftedBoth(g: Readings, reports: seq<Report>): seq<Report> {
    var once, kept := Keep(g.first, reports), KeepBoth(g, reports);
    kept + once[|kept|..] + reports[|once|..]
  }

  /** Filtering in place leaves the kept reports at the front and the old ones behind them. */
  function Shifted(blocked: set<string>, reports: seq<Report>): seq<Report> {
    Keep(blocked, reports) + reports[|Keep(blocked, reports)|..]
  }

  /** Every blocked report comes after every other. */
  predicate BlockedLast(blocked: set<string>, reports: seq<Report>) {
    forall i, j :: 0 <= i < j < |reports| && reports[i].entity in blocked ==> reports[j].entity in blocked
  }

  lemma {:induction false} KeptPrefix(blocked: set<string>, reports: seq<Report>)
    requires BlockedLast(blocked, reports)
    ensures Keep(blocked, reports) == reports[..|Keep(blocked, reports)|]
  {
    if reports != [] {
      var front, last := reports[..|reports| - 1], reports[|reports| - 1];
      if last.entity !in blocked {
        forall x | x in front ensures x.entity !in blocked {
          var i :| 0 <= i < |front| && front[i] == x;
          assert reports[i] == x;
        }
        KeepAll(blocked, front);
      } else {
        assert forall i :: 0 <= i < |front| ==> front[i] == reports[i];
        KeptPrefix(blocked, front);
      }
    }
  }

  /** After a failed write the pending reports are as they were exactly when no blocked report came
      before a kept one. */
  lemma ShiftedUnchangedIff(blocked: set<string>, reports: seq<Report>)
    ensures Shifted(blocked, reports) == reports <==> BlockedLast(blocked, reports)
  {
    var kept := Keep(blocked, reports);
    if BlockedLast(blocked, reports) {
      KeptPrefix(blocked, reports);
    }
    if Shifted(blocked, reports) == reports {
      KeepMembers(blocked, reports);
      forall i | 0 <= i < |kept| ensures reports[i].entity !in blocked {
        assert Shifted(blocked, reports)[i] == kept[i] && kept[i] in kept;
      }
      TailIsBlocked(blocked, reports);
    }
  }

  lemma TailIsBlocked(blocked: set<string>, reports: seq<Report>)
    requires forall i :: 0 <= i < |Keep(blocked, reports)| ==> reports[i].entity !in blocked
    ensures forall i :: |Keep(blocked, reports)| <= i < |reports| ==> reports[i].entity in blocked
  {
    var n := |Keep(blocked, reports)|;
    var head, tail := reports[..n], reports[n..];
    assert reports == head + tail;
    KeepSplit(blocked, head, tail);
    KeepAll(blocked, head);
    assert Keep(blocked, tail) == [];
    KeepMembers(blocked, tail);
    forall i | n <= i < |reports| ensures reports[i].entity in blocked {
      assert reports[i] == tail[i - n];
      assert tail[i - n] in tail;
    }
  }

  /** What the retry of a failed batch keeps: everything it kept before, and once more each kept
      report that stood at or behind the number of kept ones. None is lost. */
  lemma RetryKeeps(blocked: set<string>, reports: seq<Report>)
    ensures Keep(blocked, Shifted(blocked, reports)) ==
              Keep(blocked, reports) + Keep(blocked, reports[|Keep(blocked, reports)|..])
  {
    var kept := Keep(blocked, reports);
    KeepSplit(blocked, kept, reports[|kept|..]);
    KeepMembers(blocked, reports);
    KeepAll(blocked, kept);
  }

  lemma {:induction false} KeptWholeIsFree(blocked: set<string>, reports: seq<Report>)
    requires |Keep(blocked, reports)| == |reports|
    ensures forall i :: 0 <= i < |reports| ==> reports[i].entity !in blocked
  {
    if reports != [] {
      var front := reports[..|reports| - 1];
      KeptWholeIsFree(blocked, front);
      assert forall i :: 0 <= i < |front| ==> front[i] == reports[i];
    }
  }

  lemma NothingKeptBehind(blocked: set<string>, head: seq<Report>, tail: seq<Report>)
    requires BlockedLast(blocked, head + tail) && |Keep(blocked, head + tail)| == |head|
    ensures Keep(blocked, tail) == []
  {
    KeptPrefix(blocked, head + tail);
    assert Keep(blocked, head + tail) == head;
    KeepTwice(blocked, head + tail);
    KeepSplit(blocked, head, tail);
  }

  lemma OnlyBlockedBehind(blocked: set<string>, head: seq<Report>, tail: seq<Report>)
    requires |Keep(blocked, head)| == |head| && Keep(blocked, tail) == []
    ensures BlockedLast(blocked, head + tail)
  {
    KeptWholeIsFree(blocked, head);
    KeepMembers(blocked, tail);
    forall i | |head| <= i < |head + tail| ensures (head + tail)[i].entity in blocked {
      var x := tail[i - |head|];
      assert x in tail;
    }
  }

  /** A retry repeats nothing if and only if no blocked report came before a kept one. */
  lemma NothingRepeatedIff(blocked: set<string>, reports: seq<Report>)
    ensures Keep(blocked, reports[|Keep(blocked, reports)|..]) == [] <==> BlockedLast(blocked, reports)
  {
    var n := |Keep(blocked, reports)|;
    var head, tail := reports[..n], reports[n..];
    assert reports == head + tail;
    if BlockedLast(blocked, reports) { NothingKeptBehind(blocked, head, tail); }
    if Keep(blocked, tail) == [] {
      KeepSplit(blocked, head, tail);
      OnlyBlockedBehind(blocked, head, tail);
    }
  }

  lemma KeepTwice(blocked: set<string>, reports: seq<Report>)
    ensures Keep(blocked, Keep(blocked, reports)) == Keep(blocked, reports)
  {
    KeepMembers(blocked, reports);
    KeepAll(blocked, Keep(blocked, reports));
  }

  /** With one and the same guard the second filter does nothing. */
  lemma SteadyGuard(blocked: set<string>, reports: seq<Report>)
    ensures KeepBoth(Readings(blocked, blocked), reports) == Keep(blocked, reports)
    ensures ShiftedBoth(Readings(blocked, blocked), reports) == Shifted(blocked, reports)
  {
    KeepTwice(blocked, reports);
  }

  /******* States that no report can tell apart *******/

  /** An empty state counts as none. */
  ghost predicate SameStates(was: map<string, Values>, now: map<string, Values>) {
    forall e :: (if e in now then now[e] else UNSEEN) == (if e in was then was[e] else UNSEEN)
  }

  ghost predicate SameStore(a: Store, b: Store) { a.points == b.points && SameStates(a.states, b.states) }

  lemma SameStoreOne(a: Store, b: Store, r: Report)
    requires SameStore(a, b)
    ensures SameStore(One(a, r), One(b, r))
  {
    assert Before(a, r) == Before(b, r);
  }

  lemma {:induction false} SameStoreFold(a: Store, b: Store, reports: seq<Report>)
    requires SameStore(a, b)
    ensures SameStore(Fold(a, reports), Fold(b, reports))
  {
    if reports != [] {
      SameStoreFold(a, b, reports[..|reports| - 1]);
      SameStoreOne(Fold(a, reports[..|reports| - 1]), Fold(b, reports[..|reports| - 1]), reports[|reports| - 1]);
    }
  }

  /** What a failed flush and a successful retry write: what was written before the failure, the kept
      reports of the failed batch, once more those of them that stood at or behind their number, and
      the kept reports that had not been reached. */
  function RetryOrder(blocked: set<string>, written: seq<Report>, failed: seq<Report>,
                      unreached: seq<Report>): seq<Report> {
    var kept := Keep(blocked, failed);
    Keep(blocked, written) + (kept + Keep(blocked, failed[|kept|..]) + Keep(blocked, unreached))
  }

  lemma RetryWrites(base: Store, now: Store, blocked: set<string>,
                    written: seq<Report>, failed: seq<Report>, unreached: seq<Report>)
    requires SameStore(Fold(base, Keep(blocked, written)), now)
    ensures SameStore(Fold(base, RetryOrder(blocked, written, failed, unreached)),
                      Fold(now, Keep(blocked, Shifted(blocked, failed) + unreached)))
  {
    var before := Fold(base, Keep(blocked, written));
    var rest := Keep(blocked, Shifted(blocked, failed) + unreached);
    KeepSplit(blocked, Shifted(blocked, failed), unreached);
    RetryKeeps(blocked, failed);
    SplitFold(base, Keep(blocked, written), rest);
    SameStoreFold(before, now, rest);
  }

  /** So the retry leaves the store as if nothing had failed when every blocked report of the failed batch
      stood behind every kept one. */
  lemma RetryIsClean(base: Store, now: Store, blocked: set<string>,
                     written: seq<Report>, failed: seq<Report>, unreached: seq<Report>)
    requires SameStore(Fold(base, Keep(blocked, written)), now) && BlockedLast(blocked, failed)
    ensures SameStore(Fold(base, Keep(blocked, written + failed + unreached)),
                      Fold(now, Keep(blocked, Shifted(blocked, failed) + unreached)))
  {
    ShiftedUnchangedIff(blocked, failed);
    KeepSplit(blocked, written, failed + unreached);
    assert written + failed + unreached == written + (failed + unreached);
    SplitFold(base, Keep(blocked, written), Keep(blocked, failed + unreached));
    SameStoreFold(Fold(base, Keep(blocked, written)), now, Keep(blocked, failed + unreached));
  }
}
