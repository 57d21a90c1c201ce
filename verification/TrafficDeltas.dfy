/** Traffic from cumulative counters: growth between records, counters that drop and recover within
    half an hour, and drops that start a new baseline. */
module TrafficDeltas {
  import opened Common
  import ReportBatch

  const MINUTE := 60_000_000_000
  const RECOVERY_WINDOW := 30 * MINUTE
  const ANOMALY_MULTIPLIER := 4
  const ANOMALY_ALLOWANCE := 64 * 1024 * 1024

  /** A counter reading at a time, and the delta stored with it, if any. */
  datatype Sample = Sample(time: int, total: int, stored: int, isSet: bool)

  function AnomalyBound(direct: int): int {
    if direct > (MAX_INT64 - ANOMALY_ALLOWANCE) / ANOMALY_MULTIPLIER then MAX_INT64
    else direct * ANOMALY_MULTIPLIER + ANOMALY_ALLOWANCE
  }

  function StoredOrGrowth(s: Sample, baseline: int): int {
    if s.isSet then (if s.stored < 0 then 0 else s.stored) else ReportBatch.CounterDelta(s.total, baseline)
  }

  /** The delta of a record that does not drop below the baseline. */
  function Accepted(s: Sample, baseline: Option<int>): int {
    match baseline
    case None => s.stored
    case Some(b) =>
      var delta := StoredOrGrowth(s, b);
      if s.total >= b && delta > AnomalyBound(s.total - b) then s.total - b else delta
  }

  /******* Recovery *******/

  predicate Within(samples: seq<Sample>, i: nat, dropTime: int)
    requires i < |samples|
  {
    samples[i].time - dropTime <= RECOVERY_WINDOW
  }

  /** The first record from `start` on that reaches the baseline, unless one outside the window comes first. */
  function Recovery(samples: seq<Sample>, start: nat, baseline: int, dropTime: int): (r: Option<nat>)
    ensures r.Some? ==> start <= r.value < |samples| && samples[r.value].total >= baseline
    decreases |samples| - start
  {
    if start >= |samples| || !Within(samples, start, dropTime) then None
    else if samples[start].total >= baseline then Some(start)
    else Recovery(samples, start + 1, baseline, dropTime)
  }

  /** It is the first to reach the baseline with everything up to it inside the window; and when there
      is none, whatever reaches the baseline has a record outside the window at or before it. */
  lemma {:induction false} RecoveryIsFirst(samples: seq<Sample>, start: nat, baseline: int, dropTime: int)
    ensures var r := Recovery(samples, start, baseline, dropTime);
            && (r.Some? ==>
                  && (forall k :: start <= k <= r.value ==> Within(samples, k, dropTime))
                  && (forall k :: start <= k < r.value ==> samples[k].total < baseline))
            && (r.None? ==>
                  forall k :: start <= k < |samples| && samples[k].total >= baseline ==>
                    exists j :: start <= j <= k && !Within(samples, j, dropTime))
    decreases |samples| - start
  {
    if start < |samples| { RecoveryIsFirst(samples, start + 1, baseline, dropTime); }
  }

  method FindCounterRecovery(samples: seq<Sample>, start: nat, baseline: int, dropTime: int) returns (r: int)
    ensures r == (match Recovery(samples, start, baseline, dropTime) case Some(i) => i as int case None => -1)
  {
    var i := start;
    while i < |samples|
      invariant start <= i
      invariant Recovery(samples, start, baseline, dropTime) == Recovery(samples, i, baseline, dropTime)
    {
      if samples[i].time - dropTime > RECOVERY_WINDOW { break; }
      if samples[i].total >= baseline { return i; }
      i := i + 1;
    }
    return -1;
  }

  /******* Deltas *******/

  function Zeros(n: nat): seq<int> { seq(n, i => 0) }

  /** What the walk does at one record: the next record it looks at, the baseline it goes on with, the
      delta it books on the record before that, and the drop it gives up on. */
  datatype Turn = Turn(next: nat, baseline: int, delta: int, lost: int)

  function TurnAt(samples: seq<Sample>, i: nat, baseline: Option<int>, forced: set<nat>): (t: Turn)
    requires i < |samples|
    ensures i < t.next <= |samples| && t.baseline == samples[t.next - 1].total
  {
    var current := samples[i].total;
    if baseline.Some? && current < baseline.value then
      if i in forced then Turn(i + 1, current, 0, baseline.value - current) else
      match Recovery(samples, i + 1, baseline.value, samples[i].time)
      case Some(r) => Turn(r + 1, samples[r].total, samples[r].total - baseline.value, 0)
      case None => Turn(i + 1, current, 0, baseline.value - current)
    else Turn(i + 1, current, Accepted(samples[i], baseline), 0)
  }

  /** The deltas of all records from a position on. */
  function Deltas(samples: seq<Sample>, i: nat, baseline: Option<int>, forced: set<nat>): (r: seq<int>)
    requires i <= |samples|
    ensures |r| == |samples| - i
    decreases |samples| - i
  {
    if i == |samples| then [] else
    var t := TurnAt(samples, i, baseline, forced);
    Zeros(t.next - 1 - i) + [t.delta] + Deltas(samples, t.next, Some(t.baseline), forced)
  }

  /** The drops that were neither recovered nor charged. */
  function Lost(samples: seq<Sample>, i: nat, baseline: Option<int>, forced: set<nat>): int
    requires i <= |samples|
    decreases |samples| - i
  {
    if i == |samples| then 0 else
    var t := TurnAt(samples, i, baseline, forced);
    t.lost + Lost(samples, t.next, Some(t.baseline), forced)
  }

  /** The baseline the walk ends with. */
  function FinalBaseline(samples: seq<Sample>, i: nat, baseline: Option<int>, forced: set<nat>): Option<int>
    requires i <= |samples|
    decreases |samples| - i
  {
    if i == |samples| then baseline else
    var t := TurnAt(samples, i, baseline, forced);
    FinalBaseline(samples, t.next, Some(t.baseline), forced)
  }

  function Sum(values: seq<int>): int {
    if values == [] then 0 else values[0] + Sum(values[1..])
  }

  lemma {:induction false} SumConcat(a: seq<int>, b: seq<int>)
    ensures Sum(a + b) == Sum(a) + Sum(b)
  {
    if a == [] {
      assert a + b == b;
    } else {
      assert (a + b)[1..] == a[1..] + b;
      SumConcat(a[1..], b);
    }
  }

  lemma {:induction false} SumZeros(n: nat)
    ensures Sum(Zeros(n)) == 0
  {
    if n > 0 {
      assert Zeros(n)[1..] == Zeros(n - 1);
      SumZeros(n - 1);
    }
  }

  /** A record whose stored delta, if it is set, is the growth over the counter before it, as reports write it. */
  predicate TrustedAt(s: Sample, before: Option<int>) {
    && s.total >= 0
    && match before
       case None => s.stored == 0
       case Some(b) => s.isSet && s.total >= b ==> s.stored == s.total - b
  }

  predicate TrustedRecord(samples: seq<Sample>, i: nat, baseline: Option<int>, k: nat)
    requires i <= k < |samples|
  {
    TrustedAt(samples[k], if k == i then baseline else Some(samples[k - 1].total))
  }

  predicate Trusted(samples: seq<Sample>, i: nat, baseline: Option<int>) {
    forall k :: i <= k < |samples| ==> TrustedRecord(samples, i, baseline, k)
  }

  lemma TurnBalances(samples: seq<Sample>, i: nat, baseline: Option<int>, forced: set<nat>)
    requires i < |samples| && Trusted(samples, i, baseline) && (baseline.Some? ==> baseline.value >= 0)
    ensures var t := TurnAt(samples, i, baseline, forced);
            && t.delta >= 0 && t.lost >= 0 && t.baseline >= 0 && Trusted(samples, t.next, Some(t.baseline))
            && t.baseline == (if baseline.Some? then baseline.value else samples[i].total) + t.delta - t.lost
  {
    assert TrustedRecord(samples, i, baseline, i);
    var t := TurnAt(samples, i, baseline, forced);
    forall k | t.next <= k < |samples| ensures TrustedRecord(samples, t.next, Some(t.baseline), k) {
      assert TrustedRecord(samples, i, baseline, k);
    }
    assert TrustedRecord(samples, i, baseline, t.next - 1);
  }

  /** Conservation. For counters without stored deltas, or with those that reports write, and any set of
      forced discontinuities, every delta is non-negative, and the final baseline is the initial one plus
      all deltas minus the drops that were given up. */
  lemma {:induction false} TrafficIsConserved(samples: seq<Sample>, i: nat, baseline: Option<int>, forced: set<nat>)
    requires i <= |samples| && Trusted(samples, i, baseline) && (baseline.Some? ==> baseline.value >= 0)
    ensures var deltas := Deltas(samples, i, baseline, forced);
            && (forall k :: 0 <= k < |deltas| ==> deltas[k] >= 0)
            && Lost(samples, i, baseline, forced) >= 0
            && (baseline.Some? || i < |samples| ==>
                  var initial := if baseline.Some? then baseline.value else samples[i].total;
                  FinalBaseline(samples, i, baseline, forced) ==
                    Some(initial + Sum(deltas) - Lost(samples, i, baseline, forced)))
    decreases |samples| - i
  {
    if i < |samples| {
      var t := TurnAt(samples, i, baseline, forced);
      TurnBalances(samples, i, baseline, forced);
      TrafficIsConserved(samples, t.next, Some(t.baseline), forced);
      var rest := Deltas(samples, t.next, Some(t.baseline), forced);
      SumZeros(t.next - 1 - i);
      SumConcat(Zeros(t.next - 1 - i), [t.delta]);
      SumConcat(Zeros(t.next - 1 - i) + [t.delta], rest);
    }
  }

  /** The walk always ends on the counter of the last record. */
  lemma {:induction false} EndsOnLastCounter(samples: seq<Sample>, i: nat, baseline: Option<int>, forced: set<nat>)
    requires i <= |samples|
    ensures i < |samples| ==> FinalBaseline(samples, i, baseline, forced) == Some(samples[|samples| - 1].total)
    decreases |samples| - i
  {
    if i < |samples| {
      var t := TurnAt(samples, i, baseline, forced);
      EndsOnLastCounter(samples, t.next, Some(t.baseline), forced);
    }
  }

  /** So when no drop is given up the traffic is exactly the growth of the counter over the whole range. */
  lemma GrowthWithoutDrops(samples: seq<Sample>, baseline: int, forced: set<nat>)
    requires Trusted(samples, 0, Some(baseline)) && |samples| > 0 && 0 <= baseline
    requires Lost(samples, 0, Some(baseline), forced) == 0
    ensures Sum(Deltas(samples, 0, Some(baseline), forced)) == samples[|samples| - 1].total - baseline
  {
    TrafficIsConserved(samples, 0, Some(baseline), forced);
    EndsOnLastCounter(samples, 0, Some(baseline), forced);
  }

  /** And none is given up where the counter never runs backwards. */
  lemma {:induction false} RisingLosesNothing(samples: seq<Sample>, i: nat, baseline: Option<int>, forced: set<nat>)
    requires i <= |samples| && (baseline.Some? && i < |samples| ==> baseline.value <= samples[i].total)
    requires forall k :: i < k < |samples| ==> samples[k - 1].total <= samples[k].total
    ensures Lost(samples, i, baseline, forced) == 0
    decreases |samples| - i
  {
    if i < |samples| { RisingLosesNothing(samples, i + 1, Some(samples[i].total), forced); }
  }

  /******* What one record is charged *******/

  /** The most that a stored delta is believed: four times the growth of the counter and 64 MiB, in 64 bits. */
  function Believable(growth: int): int {
    if 4 * growth + 67_108_864 > MAX_INT64 then MAX_INT64 else 4 * growth + 67_108_864
  }

  /** What a record is charged that does not drop below the counter before it. */
  function Charged(s: Sample, before: Option<int>): int {
    match before
    case None => s.stored
    case Some(b) =>
      var growth := s.total - b;
      if !s.isSet then growth
      else if s.stored < 0 then 0
      else if s.stored <= Believable(growth) then s.stored
      else growth
  }

  /** Such a record is charged its stored delta if it has a believable one and the growth of the counter if it
      has none or an unbelievable one; and the walk goes on from its counter. */
  lemma RecordIsCharged(samples: seq<Sample>, i: nat, baseline: Option<int>, forced: set<nat>)
    requires i < |samples| && (baseline.Some? ==> 0 <= baseline.value <= samples[i].total)
    ensures Deltas(samples, i, baseline, forced) ==
              [Charged(samples[i], baseline)] + Deltas(samples, i + 1, Some(samples[i].total), forced)
  {
    AcceptedIsCharged(samples[i], baseline);
    var t := TurnAt(samples, i, baseline, forced);
    assert t == Turn(i + 1, samples[i].total, Charged(samples[i], baseline), 0);
    TurnIsFirst(samples, i, baseline, forced);
  }

  lemma AcceptedIsCharged(s: Sample, before: Option<int>)
    requires before.Some? ==> 0 <= before.value <= s.total
    ensures Accepted(s, before) == Charged(s, before)
  {
  }

  lemma TurnIsFirst(samples: seq<Sample>, i: nat, baseline: Option<int>, forced: set<nat>)
    requires i < |samples| && TurnAt(samples, i, baseline, forced).next == i + 1
    ensures var t := TurnAt(samples, i, baseline, forced);
            Deltas(samples, i, baseline, forced) == [t.delta] + Deltas(samples, i + 1, Some(t.baseline), forced)
  {
    assert Zeros(0) == [];
  }

  /** The record is the first at which the counter is back, and everything up to it is within half an hour. */
  ghost predicate Recovers(samples: seq<Sample>, start: nat, baseline: int, dropTime: int, r: nat) {
    && start <= r < |samples| && baseline <= samples[r].total
    && (forall k :: start <= k <= r ==> samples[k].time - dropTime <= 1_800_000_000_000)
    && forall k :: start <= k < r ==> samples[k].total < baseline
  }

  ghost predicate NeverRecovers(samples: seq<Sample>, start: nat, baseline: int, dropTime: int) {
    forall r: nat :: !Recovers(samples, start, baseline, dropTime, r)
  }

  lemma RecoveryIff(samples: seq<Sample>, start: nat, baseline: int, dropTime: int, r: nat)
    ensures Recovery(samples, start, baseline, dropTime) == Some(r) <==> Recovers(samples, start, baseline, dropTime, r)
  {
    RecoveryIsFirst(samples, start, baseline, dropTime);
    var found := Recovery(samples, start, baseline, dropTime);
    if Recovers(samples, start, baseline, dropTime, r) {
      forall k | start <= k <= r ensures Within(samples, k, dropTime) {
        assert samples[k].time - dropTime <= 1_800_000_000_000;
      }
      assert found.Some? && samples[found.value].total >= baseline;
    }
    if found == Some(r) {
      forall k | start <= k <= r ensures samples[k].time - dropTime <= 1_800_000_000_000 {
        assert Within(samples, k, dropTime);
      }
    }
  }

  /** A record that drops is charged nothing. If the counter recovers, and the drop is not a forced one, the
      records until then are charged nothing either and the one that recovers is charged the growth over the
      counter before the drop; otherwise the walk starts over from the counter that dropped. */
  lemma DropIsSkipped(samples: seq<Sample>, i: nat, baseline: int, forced: set<nat>, r: nat)
    requires i < |samples| && samples[i].total < baseline
    ensures i !in forced && Recovers(samples, i + 1, baseline, samples[i].time, r) ==>
              Deltas(samples, i, Some(baseline), forced) ==
                Zeros(r - i) + [samples[r].total - baseline] + Deltas(samples, r + 1, Some(samples[r].total), forced)
    ensures i in forced || NeverRecovers(samples, i + 1, baseline, samples[i].time) ==>
              Deltas(samples, i, Some(baseline), forced) ==
                [0] + Deltas(samples, i + 1, Some(samples[i].total), forced)
  {
    RecoveryIff(samples, i + 1, baseline, samples[i].time, r);
    var found := Recovery(samples, i + 1, baseline, samples[i].time);
    if found.Some? { RecoveryIff(samples, i + 1, baseline, samples[i].time, found.value); }
    if TurnAt(samples, i, Some(baseline), forced).next == i + 1 { TurnIsFirst(samples, i, Some(baseline), forced); }
  }

  /** One turn of the walk, booked in place. */
  method TakeTurn(samples: seq<Sample>, i: nat, baseline: Option<int>, forced: set<nat>, deltas: array<int>)
    returns (next: nat, base: int)
    requires i < |samples| == deltas.Length
    modifies deltas
    ensures var t := TurnAt(samples, i, baseline, forced);
            && next == t.next && base == t.baseline
            && deltas[..] == old(deltas[..])[t.next - 1 := old(deltas[..])[t.next - 1] + t.delta]
  {
    var current := samples[i].total;
    if baseline.Some? && current < baseline.value {
      if i in forced { return i + 1, current; }
      var recovery := FindCounterRecovery(samples, i + 1, baseline.value, samples[i].time);
      if recovery < 0 { return i + 1, current; }
      var recovered := samples[recovery].total;
      deltas[recovery] := deltas[recovery] + (recovered - baseline.value);
      return recovery + 1, recovered;
    }
    deltas[i] := deltas[i] + Accepted(samples[i], baseline);
    return i + 1, current;
  }

  lemma BookedTurn(done: seq<int>, n: nat, skipped: nat, delta: int)
    requires skipped < n
    ensures (done + Zeros(n))[|done| + skipped := delta] == done + (Zeros(skipped) + [delta]) + Zeros(n - skipped - 1)
    ensures (done + Zeros(n))[|done| + skipped] == 0
  {
  }

  lemma WalkedTurn(all: seq<int>, done: seq<int>, turn: seq<int>, rest: seq<int>)
    requires all == done + (turn + rest)
    ensures all == (done + turn) + rest
  {
  }

  /** The finished deltas and those still to come make up all of them. */
  predicate Walked(samples: seq<Sample>, i: nat, base: Option<int>, forced: set<nat>, all: seq<int>, done: seq<int>)
    requires i <= |samples|
  {
    |done| == i && all == done + Deltas(samples, i, base, forced)
  }

  /** One turn, seen from both sides: what it adds to the finished deltas and what it leaves to do. */
  lemma TurnAdds(samples: seq<Sample>, i: nat, base: Option<int>, forced: set<nat>, all: seq<int>, done: seq<int>)
    returns (more: seq<int>)
    requires i < |samples| && Walked(samples, i, base, forced, all, done)
    ensures var t := TurnAt(samples, i, base, forced); var booked := done + Zeros(|samples| - i);
            && Walked(samples, t.next, Some(t.baseline), forced, all, more)
            && booked[t.next - 1 := booked[t.next - 1] + t.delta] == more + Zeros(|samples| - t.next)
  {
    var t := TurnAt(samples, i, base, forced);
    var turn := Zeros(t.next - 1 - i) + [t.delta];
    BookedTurn(done, |samples| - i, t.next - 1 - i, t.delta);
    WalkedTurn(all, done, turn, Deltas(samples, t.next, Some(t.baseline), forced));
    more := done + turn;
  }

  /** trafficDeltasByRecord: one pass with a moving baseline that may jump ahead to a recovery. */
  method TrafficDeltasByRecord(samples: seq<Sample>, baseline: Option<int>, forced: set<nat>)
    returns (deltas: array<int>)
    ensures fresh(deltas) && deltas[..] == Deltas(samples, 0, baseline, forced)
  {
    deltas := new int[|samples|](i => 0);
    var base := baseline;
    var i := 0;
    ghost var all, done: seq<int> := Deltas(samples, 0, baseline, forced), [];
    while i < |samples|
      invariant 0 <= i <= |samples| == deltas.Length && fresh(deltas)
      invariant Walked(samples, i, base, forced, all, done)
      invariant deltas[..] == done + Zeros(|samples| - i)
      decreases |samples| - i
    {
      ghost var more := TurnAdds(samples, i, base, forced, all, done);
      var moved;
      i, moved := TakeTurn(samples, i, base, forced, deltas);
      base := Some(moved);
      done := more;
    }
  }

  /******* Drops of both directions at once *******/

  /** One direction of a record: its counter, and the delta stored with it, if any. */
  datatype Reading = Reading(total: int, stored: int, isSet: bool)

  datatype Record = Record(time: int, up: Reading, down: Reading)

  function Timed(time: int, r: Reading): Sample { Sample(time, r.total, r.stored, r.isSet) }

  function Ups(records: seq<Record>): seq<Sample> {
    seq(|records|, i requires 0 <= i < |records| => Timed(records[i].time, records[i].up))
  }

  function Downs(records: seq<Record>): seq<Sample> {
    seq(|records|, i requires 0 <= i < |records| => Timed(records[i].time, records[i].down))
  }

  datatype Counters = Counters(up: int, down: int)

  function Previous(records: seq<Record>, i: nat, baseline: Option<Counters>): Option<Counters>
    requires i <= |records|
  {
    if i == 0 then baseline else Some(Counters(records[i - 1].up.total, records[i - 1].down.total))
  }

  /** Both counters drop below their previous values and do not recover on one and the same record. */
  predicate Discontinuity(records: seq<Record>, i: nat, baseline: Option<Counters>)
    requires i < |records|
  {
    var previous := Previous(records, i, baseline);
    && previous.Some?
    && records[i].up.total < previous.value.up && records[i].down.total < previous.value.down
    && (var up := Recovery(Ups(records), i + 1, previous.value.up, records[i].time);
        var down := Recovery(Downs(records), i + 1, previous.value.down, records[i].time);
        up.None? || down.None? || up != down)
  }

  /** No record is the first at which both counters are back. */
  ghost predicate RecoverApart(ups: seq<Sample>, downs: seq<Sample>, start: nat, before: Counters, dropTime: int) {
    forall r: nat ::
      !(Recovers(ups, start, before.up, dropTime, r) && Recovers(downs, start, before.down, dropTime, r))
  }

  lemma ApartIff(ups: seq<Sample>, downs: seq<Sample>, start: nat, before: Counters, dropTime: int)
    ensures var up, down := Recovery(ups, start, before.up, dropTime), Recovery(downs, start, before.down, dropTime);
            RecoverApart(ups, downs, start, before, dropTime) <==> up.None? || down.None? || up != down
  {
    forall r: nat
      ensures Recovery(ups, start, before.up, dropTime) == Some(r) <==> Recovers(ups, start, before.up, dropTime, r)
      ensures Recovery(downs, start, before.down, dropTime) == Some(r) <==>
                Recovers(downs, start, before.down, dropTime, r)
    {
      RecoveryIff(ups, start, before.up, dropTime, r);
      RecoveryIff(downs, start, before.down, dropTime, r);
    }
    var up := Recovery(ups, start, before.up, dropTime);
    if up.Some? { assert Recovers(ups, start, before.up, dropTime, up.value); }
  }

  /** It is forced exactly when both directions drop and there is no record at which both are back for the first
      time within the half hour. */
  lemma DiscontinuityIff(records: seq<Record>, i: nat, baseline: Option<Counters>)
    requires i < |records|
    ensures Discontinuity(records, i, baseline) <==>
              && (i == 0 ==> baseline.Some?)
              && var before := if i == 0 then baseline.value
                               else Counters(records[i - 1].up.total, records[i - 1].down.total);
              && records[i].up.total < before.up && records[i].down.total < before.down
              && RecoverApart(Ups(records), Downs(records), i + 1, before, records[i].time)
  {
    if i > 0 || baseline.Some? {
      var before := Previous(records, i, baseline).value;
      ApartIff(Ups(records), Downs(records), i + 1, before, records[i].time);
    }
  }

  /** correlatedCounterDiscontinuities. */
  method CorrelatedDiscontinuities(records: seq<Record>, baseline: Option<Counters>) returns (forced: set<nat>)
    ensures forall i: nat :: i in forced <==> i < |records| && Discontinuity(records, i, baseline)
  {
    forced := {};
    var previous := baseline;
    var ups, downs := Ups(records), Downs(records);
    for i := 0 to |records|
      invariant previous == Previous(records, i, baseline)
      invariant forall k: nat :: k in forced <==> k < i && Discontinuity(records, k, baseline)
    {
      if previous.Some? && records[i].up.total < previous.value.up && records[i].down.total < previous.value.down {
        var up := FindCounterRecovery(ups, i + 1, previous.value.up, records[i].time);
        var down := FindCounterRecovery(downs, i + 1, previous.value.down, records[i].time);
        if up < 0 || down < 0 || up != down {
          forced := forced + {i};
        }
      }
      previous := Some(Counters(records[i].up.total, records[i].down.total));
    }
  }
}
