/** The three ways traffic is added up - directly, by interval and by Beijing day - and that they agree. */
module TrafficBuckets {
  import opened Common
  import opened TrafficDeltas

  const DAY_NS := 24 * 60 * MINUTE
  const BEIJING_OFFSET := 8 * 60 * MINUTE

  datatype Usage = Usage(up: int, down: int)

  datatype Bucket = Bucket(start: int, usage: Usage)

  /** January 1 of the year one, from which intervals are counted, in nanoseconds since the epoch. */
  const ZERO_TIME := -62_135_596_800 * 1_000_000_000

  /** The start of the interval a time falls into. */
  function Truncate(time: int, interval: int): int
    requires interval > 0
  {
    time - (time - ZERO_TIME) % interval
  }

  /** The Beijing calendar day of a time, numbered from the epoch. */
  function BeijingDay(time: int): int { (time + BEIJING_OFFSET) / DAY_NS }

  /** An interval starts a whole number of intervals after the year one, and holds the time. */
  lemma IntervalHolds(time: int, interval: int) returns (k: int)
    requires interval > 0
    ensures var start := Truncate(time, interval); start <= time < start + interval
    ensures Truncate(time, interval) == k * interval - 62_135_596_800_000_000_000
  {
    k := (time - ZERO_TIME) / interval;
  }

  /** Midnight in Beijing is eight hours before midnight UTC. */
  lemma BeijingDayHolds(time: int, d: int)
    ensures BeijingDay(time) == d <==> (24 * d - 8) * 3_600_000_000_000 <= time < (24 * d + 16) * 3_600_000_000_000
  {
  }

  function Intervals(records: seq<Record>, interval: int): seq<int>
    requires interval > 0
  {
    seq(|records|, i requires 0 <= i < |records| => Truncate(records[i].time, interval))
  }

  function Days(records: seq<Record>): seq<int> {
    seq(|records|, i requires 0 <= i < |records| => BeijingDay(records[i].time))
  }

  /******* Sums by key *******/

  function SumWhere(keys: seq<int>, values: seq<int>, k: int): int
    requires |keys| == |values|
  {
    if keys == [] then 0 else
    SumWhere(keys[..|keys| - 1], values[..|keys| - 1], k) + (if keys[|keys| - 1] == k then values[|keys| - 1] else 0)
  }

  /** The sum of the values whose key is among these. */
  function SumAmong(keys: seq<int>, values: seq<int>, ks: seq<int>): int
    requires |keys| == |values|
  {
    if keys == [] then 0 else
    SumAmong(keys[..|keys| - 1], values[..|keys| - 1], ks) + (if keys[|keys| - 1] in ks then values[|keys| - 1] else 0)
  }

  /** The sum of the per-key sums. */
  function SumOver(keys: seq<int>, values: seq<int>, ks: seq<int>): int
    requires |keys| == |values|
  {
    if ks == [] then 0 else SumOver(keys, values, ks[..|ks| - 1]) + SumWhere(keys, values, ks[|ks| - 1])
  }

  predicate Different(ks: seq<int>) {
    forall i, j :: 0 <= i < j < |ks| ==> ks[i] != ks[j]
  }

  lemma {:induction false} SumOverStep(keys: seq<int>, values: seq<int>, ks: seq<int>)
    requires |keys| == |values| > 0 && Different(ks)
    ensures SumOver(keys, values, ks) ==
              SumOver(keys[..|keys| - 1], values[..|keys| - 1],
                      ks) + (if keys[|keys| - 1] in ks then values[|keys| - 1] else 0)
  {
    if ks != [] {
      var front, last := ks[..|ks| - 1], ks[|ks| - 1];
      SumOverStep(keys, values, front);
      assert ks == front + [last];
      if keys[|keys| - 1] == last { assert last !in front; }
    }
  }

  lemma {:induction false} SumOverNothing(ks: seq<int>)
    ensures SumOver([], [], ks) == 0
  {
    if ks != [] { SumOverNothing(ks[..|ks| - 1]); }
  }

  /** Adding up by key and then over the keys is adding up what has one of the keys. */
  lemma {:induction false} BucketsAddUp(keys: seq<int>, values: seq<int>, ks: seq<int>)
    requires |keys| == |values| && Different(ks)
    ensures SumOver(keys, values, ks) == SumAmong(keys, values, ks)
  {
    if keys == [] {
      SumOverNothing(ks);
    } else {
      SumOverStep(keys, values, ks);
      BucketsAddUp(keys[..|keys| - 1], values[..|keys| - 1], ks);
    }
  }

  lemma SumSnoc(values: seq<int>, v: int)
    ensures Sum(values + [v]) == Sum(values) + v
  {
    SumConcat(values, [v]);
    assert Sum([v]) == v;
  }

  /** When every key is among them, that is everything. */
  lemma {:induction false} SumAmongAll(keys: seq<int>, values: seq<int>, ks: seq<int>)
    requires |keys| == |values| && forall i :: 0 <= i < |keys| ==> keys[i] in ks
    ensures SumAmong(keys, values, ks) == Sum(values)
  {
    if keys == [] {
      assert values == [];
    } else {
      SumAmongAll(keys[..|keys| - 1], values[..|keys| - 1], ks);
      SumSnoc(values[..|keys| - 1], values[|keys| - 1]);
      assert values == values[..|keys| - 1] + [values[|keys| - 1]];
    }
  }

  lemma SumWhereStep(keys: seq<int>, values: seq<int>, i: nat, k: int)
    requires |keys| == |values| && i < |keys|
    ensures SumWhere(keys[..i + 1], values[..i + 1], k) ==
              SumWhere(keys[..i], values[..i], k) + (if keys[i] == k then values[i] else 0)
  {
    assert keys[..i + 1][..i] == keys[..i] && values[..i + 1][..i] == values[..i];
  }

  function UsageWhere(keys: seq<int>, ups: seq<int>, downs: seq<int>, k: int): Usage
    requires |keys| == |ups| == |downs|
  {
    Usage(SumWhere(keys, ups, k), SumWhere(keys, downs, k))
  }

  /******* The two delta lists *******/

  function Forced(records: seq<Record>, baseline: Option<Counters>): set<nat> {
    set i: nat | 0 <= i < |records| && Discontinuity(records, i, baseline)
  }

  function UpBase(baseline: Option<Counters>): Option<int> { if baseline.Some? then Some(baseline.value.up) else None }

  function DownBase(baseline: Option<Counters>): Option<int> {
    if baseline.Some? then Some(baseline.value.down) else None
  }

  /** The traffic of every record in one direction. */
  function UpDeltas(records: seq<Record>, baseline: Option<Counters>): (r: seq<int>)
    ensures |r| == |records|
  {
    Deltas(Ups(records), 0, UpBase(baseline), Forced(records, baseline))
  }

  function DownDeltas(records: seq<Record>, baseline: Option<Counters>): (r: seq<int>)
    ensures |r| == |records|
  {
    Deltas(Downs(records), 0, DownBase(baseline), Forced(records, baseline))
  }

  method RecordDeltas(records: seq<Record>, baseline: Option<Counters>) returns (ups: seq<int>, downs: seq<int>)
    ensures ups == UpDeltas(records, baseline) && downs == DownDeltas(records, baseline)
  {
    var forced := CorrelatedDiscontinuities(records, baseline);
    assert forced == Forced(records, baseline);
    var up := TrafficDeltasByRecord(Ups(records), UpBase(baseline), forced);
    var down := TrafficDeltasByRecord(Downs(records), DownBase(baseline), forced);
    ups, downs := up[..], down[..];
  }

  method SumInt64s(values: seq<int>) returns (total: int)
    ensures total == Sum(values)
  {
    total := 0;
    for i := 0 to |values|
      invariant total == Sum(values[..i])
    {
      assert values[..i + 1] == values[..i] + [values[i]];
      SumSnoc(values[..i], values[i]);
      total := total + values[i];
    }
    assert values[..|values|] == values;
  }

  function DirectSum(records: seq<Record>, baseline: Option<Counters>): Usage {
    Usage(Sum(UpDeltas(records, baseline)), Sum(DownDeltas(records, baseline)))
  }

  /** SumTrafficDeltas: the direct sum. */
  method SumTrafficDeltas(records: seq<Record>, baseline: Option<Counters>) returns (total: Usage)
    ensures total == DirectSum(records, baseline)
  {
    var ups, downs := RecordDeltas(records, baseline);
    var up := SumInt64s(ups);
    var down := SumInt64s(downs);
    total := Usage(up, down);
  }

  /** Both directions give up exactly the drops that are correlated: both counters fall below the record before, or the
      baseline, and are not back on one and the same record. */
  lemma ForcedIff(records: seq<Record>, baseline: Option<Counters>, i: nat)
    ensures i in Forced(records, baseline) <==>
              && i < |records| && (i == 0 ==> baseline.Some?)
              && var before := if i == 0 then baseline.value
                               else Counters(records[i - 1].up.total, records[i - 1].down.total);
              && records[i].up.total < before.up && records[i].down.total < before.down
              && RecoverApart(Ups(records), Downs(records), i + 1, before, records[i].time)
  {
    if i < |records| { DiscontinuityIff(records, i, baseline); }
  }

  /** Each direction is metered by its own counter, stored delta and mark. */
  lemma DirectionsAreSeparate(records: seq<Record>, i: nat)
    requires i < |records|
    ensures var r, up, down := records[i], Ups(records)[i], Downs(records)[i];
            && up.time == r.time && up.total == r.up.total && up.stored == r.up.stored && up.isSet == r.up.isSet
            && down.time == r.time && down.total == r.down.total && down.stored == r.down.stored
            && down.isSet == r.down.isSet
  {
  }

  predicate Rising(first: int, samples: seq<Sample>) {
    && (samples != [] ==> first <= samples[0].total)
    && forall i :: 0 < i < |samples| ==> samples[i - 1].total <= samples[i].total
  }

  lemma RisingIsGrowth(samples: seq<Sample>, baseline: int, forced: set<nat>)
    requires |samples| > 0 && 0 <= baseline && Rising(baseline, samples) && Trusted(samples, 0, Some(baseline))
    ensures Sum(Deltas(samples, 0, Some(baseline), forced)) == samples[|samples| - 1].total - baseline
  {
    RisingLosesNothing(samples, 0, Some(baseline), forced);
    GrowthWithoutDrops(samples, baseline, forced);
  }

  /** Where neither counter runs backwards, and stored deltas are those that reports write, the traffic of the
      records is the growth of each direction's own counter over its own baseline. */
  lemma RisingTrafficIsGrowth(records: seq<Record>, baseline: Counters)
    requires |records| > 0 && 0 <= baseline.up && 0 <= baseline.down
    requires Rising(baseline.up, Ups(records)) && Trusted(Ups(records), 0, Some(baseline.up))
    requires Rising(baseline.down, Downs(records)) && Trusted(Downs(records), 0, Some(baseline.down))
    ensures var last := records[|records| - 1];
            DirectSum(records, Some(baseline)) == Usage(last.up.total - baseline.up, last.down.total - baseline.down)
  {
    RisingIsGrowth(Ups(records), baseline.up, Forced(records, Some(baseline)));
    RisingIsGrowth(Downs(records), baseline.down, Forced(records, Some(baseline)));
  }

  lemma UsageWhereStep(keys: seq<int>, ups: seq<int>, downs: seq<int>, i: nat, k: int)
    requires |keys| == |ups| == |downs| && i < |keys|
    ensures var was := UsageWhere(keys[..i], ups[..i], downs[..i], k);
            UsageWhere(keys[..i + 1], ups[..i + 1], downs[..i + 1], k) ==
              if keys[i] == k then Usage(was.up + ups[i], was.down + downs[i]) else was
  {
    SumWhereStep(keys, ups, i, k);
    SumWhereStep(keys, downs, i, k);
  }

  /** Adds every record's deltas to the row of its key. With `grow` a missing row is created, otherwise
      the record is left out. */
  method Collect(zero: map<int, Usage>, keys: seq<int>, ups: seq<int>, downs: seq<int>, grow: bool)
    returns (rows: map<int, Usage>)
    requires |keys| == |ups| == |downs| && forall k :: k in zero ==> zero[k] == Usage(0, 0)
    ensures forall k :: k in rows <==> k in zero || (grow && k in keys)
    ensures forall k :: k in rows ==> rows[k] == UsageWhere(keys, ups, downs, k)
  {
    rows := zero;
    for i := 0 to |keys|
      invariant forall k :: k in rows <==> k in zero || (grow && k in keys[..i])
      invariant forall k :: k in rows ==> rows[k] == UsageWhere(keys[..i], ups[..i], downs[..i], k)
      invariant grow ==> forall k :: k !in rows ==> UsageWhere(keys[..i], ups[..i], downs[..i], k) == Usage(0, 0)
    {
      ghost var was := rows;
      if keys[i] in rows || grow {
        var usage := if keys[i] in rows then rows[keys[i]] else Usage(0, 0);
        rows := rows[keys[i] := Usage(usage.up + ups[i], usage.down + downs[i])];
      }
      assert keys[..i + 1] == keys[..i] + [keys[i]];
      forall k | k in rows ensures rows[k] == UsageWhere(keys[..i + 1], ups[..i + 1], downs[..i + 1], k) {
        UsageWhereStep(keys, ups, downs, i, k);
      }
      forall k | grow && k !in rows ensures UsageWhere(keys[..i + 1], ups[..i + 1], downs[..i + 1], k) == Usage(0, 0) {
        UsageWhereStep(keys, ups, downs, i, k);
      }
    }
    assert keys[..|keys|] == keys && ups[..|ups|] == ups && downs[..|downs|] == downs;
  }

  lemma SomeMember(ks: set<int>)
    requires ks != {}
    ensures exists k :: k in ks
  {
    assert (forall k :: k !in ks) ==> ks == {};
  }

  lemma SmallestExists(ks: set<int>, k: int) returns (m: int)
    requires k in ks
    ensures m in ks && forall j :: j in ks ==> m <= j
  {
    m := k;
    if j :| j in ks && j < k {
      var rest := ks - {k};
      m := SmallestExists(rest, j);
      forall i | i in ks ensures m <= i {
        if i == k { assert j in rest; } else { assert i in rest; }
      }
    }
  }

  /** The keys in increasing order. */
  method SortKeys(ks: set<int>) returns (r: seq<int>)
    ensures forall k :: k in ks <==> k in r
    ensures forall i, j :: 0 <= i < j < |r| ==> r[i] < r[j]
  {
    r := [];
    var left := ks;
    while left != {}
      invariant left <= ks && forall k :: k in ks <==> k in r || k in left
      invariant forall i, k :: 0 <= i < |r| && k in left ==> r[i] < k
      invariant forall i, j :: 0 <= i < j < |r| ==> r[i] < r[j]
      decreases left
    {
      SomeMember(left);
      var some :| some in left;
      ghost var smallest := SmallestExists(left, some);
      var k :| k in left && forall j :: j in left ==> k <= j;
      left := left - {k};
      r := r + [k];
    }
  }

  function SumBuckets(buckets: seq<Bucket>): Usage {
    if buckets == [] then Usage(0, 0) else
    var rest, last := SumBuckets(buckets[..|buckets| - 1]), buckets[|buckets| - 1].usage;
    Usage(rest.up + last.up, rest.down + last.down)
  }

  function Listed(rows: map<int, Usage>, ks: seq<int>): seq<Bucket>
    requires forall k :: k in ks ==> k in rows
  {
    seq(|ks|, i requires 0 <= i < |ks| => var k := ks[i]; assert k in ks; Bucket(k, rows[k]))
  }

  function Starts(buckets: seq<Bucket>): seq<int> {
    seq(|buckets|, i requires 0 <= i < |buckets| => buckets[i].start)
  }

  lemma ListedStarts(rows: map<int, Usage>, ks: seq<int>)
    requires forall k :: k in ks ==> k in rows
    ensures Starts(Listed(rows, ks)) == ks
  {
    forall i | 0 <= i < |ks| ensures Starts(Listed(rows, ks))[i] == ks[i] { assert ks[i] in ks; }
  }

  lemma {:induction false} ListedSums(rows: map<int, Usage>, ks: seq<int>, keys: seq<int>, ups: seq<int>,
                                      downs: seq<int>)
    requires |keys| == |ups| == |downs|
    requires forall k :: k in ks ==> k in rows && rows[k] == UsageWhere(keys, ups, downs, k)
    ensures SumBuckets(Listed(rows, ks)) == Usage(SumOver(keys, ups, ks), SumOver(keys, downs, ks))
  {
    if ks != [] {
      var front, last := ks[..|ks| - 1], ks[|ks| - 1];
      assert ks == front + [last];
      ListedSums(rows, front, keys, ups, downs);
      assert Listed(rows, ks) == Listed(rows, front) + [Bucket(last, rows[last])];
      SumBucketsNext(Listed(rows, front), Bucket(last, rows[last]));
    }
  }

  lemma SumBucketsNext(buckets: seq<Bucket>, b: Bucket)
    ensures var rest := SumBuckets(buckets);
            SumBuckets(buckets + [b]) == Usage(rest.up + b.usage.up, rest.down + b.usage.down)
  {
    assert (buckets + [b])[..|buckets|] == buckets;
  }

  /** usageByIntervalFromRecords: the total and the increments per interval, in order of time. The
      increments add up to the total exactly. */
  method UsageByInterval(records: seq<Record>, baseline: Option<Counters>, interval: int)
    returns (total: Usage, buckets: seq<Bucket>)
    requires interval > 0
    ensures total == DirectSum(records, baseline) && SumBuckets(buckets) == total
    ensures forall k :: k in Starts(buckets) <==> k in Intervals(records, interval)
    ensures forall i, j :: 0 <= i < j < |buckets| ==> buckets[i].start < buckets[j].start
    ensures forall i :: 0 <= i < |buckets| ==>
              buckets[i].usage ==
              UsageWhere(Intervals(records, interval), UpDeltas(records, baseline), DownDeltas(records, baseline),
                         buckets[i].start)
  {
    var ups, downs := RecordDeltas(records, baseline);
    var keys := Intervals(records, interval);
    var rows := Collect(map[], keys, ups, downs, true);
    var up := SumInt64s(ups);
    var down := SumInt64s(downs);
    total := Usage(up, down);
    var ks := SortKeys(rows.Keys);
    buckets := Listed(rows, ks);
    ListedStarts(rows, ks);
    RowsAddUp(rows, ks, keys, ups, downs);
    SumAmongAll(keys, ups, ks);
    SumAmongAll(keys, downs, ks);
  }

  /** The days of a range, in order. */
  function DayList(start: int, end: int): seq<int> { seq(if start < end then end - start else 0, i => start + i) }

  /** One row per day of the range, all zero. */
  method EmptyDays(start: int, end: int) returns (rows: map<int, Usage>)
    ensures forall d :: d in rows <==> start <= d < end
    ensures forall d :: d in rows ==> rows[d] == Usage(0, 0)
  {
    rows := map[];
    var day := start;
    while day < end
      invariant start <= day && (day == start || day <= end)
      invariant forall d :: d in rows <==> start <= d < day
      invariant forall d :: d in rows ==> rows[d] == Usage(0, 0)
    {
      rows := rows[day := Usage(0, 0)];
      day := day + 1;
    }
  }

  lemma DaysListed(start: int, end: int)
    ensures Different(DayList(start, end)) && forall d :: d in DayList(start, end) <==> start <= d < end
  {
    forall d | start <= d < end ensures d in DayList(start, end) { assert DayList(start, end)[d - start] == d; }
  }

  /** usagesByDayFromRecords: one row per day of the range, zero when nothing happened. The rows add up
      to the deltas of the records inside the range, and to the direct sum when all of them are. */
  method UsagesByDay(start: int, end: int, records: seq<Record>, baseline: Option<Counters>)
    returns (rows: map<int, Usage>)
    ensures forall d :: d in rows <==> start <= d < end
    ensures forall d :: d in DayList(start, end) ==> d in rows
    ensures forall d :: d in rows ==>
              rows[d] == UsageWhere(Days(records), UpDeltas(records, baseline), DownDeltas(records, baseline), d)
    ensures SumBuckets(Listed(rows, DayList(start, end))) ==
              Usage(SumAmong(Days(records), UpDeltas(records, baseline), DayList(start, end)),
                    SumAmong(Days(records), DownDeltas(records, baseline), DayList(start, end)))
    ensures (forall i :: 0 <= i < |records| ==> start <= BeijingDay(records[i].time) < end) ==>
              SumBuckets(Listed(rows, DayList(start, end))) == DirectSum(records, baseline)
  {
    rows := EmptyDays(start, end);
    var ups, downs := RecordDeltas(records, baseline);
    var keys := Days(records);
    rows := Collect(rows, keys, ups, downs, false);
    ghost var ks := DayList(start, end);
    DaysListed(start, end);
    RowsAddUp(rows, ks, keys, ups, downs);
    if forall i :: 0 <= i < |records| ==> start <= BeijingDay(records[i].time) < end {
      SumAmongAll(keys, ups, ks);
      SumAmongAll(keys, downs, ks);
    }
  }

  lemma RowsAddUp(rows: map<int, Usage>, ks: seq<int>, keys: seq<int>, ups: seq<int>, downs: seq<int>)
    requires |keys| == |ups| == |downs| && Different(ks)
    requires forall k :: k in ks ==> k in rows && rows[k] == UsageWhere(keys, ups, downs, k)
    ensures SumBuckets(Listed(rows, ks)) == Usage(SumAmong(keys, ups, ks), SumAmong(keys, downs, ks))
  {
    ListedSums(rows, ks, keys, ups, downs);
    BucketsAddUp(keys, ups, ks);
    BucketsAddUp(keys, downs, ks);
  }
}
