/** Stored calibrations of one cycle and the procedures that read and add to them. */
module CalibrationLedger {
  import opened Common
  import opened Calibration

  datatype Day = Day(key: string, raw: Usage)

  /** What one calibration recorded: plain directions, or a total with its billable offset. */
  datatype Mode = Directions | TotalOf(kind: Kind, offset: int)

  datatype Entry = Entry(createdAt: int, mode: Mode)

  predicate DaysOk(days: seq<Day>) {
    && |days| > 0
    && (forall i :: 0 <= i < |days| ==> CountUsage(days[i].raw))
    && (forall i, j :: 0 <= i < j < |days| ==> days[i].key != days[j].key)
  }

  function Ups(days: seq<Day>): seq<int> { seq(|days|, i requires 0 <= i < |days| => days[i].raw.up) }

  function Downs(days: seq<Day>): seq<int> { seq(|days|, i requires 0 <= i < |days| => days[i].raw.down) }

  function Adjusted(table: map<string, Usage>, key: string): Usage {
    if key in table then table[key] else Usage(0, 0)
  }

  function UpAdjustments(days: seq<Day>, table: map<string, Usage>): seq<int> {
    seq(|days|, i requires 0 <= i < |days| => Adjusted(table, days[i].key).up)
  }

  function DownAdjustments(days: seq<Day>, table: map<string, Usage>): seq<int> {
    seq(|days|, i requires 0 <= i < |days| => Adjusted(table, days[i].key).down)
  }

  function ShownUps(days: seq<Day>, table: map<string, Usage>): seq<int> {
    Effectives(Ups(days), UpAdjustments(days, table))
  }

  function ShownDowns(days: seq<Day>, table: map<string, Usage>): seq<int> {
    Effectives(Downs(days), DownAdjustments(days, table))
  }

  /** Each direction of a day is its own measurement, and the correction stored for the day, nothing when none is. */
  lemma DirectionsOfDays(days: seq<Day>, table: map<string, Usage>, i: nat)
    requires i < |days|
    ensures Ups(days)[i] == days[i].raw.up && Downs(days)[i] == days[i].raw.down
    ensures days[i].key in table ==>
              && UpAdjustments(days, table)[i] == table[days[i].key].up
              && DownAdjustments(days, table)[i] == table[days[i].key].down
    ensures days[i].key !in table ==> UpAdjustments(days, table)[i] == 0 && DownAdjustments(days, table)[i] == 0
  {
  }

  function RawTotal(days: seq<Day>): Usage { Usage(Total(Ups(days)), Total(Downs(days))) }

  function ShownTotal(days: seq<Day>, table: map<string, Usage>): Usage {
    Usage(Total(ShownUps(days, table)), Total(ShownDowns(days, table)))
  }

  /** The newest calibration by time, then by order of insertion. */
  function Latest(history: seq<Entry>): Option<Entry> {
    if history == [] then None else
    var rest, last := Latest(history[..|history| - 1]), history[|history| - 1];
    if rest.Some? && rest.value.createdAt > last.createdAt then rest else Some(last)
  }

  lemma LatestAppended(history: seq<Entry>, e: Entry)
    requires forall i :: 0 <= i < |history| ==> history[i].createdAt <= e.createdAt
    ensures Latest(history + [e]) == Some(e)
  {
    assert (history + [e])[..|history|] == history;
    if history != [] { LatestIsMember(history); }
  }

  lemma {:induction false} LatestIsMember(history: seq<Entry>)
    requires history != []
    ensures Latest(history).Some? && Latest(history).value in history
  {
    if |history| > 1 { LatestIsMember(history[..|history| - 1]); }
  }

  /** The newest calibration is the one inserted last among those of the latest time. */
  lemma {:induction false} LatestIsNewest(history: seq<Entry>) returns (at: nat)
    requires history != []
    ensures at < |history| && Latest(history) == Some(history[at])
    ensures forall i :: 0 <= i < |history| ==> history[i].createdAt <= history[at].createdAt
    ensures forall i :: at < i < |history| ==> history[i].createdAt < history[at].createdAt
  {
    at := |history| - 1;
    if at > 0 {
      var front := history[..at];
      var rest := LatestIsNewest(front);
      assert forall i :: 0 <= i < |front| ==> front[i] == history[i];
      if history[rest].createdAt > history[at].createdAt { at := rest; }
    }
  }

  /** What a snapshot shows. A total calibration follows the billable raw usage by its offset, as long
      as the client still counts the same way; otherwise it is switched off. */
  function Show(days: seq<Day>, table: map<string, Usage>, newest: Option<Entry>, kind: Kind): Usage {
    match newest
    case Some(Entry(_, TotalOf(k, offset))) =>
      if k != kind then RawTotal(days) else
      var target := AddSignedNonNegative(Billable(kind, RawTotal(days)), offset);
      var r := TargetsForTotal(kind, ShownTotal(days, table), target);
      if r.Some? then r.value else RawTotal(days)
    case _ => ShownTotal(days, table)
  }

  lemma TotalsCount(days: seq<Day>, table: map<string, Usage>)
    requires DaysOk(days)
    ensures CountUsage(RawTotal(days)) && CountUsage(ShownTotal(days, table))
    ensures Counts(Ups(days)) && Counts(Downs(days)) && Counts(ShownUps(days, table)) && Counts(ShownDowns(days, table))
  {
    TotalIsExactOrMax(Ups(days));
    TotalIsExactOrMax(Downs(days));
    EffectivesCount(Ups(days), UpAdjustments(days, table));
    EffectivesCount(Downs(days), DownAdjustments(days, table));
    TotalIsExactOrMax(ShownUps(days, table));
    TotalIsExactOrMax(ShownDowns(days, table));
  }

  lemma BillableCounts(kind: Kind, u: Usage)
    requires CountUsage(u)
    ensures Count(Billable(kind, u))
  {
  }

  /** Until the next calibration the billable value of the snapshot moves exactly with the billable raw
      usage, floored at zero and capped at 64 bits, whatever the days and their corrections are. */
  lemma SnapshotFollowsRaw(days: seq<Day>, table: map<string, Usage>, at: int, kind: Kind, offset: int)
    requires DaysOk(days)
    ensures Billable(kind, Show(days, table, Some(Entry(at, TotalOf(kind, offset))), kind)) ==
              Clamp(Billable(kind, RawTotal(days)) + offset)
  {
    TotalsCount(days, table);
    BillableCounts(kind, RawTotal(days));
    AddsClamped(Billable(kind, RawTotal(days)), offset);
    TargetsBillExactly(kind, ShownTotal(days, table), Clamp(Billable(kind, RawTotal(days)) + offset));
  }

  /** A direction of a cycle: the exact sum over its days of measured usage and correction, each day floored at zero
      and capped at 64 bits, and the sum capped again. */
  ghost predicate SumsTo(raws: seq<int>, adjustments: seq<int>, sum: int)
    requires |raws| == |adjustments|
  {
    exists shown: seq<int> ::
      && |shown| == |raws| && (forall i :: 0 <= i < |raws| ==> shown[i] == Clamp(raws[i] + adjustments[i]))
      && sum == Min(MAX_INT64, Exact(shown))
  }

  /** The directions of a snapshot: those of the corrected days, without a total calibration; the measured ones when
      the client has come to count differently since the total was calibrated. */
  lemma SnapshotShowsDays(days: seq<Day>, table: map<string, Usage>, newest: Option<Entry>, kind: Kind)
    requires DaysOk(days)
    ensures newest.None? || newest.value.mode.Directions? ==>
              && SumsTo(Ups(days), UpAdjustments(days, table), Show(days, table, newest, kind).up)
              && SumsTo(Downs(days), DownAdjustments(days, table), Show(days, table, newest, kind).down)
    ensures newest.Some? && newest.value.mode.TotalOf? && newest.value.mode.kind != kind ==>
              && Show(days, table, newest, kind).up == Min(MAX_INT64, Exact(Ups(days)))
              && Show(days, table, newest, kind).down == Min(MAX_INT64, Exact(Downs(days)))
  {
    TotalsCount(days, table);
    TotalIsExactOrMax(Ups(days));
    TotalIsExactOrMax(Downs(days));
    ShownSumsTo(Ups(days), UpAdjustments(days, table));
    ShownSumsTo(Downs(days), DownAdjustments(days, table));
  }

  lemma ShownSumsTo(raws: seq<int>, adjustments: seq<int>)
    requires |raws| == |adjustments| && Counts(raws)
    ensures SumsTo(raws, adjustments, Total(Effectives(raws, adjustments)))
  {
    var shown := Effectives(raws, adjustments);
    EffectivesCount(raws, adjustments);
    TotalIsExactOrMax(shown);
    forall i | 0 <= i < |raws| ensures shown[i] == Clamp(raws[i] + adjustments[i]) {
      AddsClamped(raws[i], adjustments[i]);
    }
  }

  function Allocated(m: map<string, int>, key: string): int { if key in m then m[key] else 0 }

  /** The map gives every day its part. */
  predicate Gives(m: map<string, int>, keys: seq<string>, parts: seq<int>) {
    |keys| == |parts| && forall i :: 0 <= i < |keys| ==> Allocated(m, keys[i]) == parts[i]
  }

  predicate DistinctKeys(keys: seq<string>) {
    forall i, j :: 0 <= i < j < |keys| ==> keys[i] != keys[j]
  }

  lemma {:induction false} TakeNothing(values: seq<int>)
    requires Counts(values)
    ensures |Take(values, 0)| == |values| && forall i :: 0 <= i < |values| ==> Take(values, 0)[i] == 0
  {
    if values != [] { TakeNothing(values[..|values| - 1]); }
  }

  lemma TakeStep(values: seq<int>, i: nat, remaining: int)
    requires i < |values| && remaining >= 0
    ensures var taken := if values[i] <= 0 then 0 else Min(values[i], remaining);
            Take(values[..i + 1], remaining) == Take(values[..i], remaining - taken) + [-taken]
    ensures Exact(values[..i + 1]) == Exact(values[..i]) + values[i]
  {
    assert values[..i + 1][..i] == values[..i];
  }

  /** allocateCalibration, newest day first. It fails exactly when the days do not hold the reduction. */
  method AllocateReduction(keys: seq<string>, values: seq<int>, reduction: int) returns (r: Option<map<string, int>>)
    requires |keys| == |values| && DistinctKeys(keys) && Counts(values) && reduction > 0
    ensures r.Some? <==> reduction <= Exact(values)
    ensures r.Some? ==> Gives(r.value, keys, Take(values, reduction))
  {
    var given: map<string, int> := map[];
    var remaining := reduction;
    var index := |values|;
    ghost var tail: seq<int> := [];
    assert values[..|values|] == values;
    while index > 0 && remaining > 0
      invariant 0 <= index <= |values| && remaining >= 0 && |tail| == |values| - index
      invariant Take(values, reduction) == Take(values[..index], remaining) + tail
      invariant reduction <= Exact(values) <==> remaining <= Exact(values[..index])
      invariant forall j :: 0 <= j < index ==> keys[j] !in given
      invariant forall j :: index <= j < |keys| ==> Allocated(given, keys[j]) == tail[j - index]
    {
      index := index - 1;
      TakeStep(values, index, remaining);
      TotalIsExactOrMax(values[..index]);
      var available := values[index];
      if available <= 0 {
        tail := [0] + tail;
      } else {
        var take := available;
        if take > remaining { take := remaining; }
        given := given[keys[index] := -take];
        remaining := remaining - take;
        tail := [-take] + tail;
      }
    }
    TotalIsExactOrMax(values[..index]);
    if remaining != 0 { return None; }
    TakeNothing(values[..index]);
    return Some(given);
  }

  method AllocateCalibration(keys: seq<string>, values: seq<int>, delta: int) returns (r: Option<map<string, int>>)
    requires |keys| == |values| > 0 && DistinctKeys(keys) && Counts(values)
    ensures r.Some? <==> -delta <= Exact(values)
    ensures r.Some? ==> Gives(r.value, keys, Allocation(values, delta))
  {
    TotalIsExactOrMax(values);
    if delta == 0 { return Some(map[]); }
    if delta > 0 { return Some(map[keys[|keys| - 1] := delta]); }
    r := AllocateReduction(keys, values, -delta);
  }

  /** The corrections of a cycle with the rows of one calibration: every day that changes, and always one. */
  method WithRows(was: map<string, Usage>, days: seq<Day>, ups: map<string, int>, downs: map<string, int>)
    returns (rows: nat, now: map<string, Usage>)
    requires DaysOk(days)
    ensures 1 <= rows <= |days| && Written(was, now, days, ups, downs, |days|)
  {
    rows, now := 0, was;
    for i := 0 to |days|
      invariant rows <= i && (i > 0 ==> rows > 0)
      invariant Written(was, now, days, ups, downs, i)
    {
      var up, down := Allocated(ups, days[i].key), Allocated(downs, days[i].key);
      ghost var here := now;
      if up != 0 || down != 0 || rows == 0 {
        var day := Adjusted(now, days[i].key);
        now := now[days[i].key := Usage(day.up + up, day.down + down)];
        rows := rows + 1;
      }
      WrittenNext(was, here, now, days, ups, downs, i);
    }
  }

  class CycleCalibrations {
    var table: map<string, Usage>
    var history: seq<Entry>

    constructor ()
      ensures table == map[] && history == []
    {
      table, history := map[], [];
    }

    /** Sums one cycle: raw and shown, day by day. */
    method SumDays(days: seq<Day>) returns (raw: Usage, shown: Usage)
      ensures raw == RawTotal(days) && shown == ShownTotal(days, table)
    {
      raw, shown := Usage(0, 0), Usage(0, 0);
      for i := 0 to |days|
        invariant raw == Usage(Total(Ups(days)[..i]), Total(Downs(days)[..i]))
        invariant shown == Usage(Total(ShownUps(days, table)[..i]), Total(ShownDowns(days, table)[..i]))
      {
        TotalStep(Ups(days), i);
        TotalStep(Downs(days), i);
        TotalStep(ShownUps(days, table), i);
        TotalStep(ShownDowns(days, table), i);
        var adjustment := Adjusted(table, days[i].key);
        raw := Usage(SaturatingAdd(raw.up, days[i].raw.up), SaturatingAdd(raw.down, days[i].raw.down));
        shown := Usage(SaturatingAdd(shown.up, AddSignedNonNegative(days[i].raw.up, adjustment.up)),
                       SaturatingAdd(shown.down, AddSignedNonNegative(days[i].raw.down, adjustment.down)));
      }
      WholePrefix(Ups(days));
      WholePrefix(Downs(days));
      WholePrefix(ShownUps(days, table));
      WholePrefix(ShownDowns(days, table));
    }

    /** LoadCalibrationSnapshot. */
    method LoadSnapshot(days: seq<Day>, kind: Kind) returns (raw: Usage, effective: Usage)
      requires DaysOk(days)
      ensures raw == RawTotal(days) && effective == Show(days, table, Latest(history), kind)
    {
      TotalsCount(days, table);
      raw, effective := SumDays(days);
      var newest := Latest(history);
      if newest.Some? && newest.value.mode.TotalOf? {
        if newest.value.mode.kind != kind { return raw, raw; }
        var target := AddSignedNonNegative(Billable(kind, raw), newest.value.mode.offset);
        BillableCounts(kind, raw);
        AddsClamped(Billable(kind, raw), newest.value.mode.offset);
        TargetsBillExactly(kind, effective, target);
        effective := TargetsForTotal(kind, effective, target).value;
      }
    }

    /** Writes the rows of one calibration: every day that changes, and always at least one. */
    method WriteRows(days: seq<Day>, ups: map<string, int>, downs: map<string, int>, entry: Entry) returns (rows: nat)
      requires DaysOk(days)
      modifies this
      ensures 1 <= rows <= |days|
      ensures history == old(history) + [entry]
      ensures Corrected(old(table), table, days, ups, downs, |days|)
      ensures OtherDaysKept(days, old(table), table)
    {
      rows, table := WithRows(table, days, ups, downs);
      history := history + [entry];
    }

    /** Spreads the difference to the target over the days and records it. It cannot fail: the days
        always hold a reduction to a target that is not negative. */
    method SpreadCorrection(days: seq<Day>, target: Usage, shown: Usage, entry: Entry)
      requires DaysOk(days) && target.up >= 0 && target.down >= 0 && shown == ShownTotal(days, table)
      modifies this
      ensures history == old(history) + [entry] && Spread(days, old(table), table, target)
      ensures OtherDaysKept(days, old(table), table)
    {
      TotalsCount(days, table);
      TotalIsExactOrMax(ShownUps(days, table));
      TotalIsExactOrMax(ShownDowns(days, table));
      var keys := Keys(days);
      ghost var before := table;
      var upDelta, downDelta := target.up - shown.up, target.down - shown.down;
      var ups := AllocateCalibration(keys, ShownUps(days, table), upDelta);
      var downs := AllocateCalibration(keys, ShownDowns(days, table), downDelta);
      var rows := WriteRows(days, ups.value, downs.value, entry);
      CorrectedSpreads(before, table, days, ups.value, downs.value, target);
    }

    /** calibrateCycle. Nothing is recorded for plain directions that are already shown as such, unless
        the history of the cycle is incomplete. */
    method CalibrateCycle(days: seq<Day>, complete: bool, kind: Kind, target: Usage, now: int, mode: Mode)
      returns (effective: Option<Usage>)
      requires DaysOk(days)
      modifies this
      ensures effective.Some? <==> target.up >= 0 && target.down >= 0
      ensures effective.None? ==> table == old(table) && history == old(history)
      ensures effective.Some? ==> effective.value == Show(days, table, Latest(history), kind)
      ensures effective.Some? ==> Spread(days, old(table), table, target)
      ensures OtherDaysKept(days, old(table), table)
      ensures effective.Some? ==>
                var nothingToDo := && target == ShownTotal(days, old(table)) && complete && mode.Directions?
                                   && PlainNewest(old(history));
                && history == (if nothingToDo then old(history) else old(history) + [Entry(now, mode)])
                && (nothingToDo ==> table == old(table))
      ensures effective.Some? && Latest(old(history)).Some? && Latest(old(history)).value.mode.TotalOf? ==>
                history == old(history) + [Entry(now, mode)]
    {
      if target.up < 0 || target.down < 0 { return None; }
      var raw, shown := SumDays(days);
      if target == shown && complete && mode.Directions? && PlainNewest(history) {
        NothingGiven(days, table);
        return Some(shown);
      }
      SpreadCorrection(days, target, shown, Entry(now, mode));
      var result;
      raw, result := LoadSnapshot(days, kind);
      return Some(result);
    }

    /** CalibrateCurrentCycle: with clocks that do not run backwards, the cycle then shows the target in
        a direction if and only if the target was reachable. */
    method CalibrateCurrentCycle(days: seq<Day>, complete: bool, kind: Kind, target: Usage, now: int)
      returns (effective: Option<Usage>)
      requires DaysOk(days)
      modifies this
      ensures effective.Some? <==> target.up >= 0 && target.down >= 0
      ensures effective.Some? && NotAfter(old(history), now) ==>
                CalibratedIff(days, old(table), target, effective.value)
    {
      ghost var was := table;
      if NotAfter(history, now) { LatestAppended(history, Entry(now, Directions)); }
      effective := CalibrateCycle(days, complete, kind, target, now, Directions);
      if effective.Some? { SpreadCalibrates(days, was, table, target); }
    }

    /** CalibrateBillableCycle: with clocks that do not run backwards, the snapshot then bills exactly
        the total, for every counting type and however the days are corrected or clamped. */
    method CalibrateBillableCycle(days: seq<Day>, complete: bool, kind: Kind, total: int, now: int)
      returns (effective: Option<Usage>)
      requires DaysOk(days) && total <= MAX_INT64
      modifies this
      ensures effective.Some? <==> total >= 0
      ensures effective.Some? && NotAfter(old(history), now) ==>
                && Billable(kind, effective.value) == total
                && Latest(history) == Some(Entry(now, TotalOf(kind, total - Billable(kind, RawTotal(days)))))
    {
      var raw, shown := LoadSnapshot(days, kind);
      TargetsExist(days, table, Latest(history), kind, total);
      var values := TargetsForTotal(kind, shown, total);
      if values.None? { return None; }
      var offset := total - Billable(kind, raw);
      effective := CalibrateCycle(days, complete, kind, values.value, now, TotalOf(kind, offset));
      if NotAfter(old(history), now) { BillsTotal(days, table, old(history), history, now, kind, total); }
    }
  }

  lemma TargetsExist(days: seq<Day>, table: map<string, Usage>, newest: Option<Entry>, kind: Kind, total: int)
    requires DaysOk(days) && total <= MAX_INT64
    ensures var values := TargetsForTotal(kind, Show(days, table, newest, kind), total);
            (values.Some? <==> total >= 0) && (values.Some? ==> values.value.up >= 0 && values.value.down >= 0)
  {
    ShowCounts(days, table, newest, kind);
    if total >= 0 { TargetsBillExactly(kind, Show(days, table, newest, kind), total); }
  }

  /** Right after a total calibration that is not older than any other, the snapshot bills its total. */
  lemma BillsTotal(days: seq<Day>, table: map<string, Usage>, was: seq<Entry>, history: seq<Entry>, at: int, kind: Kind,
                   total: int)
    requires DaysOk(days) && Count(total) && NotAfter(was, at)
    requires history == was + [Entry(at, TotalOf(kind, total - Billable(kind, RawTotal(days))))]
    ensures Latest(history) == Some(Entry(at, TotalOf(kind, total - Billable(kind, RawTotal(days)))))
    ensures Billable(kind, Show(days, table, Latest(history), kind)) == total
  {
    LatestAppended(was, Entry(at, TotalOf(kind, total - Billable(kind, RawTotal(days)))));
    TotalIsShown(days, table, at, kind, total);
  }

  lemma TotalIsShown(days: seq<Day>, table: map<string, Usage>, at: int, kind: Kind, total: int)
    requires DaysOk(days) && Count(total)
    ensures var newest := Entry(at, TotalOf(kind, total - Billable(kind, RawTotal(days))));
            Billable(kind, Show(days, table, Some(newest), kind)) == total
  {
    SnapshotFollowsRaw(days, table, at, kind, total - Billable(kind, RawTotal(days)));
  }

  /** The value shown is the target if and only if the target is reachable. */
  predicate ExactIff(raws: seq<int>, adjustments: seq<int>, target: int, shown: int)
    requires |raws| == |adjustments| > 0
  {
    Count(target) ==> (shown == target <==> Reachable(raws, adjustments, target))
  }

  predicate CalibratedIff(days: seq<Day>, was: map<string, Usage>, target: Usage, shown: Usage)
    requires |days| > 0
  {
    && ExactIff(Ups(days), UpAdjustments(days, was), target.up, shown.up)
    && ExactIff(Downs(days), DownAdjustments(days, was), target.down, shown.down)
  }

  lemma SpreadCalibrates(days: seq<Day>, was: map<string, Usage>, now: map<string, Usage>, target: Usage)
    requires DaysOk(days) && Spread(days, was, now, target)
    ensures CalibratedIff(days, was, target, ShownTotal(days, now))
  {
    SpreadIsExact(Ups(days), UpAdjustments(days, was), UpAdjustments(days, now), target.up);
    SpreadIsExact(Downs(days), DownAdjustments(days, was), DownAdjustments(days, now), target.down);
  }

  lemma SpreadIsExact(raws: seq<int>, was: seq<int>, now: seq<int>, target: int)
    requires |raws| == |was| == |now| > 0 && Counts(raws) && SpreadOver(raws, was, now, target)
    ensures ExactIff(raws, was, target, Total(Effectives(raws, now)))
  {
    if Count(target) { DirectionCalibrationExactIff(raws, was, target); }
  }

  predicate PlainNewest(history: seq<Entry>) {
    Latest(history).None? || Latest(history).value.mode.Directions?
  }

  predicate NotAfter(history: seq<Entry>, now: int) {
    forall i :: 0 <= i < |history| ==> history[i].createdAt <= now
  }

  /** The corrections have grown by the allocation of the difference to the target. */
  ghost predicate SpreadOver(raws: seq<int>, was: seq<int>, now: seq<int>, target: int)
    requires |raws| == |was|
  {
    now == Plus(was, Given(raws, was, target))
  }

  /** Each day's correction has grown by its part of the difference to the target. */
  ghost predicate Spread(days: seq<Day>, was: map<string, Usage>, now: map<string, Usage>, target: Usage) {
    && SpreadOver(Ups(days), UpAdjustments(days, was), UpAdjustments(days, now), target.up)
    && SpreadOver(Downs(days), DownAdjustments(days, was), DownAdjustments(days, now), target.down)
  }

  lemma ShowCounts(days: seq<Day>, table: map<string, Usage>, newest: Option<Entry>, kind: Kind)
    requires DaysOk(days)
    ensures CountUsage(Show(days, table, newest, kind))
  {
    TotalsCount(days, table);
    if newest.Some? && newest.value.mode.TotalOf? && newest.value.mode.kind == kind {
      BillableCounts(kind, RawTotal(days));
      var raw, offset := Billable(kind, RawTotal(days)), newest.value.mode.offset;
      AddsClamped(raw, offset);
      TargetsBillExactly(kind, ShownTotal(days, table), Clamp(raw + offset));
    }
  }

  /** Corrections of days outside the cycle stay as they are. */
  ghost predicate OtherDaysKept(days: seq<Day>, was: map<string, Usage>, now: map<string, Usage>) {
    forall key :: (forall i :: 0 <= i < |days| ==> days[i].key != key) ==>
      (key in now <==> key in was) && (key in now ==> now[key] == was[key])
  }

  /** The first n days have their parts added. */
  ghost predicate Corrected(was: map<string, Usage>, now: map<string, Usage>, days: seq<Day>,
                            ups: map<string, int>, downs: map<string, int>, n: nat)
    requires n <= |days|
  {
    forall k :: 0 <= k < n ==>
      && Adjusted(now, days[k].key).up == Adjusted(was, days[k].key).up + Allocated(ups, days[k].key)
      && Adjusted(now, days[k].key).down == Adjusted(was, days[k].key).down + Allocated(downs, days[k].key)
  }

  /** The first n days are corrected and everything else is as it was. */
  ghost predicate Written(was: map<string, Usage>, now: map<string, Usage>, days: seq<Day>,
                          ups: map<string, int>, downs: map<string, int>, n: nat)
    requires n <= |days|
  {
    && Corrected(was, now, days, ups, downs, n)
    && (forall k :: n <= k < |days| ==> Adjusted(now, days[k].key) == Adjusted(was, days[k].key))
    && OtherDaysKept(days, was, now)
  }

  /** One more day is corrected by its parts, by a row or, without any parts, by none. */
  lemma WrittenNext(was: map<string, Usage>, here: map<string, Usage>, now: map<string, Usage>, days: seq<Day>,
                    ups: map<string, int>, downs: map<string, int>, i: nat)
    requires DaysOk(days) && i < |days| && Written(was, here, days, ups, downs, i)
    requires var up, down := Allocated(ups, days[i].key), Allocated(downs, days[i].key);
             var a := Adjusted(here, days[i].key);
             now == here[days[i].key := Usage(a.up + up, a.down + down)] || (now == here && up == 0 && down == 0)
    ensures Written(was, now, days, ups, downs, i + 1)
  {
    forall k | 0 <= k < |days| && k != i ensures Adjusted(now, days[k].key) == Adjusted(here, days[k].key) {
      assert days[k].key != days[i].key;
    }
  }

  function Keys(days: seq<Day>): seq<string> { seq(|days|, i requires 0 <= i < |days| => days[i].key) }

  lemma CorrectedAdds(was: map<string, Usage>, now: map<string, Usage>, days: seq<Day>, ups: map<string, int>,
                      downs: map<string, int>,
                      upParts: seq<int>, downParts: seq<int>)
    requires Corrected(was, now, days, ups, downs, |days|)
    requires Gives(ups, Keys(days), upParts) && Gives(downs, Keys(days), downParts)
    ensures UpAdjustments(days, now) == Plus(UpAdjustments(days, was), upParts)
    ensures DownAdjustments(days, now) == Plus(DownAdjustments(days, was), downParts)
  {
    forall i | 0 <= i < |days|
      ensures UpAdjustments(days, now)[i] == Plus(UpAdjustments(days, was), upParts)[i]
      ensures DownAdjustments(days, now)[i] == Plus(DownAdjustments(days, was), downParts)[i]
    {
      assert Keys(days)[i] == days[i].key;
    }
  }

  lemma CorrectedSpreads(was: map<string, Usage>, now: map<string, Usage>, days: seq<Day>,
                         ups: map<string, int>, downs: map<string, int>, target: Usage)
    requires Corrected(was, now, days, ups, downs, |days|)
    requires Gives(ups, Keys(days), Given(Ups(days), UpAdjustments(days, was), target.up))
    requires Gives(downs, Keys(days), Given(Downs(days), DownAdjustments(days, was), target.down))
    ensures Spread(days, was, now, target)
  {
    CorrectedAdds(was, now, days, ups, downs, Given(Ups(days), UpAdjustments(days, was), target.up),
                  Given(Downs(days), DownAdjustments(days, was), target.down));
  }

  lemma NothingGiven(days: seq<Day>, table: map<string, Usage>)
    ensures UpAdjustments(days, table) == Plus(UpAdjustments(days, table), Allocation(ShownUps(days, table), 0))
    ensures DownAdjustments(days, table) == Plus(DownAdjustments(days, table), Allocation(ShownDowns(days, table), 0))
  {
  }

  lemma TotalStep(values: seq<int>, i: nat)
    requires i < |values|
    ensures Total(values[..i + 1]) == SaturatingAdd(Total(values[..i]), values[i])
  {
    assert values[..i + 1][..i] == values[..i];
  }

  lemma WholePrefix(values: seq<int>)
    ensures values[..|values|] == values
  {
  }
}
