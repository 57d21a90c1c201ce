/** Traffic calibration: saturating arithmetic, the five counting types, what a snapshot shows, and
    how a correction is spread over the days of a cycle. */
module Calibration {
  import opened Common

  datatype Usage = Usage(up: int, down: int)

  predicate Count(n: int) { 0 <= n <= MAX_INT64 }

  predicate CountUsage(u: Usage) { Count(u.up) && Count(u.down) }

  function SaturatingAdd(left: int, right: int): int {
    if right > 0 && left > MAX_INT64 - right then MAX_INT64 else left + right
  }

  function AddSignedNonNegative(value: int, delta: int): int {
    if delta >= 0 then SaturatingAdd(value, delta) else if delta <= -value then 0 else value + delta
  }

  function Clamp(n: int): int { if n < 0 then 0 else if n > MAX_INT64 then MAX_INT64 else n }

  lemma AddsClamped(value: int, delta: int)
    requires Count(value)
    ensures AddSignedNonNegative(value, delta) == Clamp(value + delta)
  {
  }

  /******* Counting types *******/

  datatype Kind = UpOnly | DownOnly | Sum | Least | Greatest

  function Billable(kind: Kind, u: Usage): int {
    match kind
    case UpOnly => u.up
    case DownOnly => u.down
    case Sum => SaturatingAdd(u.up, u.down)
    case Least => if u.up < u.down then u.up else u.down
    case Greatest => if u.up > u.down then u.up else u.down
  }

  /** CalibrationTargetsForTotal: directions whose billable value is the given total. */
  function TargetsForTotal(kind: Kind, current: Usage, target: int): Option<Usage> {
    if target < 0 || current.up < 0 || current.down < 0 then None else
    match kind
    case Sum =>
      var sum := current.up + current.down;
      if sum == 0 then Some(Usage(target, 0)) else
      var up := target * current.up / sum;
      Some(Usage(up, target - up))
    case UpOnly => Some(current.(up := target))
    case DownOnly => Some(current.(down := target))
    case Greatest =>
      if current.up >= current.down then Some(Usage(target, Min(current.down, target)))
      else Some(Usage(Min(current.up, target), target))
    case Least =>
      if current.up <= current.down then Some(Usage(target, Max(current.down, target)))
      else Some(Usage(Max(current.up, target), target))
  }

  lemma CancelFactor(a: int, b: int, factor: int)
    requires factor > 0 && a * factor <= b * factor
    ensures a <= b
  {
    assert (b - a) * factor >= 0;
  }

  lemma ShareAtMost(target: int, part: int, whole: int)
    requires target >= 0 && 0 <= part <= whole && whole > 0
    ensures 0 <= target * part / whole <= target
  {
    var share := target * part / whole;
    assert target * part <= target * whole;
    assert share * whole <= target * part;
    CancelFactor(share, target, whole);
  }

  /** For every counting type the directions bill to exactly the total, stay within 64 bits, and keep
      the direction that is not charged unless the total forces a bound on it. */
  lemma TargetsBillExactly(kind: Kind, current: Usage, target: int)
    requires CountUsage(current) && Count(target)
    ensures TargetsForTotal(kind, current, target).Some?
    ensures var r := TargetsForTotal(kind, current, target).value;
            && CountUsage(r) && Billable(kind, r) == target
            && (kind.Sum? ==> r.up + r.down == target)
            && (kind.Greatest? && current.down <= Min(current.up, target) ==> r.down == current.down)
            && (kind.Least? && current.down >= Max(current.up, target) ==> r.down == current.down)
            && (kind.UpOnly? ==> r.down == current.down) && (kind.DownOnly? ==> r.up == current.up)
  {
    if kind.Sum? && current.up + current.down != 0 {
      ShareAtMost(target, current.up, current.up + current.down);
    }
  }

  /** The share of a part in the whole, rounded down. */
  lemma ShareIsNear(target: int, part: int, whole: int)
    requires whole > 0
    ensures var share := target * part / whole; 0 <= target * part - share * whole < whole
  {
  }

  /** Which direction is charged. A sum is split in the effective ratio, each direction to within one, and all of
      it goes to the upload of a cycle that measured nothing; the larger or the smaller direction takes the
      total, and the other keeps its value unless that would be charged instead, when it takes the total too. */
  lemma TargetsKeepTheRest(kind: Kind, current: Usage, target: int)
    ensures TargetsForTotal(kind, current, target).None? <==> target < 0 || current.up < 0 || current.down < 0
    ensures TargetsForTotal(kind, current, target).Some? ==>
              var r, sum := TargetsForTotal(kind, current, target).value, current.up + current.down;
              && (kind.Sum? && sum > 0 ==>
                    && 0 <= target * current.up - r.up * sum < sum
                    && 0 <= r.down * sum - target * current.down < sum)
              && (kind.Sum? && sum == 0 ==> r == Usage(target, 0))
              && (kind.UpOnly? ==> r == Usage(target, current.down))
              && (kind.DownOnly? ==> r == Usage(current.up, target))
              && (kind.Greatest? && current.up >= current.down ==>
                    r.up == target && r.down == if current.down <= target then current.down else target)
              && (kind.Greatest? && current.up < current.down ==>
                    r.down == target && r.up == if current.up <= target then current.up else target)
              && (kind.Least? && current.up <= current.down ==>
                    r.up == target && r.down == if current.down >= target then current.down else target)
              && (kind.Least? && current.up > current.down ==>
                    r.down == target && r.up == if current.up >= target then current.up else target)
  {
    if kind.Sum? && TargetsForTotal(kind, current, target).Some? && current.up + current.down > 0 {
      var sum := current.up + current.down;
      var up := target * current.up / sum;
      ShareIsNear(target, current.up, sum);
      Splits(target, current.up, current.down);
      Splits(sum, up, target - up);
    }
  }

  lemma Splits(k: int, a: int, b: int)
    ensures k * (a + b) == k * a + k * b && (a + b) * k == a * k + b * k
  {
  }

  /******* One direction over the days of a cycle *******/

  function Effective(raw: int, adjustment: int): int { AddSignedNonNegative(raw, adjustment) }

  /** The saturating total, oldest day first. */
  function Total(values: seq<int>): int {
    if values == [] then 0 else SaturatingAdd(Total(values[..|values| - 1]), values[|values| - 1])
  }

  function Exact(values: seq<int>): int {
    if values == [] then 0 else Exact(values[..|values| - 1]) + values[|values| - 1]
  }

  predicate Counts(values: seq<int>) {
    forall i :: 0 <= i < |values| ==> Count(values[i])
  }

  lemma {:induction false} TotalIsExactOrMax(values: seq<int>)
    requires Counts(values)
    ensures Total(values) == Min(MAX_INT64, Exact(values)) && Count(Total(values)) && Exact(values) >= 0
  {
    if values != [] { TotalIsExactOrMax(values[..|values| - 1]); }
  }

  function Effectives(raws: seq<int>, adjustments: seq<int>): seq<int>
    requires |raws| == |adjustments|
  {
    seq(|raws|, i requires 0 <= i < |raws| => Effective(raws[i], adjustments[i]))
  }

  lemma EffectivesCount(raws: seq<int>, adjustments: seq<int>)
    requires |raws| == |adjustments| && Counts(raws)
    ensures Counts(Effectives(raws, adjustments))
  {
    forall i | 0 <= i < |raws| ensures Count(Effectives(raws, adjustments)[i]) { AddsClamped(raws[i], adjustments[i]); }
  }

  /** Greedy: a growth goes to the newest day, a reduction is taken from the newest days that have
      something left. */
  function Take(values: seq<int>, remaining: int): seq<int>
    requires remaining >= 0
  {
    if values == [] then [] else
    var last := values[|values| - 1];
    var taken := if last <= 0 then 0 else Min(last, remaining);
    Take(values[..|values| - 1], remaining - taken) + [-taken]
  }

  function Growth(n: nat, delta: int): seq<int> {
    seq(n, i => if i == n - 1 then delta else 0)
  }

  function Allocation(values: seq<int>, delta: int): (r: seq<int>)
    ensures |r| == |values|
  {
    if delta >= 0 then Growth(|values|, delta) else TakeLength(values, -delta); Take(values, -delta)
  }

  lemma TakeLength(values: seq<int>, remaining: int)
    requires remaining >= 0
    ensures |Take(values, remaining)| == |values|
  {
  }

  function Plus(a: seq<int>, b: seq<int>): seq<int>
    requires |a| == |b|
  {
    seq(|a|, i requires 0 <= i < |a| => a[i] + b[i])
  }

  /** Each part is taken from what its day shows. */
  predicate TakenFrom(values: seq<int>, parts: seq<int>) {
    |parts| == |values| && forall i :: 0 <= i < |values| ==> -values[i] <= parts[i] <= 0
  }

  lemma TakenSnoc(values: seq<int>, parts: seq<int>, value: int, part: int)
    requires TakenFrom(values, parts) && -value <= part <= 0
    ensures TakenFrom(values + [value], parts + [part]) && Exact(parts + [part]) == Exact(parts) + part
  {
    assert (parts + [part])[..|parts|] == parts;
  }

  function TakenOf(value: int, remaining: int): int { if value <= 0 then 0 else Min(value, remaining) }

  lemma TakeSnoc(front: seq<int>, last: int, remaining: int)
    requires remaining >= 0 && last >= 0
    ensures var taken := TakenOf(last, remaining);
            Take(front + [last], remaining) == Take(front, remaining - taken) + [-taken]
    ensures Exact(front + [last]) == Exact(front) + last
  {
    assert (front + [last])[..|front|] == front;
  }

  /** A reduction no larger than what there is takes all of it, and makes no day negative. */
  lemma {:induction false} TakesAll(values: seq<int>, remaining: int)
    requires Counts(values) && 0 <= remaining <= Exact(values)
    ensures TakenFrom(values, Take(values, remaining)) && Exact(Take(values, remaining)) == -remaining
    decreases |values|, 1
  {
    if values != [] {
      var front, last := values[..|values| - 1], values[|values| - 1];
      TotalIsExactOrMax(front);
      TakesAllStep(front, last, remaining);
      assert values == front + [last];
    }
  }

  lemma {:induction false} TakesAllStep(front: seq<int>, last: int, remaining: int)
    requires Counts(front) && Count(last) && 0 <= remaining <= Exact(front) + last && Exact(front) >= 0
    ensures var taken := Take(front + [last], remaining); TakenFrom(front + [last], taken) && Exact(taken) == -remaining
    decreases |front| + 1, 0
  {
    var taken := TakenOf(last, remaining);
    assert 0 <= taken <= last && 0 <= remaining - taken <= Exact(front);
    TakesAll(front, remaining - taken);
    var parts := Take(front, remaining - taken);
    TakenSnoc(front, parts, last, -taken);
    assert Take(front + [last], remaining) == parts + [-taken] by { TakeSnoc(front, last, remaining); }
  }

  /** The newest days give first: a day gives something only when every newer one has given all it shows. Together
      with TakesAll this determines every part. */
  lemma {:induction false} NewestGiveFirst(values: seq<int>, remaining: int, i: nat, j: nat)
    requires Counts(values) && remaining >= 0 && i < j < |values| && |Take(values, remaining)| == |values|
    requires Take(values, remaining)[i] != 0
    ensures Take(values, remaining)[j] == -values[j]
  {
    var front, last := values[..|values| - 1], values[|values| - 1];
    var taken := TakenOf(last, remaining);
    assert values == front + [last];
    assert Count(last);
    TakeSnoc(front, last, remaining);
    TakeLength(front, remaining - taken);
    if remaining == taken {
      TakeZero(front, i);
    } else if j < |front| {
      NewestGiveFirst(front, remaining - taken, i, j);
    }
  }

  lemma {:induction false} TakeZero(values: seq<int>, i: nat)
    requires Counts(values) && i < |values| && |Take(values, 0)| == |values|
    ensures Take(values, 0)[i] == 0
  {
    var front := values[..|values| - 1];
    assert Count(values[|values| - 1]);
    TakeLength(front, 0);
    if i < |front| { TakeZero(front, i); }
  }

  /** A growth goes to the newest day alone. */
  lemma GrowthGoesToNewest(values: seq<int>, delta: int, i: nat)
    requires delta >= 0 && i < |values|
    ensures Allocation(values, delta)[i] == if i == |values| - 1 then delta else 0
  {
  }

  lemma {:induction false} ExactPlus(a: seq<int>, b: seq<int>)
    requires |a| == |b|
    ensures Exact(Plus(a, b)) == Exact(a) + Exact(b)
  {
    if a != [] {
      ExactPlus(a[..|a| - 1], b[..|b| - 1]);
      assert Plus(a, b)[..|a| - 1] == Plus(a[..|a| - 1], b[..|b| - 1]);
    }
  }

  lemma {:induction false} ExactZeros(n: nat)
    ensures Exact(seq(n, i => 0)) == 0
  {
    if n > 0 {
      ExactZeros(n - 1);
      assert seq(n, i => 0)[..n - 1] == seq(n - 1, i => 0);
    }
  }

  lemma GrowthSums(n: nat, delta: int)
    ensures Exact(Growth(n, delta)) == if n == 0 then 0 else delta
  {
    if n > 0 {
      ExactZeros(n - 1);
      assert Growth(n, delta)[..n - 1] == seq(n - 1, i => 0);
    }
  }

  /** Taking from a day never takes more than it shows, so what it shows shrinks by exactly that. */
  lemma TakenShows(raws: seq<int>, adjustments: seq<int>, taken: seq<int>)
    requires |raws| == |adjustments| == |taken| && Counts(raws)
    requires forall i :: 0 <= i < |raws| ==> -Effective(raws[i], adjustments[i]) <= taken[i] <= 0
    requires forall i :: 0 <= i < |raws| ==> raws[i] + adjustments[i] <= MAX_INT64
    ensures Effectives(raws, Plus(adjustments, taken)) == Plus(Effectives(raws, adjustments), taken)
  {
    forall i | 0 <= i < |raws|
      ensures Effective(raws[i], adjustments[i] + taken[i]) == Effective(raws[i], adjustments[i]) + taken[i]
    {
      AddsClamped(raws[i], adjustments[i]);
      AddsClamped(raws[i], adjustments[i] + taken[i]);
    }
  }

  /** The newest day's correction has not eaten more than its usage. */
  predicate NewestUnclamped(raws: seq<int>, adjustments: seq<int>)
    requires |raws| == |adjustments| > 0
  {
    raws[|raws| - 1] + adjustments[|raws| - 1] >= 0
  }

  predicate Unsaturated(raws: seq<int>, adjustments: seq<int>)
    requires |raws| == |adjustments|
  {
    && Exact(Effectives(raws, adjustments)) <= MAX_INT64
    && forall i :: 0 <= i < |raws| ==> raws[i] + adjustments[i] <= MAX_INT64
  }

  lemma GrowthShows(raws: seq<int>, adjustments: seq<int>, delta: int)
    requires |raws| == |adjustments| > 0 && Counts(raws) && Unsaturated(raws, adjustments)
    requires 0 < delta <= MAX_INT64 - Exact(Effectives(raws, adjustments))
    ensures var after := Exact(Effectives(raws, Plus(adjustments, Growth(|raws|, delta))));
            && (NewestUnclamped(raws, adjustments) ==> after == Exact(Effectives(raws, adjustments)) + delta)
            && (!NewestUnclamped(raws, adjustments) ==> 0 <= after < Exact(Effectives(raws, adjustments)) + delta)
  {
    var n := |raws| - 1;
    var before, grown := Effectives(raws, adjustments), Effectives(raws, Plus(adjustments, Growth(|raws|, delta)));
    assert grown[..n] == before[..n];
    EffectivesCount(raws, adjustments);
    TotalIsExactOrMax(before[..n]);
    AddsClamped(raws[n], adjustments[n]);
    AddsClamped(raws[n], adjustments[n] + delta);
  }

  lemma ReductionShows(raws: seq<int>, adjustments: seq<int>, reduction: int)
    requires |raws| == |adjustments| && Counts(raws) && Unsaturated(raws, adjustments)
    requires 0 < reduction <= Exact(Effectives(raws, adjustments))
    ensures var shown := Effectives(raws, adjustments); var allocation := Allocation(shown, -reduction);
            && Exact(allocation) == -reduction
            && Exact(Effectives(raws, Plus(adjustments, allocation))) == Exact(shown) - reduction
  {
    var shown := Effectives(raws, adjustments);
    EffectivesCount(raws, adjustments);
    TakesAll(shown, reduction);
    TakenShows(raws, adjustments, Take(shown, reduction));
    ExactPlus(shown, Take(shown, reduction));
  }

  /******* Saturated cycles *******/

  lemma {:induction false} ExactAtLeast(values: seq<int>, i: nat, j: nat)
    requires Counts(values) && i < |values| && j < |values|
    ensures values[i] <= Exact(values) && (i != j ==> values[i] + values[j] <= Exact(values))
  {
    var front := values[..|values| - 1];
    TotalIsExactOrMax(front);
    assert Count(values[|values| - 1]);
    if i < |front| && j < |front| {
      ExactAtLeast(front, i, j);
    } else if i < |front| {
      ExactAtLeast(front, i, i);
    } else if j < |front| {
      ExactAtLeast(front, j, j);
    }
  }

  lemma {:induction false} ExactOrder(a: seq<int>, b: seq<int>, k: nat)
    requires |a| == |b| && k < |a| && forall i :: 0 <= i < |a| ==> a[i] <= b[i]
    ensures Exact(a) <= Exact(b) && (a[k] < b[k] ==> Exact(a) < Exact(b))
  {
    if |a| > 1 { ExactOrder(a[..|a| - 1], b[..|b| - 1], if k < |a| - 1 then k else 0); }
  }

  lemma {:induction false} SomeNegative(values: seq<int>) returns (k: nat)
    requires Exact(values) < 0
    ensures k < |values| && values[k] < 0
  {
    if values[|values| - 1] < 0 {
      k := |values| - 1;
    } else {
      k := SomeNegative(values[..|values| - 1]);
    }
  }

  /** Taking from a day shows at least as much as is left, and more where the day itself is saturated. */
  lemma TakenFromSaturated(raw: int, adjustment: int, taken: int)
    requires Count(raw) && -Effective(raw, adjustment) <= taken <= 0
    ensures Effective(raw, adjustment + taken) >= Effective(raw, adjustment) + taken
    ensures raw + adjustment > MAX_INT64 && taken < 0 ==>
              Effective(raw, adjustment + taken) > Effective(raw, adjustment) + taken
  {
    AddsClamped(raw, adjustment);
    AddsClamped(raw, adjustment + taken);
  }

  /** The strict step: either more is shown than fits, or the day that is saturated gives up something. */
  lemma SaturatedShowsMore(raws: seq<int>, adjustments: seq<int>, taken: seq<int>, i: nat)
    requires |raws| == |adjustments| == |taken| && Counts(raws) && i < |raws| && raws[i] + adjustments[i] > MAX_INT64
    requires TakenFrom(Effectives(raws, adjustments), taken) && Exact(taken) < 0
    requires Exact(Effectives(raws, adjustments)) <= MAX_INT64
    ensures Effective(raws[i], adjustments[i] + taken[i]) > Effective(raws[i], adjustments[i]) + taken[i]
  {
    var shown := Effectives(raws, adjustments);
    EffectivesCount(raws, adjustments);
    AddsClamped(raws[i], adjustments[i]);
    var k := SomeNegative(taken);
    ExactAtLeast(shown, i, k);
    TakenFromSaturated(raws[i], adjustments[i], taken[i]);
  }

  /** A saturated cycle holds at least the largest count. */
  lemma SaturatedHoldsMax(raws: seq<int>, adjustments: seq<int>)
    requires |raws| == |adjustments| && Counts(raws) && !Unsaturated(raws, adjustments)
    ensures Exact(Effectives(raws, adjustments)) >= MAX_INT64
  {
    EffectivesCount(raws, adjustments);
    if i :| 0 <= i < |raws| && raws[i] + adjustments[i] > MAX_INT64 {
      AddsClamped(raws[i], adjustments[i]);
      ExactAtLeast(Effectives(raws, adjustments), i, i);
    }
  }

  /** Taking from a saturated cycle leaves it showing more than the exact remainder of the largest count. */
  lemma SaturatedKeepsMore(raws: seq<int>, adjustments: seq<int>, taken: seq<int>)
    requires |raws| == |adjustments| && Counts(raws) && !Unsaturated(raws, adjustments)
    requires TakenFrom(Effectives(raws, adjustments), taken) && Exact(taken) < 0
    ensures Exact(Effectives(raws, Plus(adjustments, taken))) > MAX_INT64 + Exact(taken)
  {
    var shown := Effectives(raws, adjustments);
    SaturatedHoldsMax(raws, adjustments);
    ExactPlus(shown, taken);
    var left, after := Plus(shown, taken), Effectives(raws, Plus(adjustments, taken));
    forall i | 0 <= i < |raws| ensures left[i] <= after[i] {
      TakenFromSaturated(raws[i], adjustments[i], taken[i]);
    }
    if Exact(shown) > MAX_INT64 {
      ExactOrder(left, after, 0);
    } else {
      var i :| 0 <= i < |raws| && raws[i] + adjustments[i] > MAX_INT64;
      SaturatedShowsMore(raws, adjustments, taken, i);
      ExactOrder(left, after, i);
    }
  }

  /** A reduction of a saturated cycle leaves it showing more than the target. */
  lemma SaturatedReductionMisses(raws: seq<int>, adjustments: seq<int>, reduction: int)
    requires |raws| == |adjustments| && Counts(raws) && !Unsaturated(raws, adjustments)
    requires 0 < reduction <= MAX_INT64
    ensures var shown := Effectives(raws, adjustments);
            && Exact(Allocation(shown, -reduction)) == -reduction
            && Exact(Effectives(raws, Plus(adjustments, Allocation(shown, -reduction)))) > MAX_INT64 - reduction
  {
    var shown := Effectives(raws, adjustments);
    EffectivesCount(raws, adjustments);
    SaturatedHoldsMax(raws, adjustments);
    TakesAll(shown, reduction);
    SaturatedKeepsMore(raws, adjustments, Take(shown, reduction));
  }

  /** Below the largest value nothing is saturated. */
  lemma BelowMaxIsUnsaturated(raws: seq<int>, adjustments: seq<int>)
    requires |raws| == |adjustments| && Counts(raws) && Total(Effectives(raws, adjustments)) < MAX_INT64
    ensures Unsaturated(raws, adjustments)
  {
    var shown := Effectives(raws, adjustments);
    EffectivesCount(raws, adjustments);
    TotalIsExactOrMax(shown);
    forall i | 0 <= i < |raws| ensures raws[i] + adjustments[i] <= MAX_INT64 {
      AddsClamped(raws[i], adjustments[i]);
      ExactAtLeast(shown, i, i);
    }
  }

  /** When a direction calibration shows its target: it is shown already, or it is a reduction of a cycle
      that is not saturated, or a growth onto a newest day that is not clamped. */
  predicate Reachable(raws: seq<int>, adjustments: seq<int>, target: int)
    requires |raws| == |adjustments| > 0
  {
    var before := Total(Effectives(raws, adjustments));
    || target == before
    || (target < before && Unsaturated(raws, adjustments))
    || (target > before && NewestUnclamped(raws, adjustments))
  }

  /** What the days are given, and what the cycle then shows. */
  function Given(raws: seq<int>, adjustments: seq<int>, target: int): (r: seq<int>)
    requires |raws| == |adjustments|
    ensures |r| == |raws|
  {
    var shown := Effectives(raws, adjustments);
    Allocation(shown, target - Total(shown))
  }

  function ShownAfter(raws: seq<int>, adjustments: seq<int>, target: int): int
    requires |raws| == |adjustments|
  {
    Total(Effectives(raws, Plus(adjustments, Given(raws, adjustments, target))))
  }

  lemma GrowthExactIff(raws: seq<int>, adjustments: seq<int>, target: int)
    requires |raws| == |adjustments| > 0 && Counts(raws) && Count(target)
    requires target > Total(Effectives(raws, adjustments))
    ensures Exact(Given(raws, adjustments, target)) == target - Total(Effectives(raws, adjustments))
    ensures ShownAfter(raws, adjustments, target) == target <==> NewestUnclamped(raws, adjustments)
  {
    var shown, given := Effectives(raws, adjustments), Given(raws, adjustments, target);
    EffectivesCount(raws, adjustments);
    TotalIsExactOrMax(shown);
    BelowMaxIsUnsaturated(raws, adjustments);
    GrowthSums(|raws|, target - Total(shown));
    GrowthShows(raws, adjustments, target - Total(shown));
    EffectivesCount(raws, Plus(adjustments, given));
    TotalIsExactOrMax(Effectives(raws, Plus(adjustments, given)));
  }

  lemma ReductionExactIff(raws: seq<int>, adjustments: seq<int>, target: int)
    requires |raws| == |adjustments| > 0 && Counts(raws) && Count(target)
    requires target < Total(Effectives(raws, adjustments))
    ensures Exact(Given(raws, adjustments, target)) == target - Total(Effectives(raws, adjustments))
    ensures ShownAfter(raws, adjustments, target) == target <==> Unsaturated(raws, adjustments)
  {
    var shown, given := Effectives(raws, adjustments), Given(raws, adjustments, target);
    EffectivesCount(raws, adjustments);
    TotalIsExactOrMax(shown);
    EffectivesCount(raws, Plus(adjustments, given));
    TotalIsExactOrMax(Effectives(raws, Plus(adjustments, given)));
    if Unsaturated(raws, adjustments) {
      ReductionShows(raws, adjustments, Total(shown) - target);
    } else {
      SaturatedHoldsMax(raws, adjustments);
      SaturatedReductionMisses(raws, adjustments, Total(shown) - target);
    }
  }

  /** Direction calibration, exactly and for every cycle: the allocation always exists, and the corrected
      days show the target if and only if it is reachable. */
  lemma DirectionCalibrationExactIff(raws: seq<int>, adjustments: seq<int>, target: int)
    requires |raws| == |adjustments| > 0 && Counts(raws) && Count(target)
    ensures Exact(Given(raws, adjustments, target)) == target - Total(Effectives(raws, adjustments))
    ensures ShownAfter(raws, adjustments, target) == target <==> Reachable(raws, adjustments, target)
  {
    if target > Total(Effectives(raws, adjustments)) {
      GrowthExactIff(raws, adjustments, target);
    } else if target < Total(Effectives(raws, adjustments)) {
      ReductionExactIff(raws, adjustments, target);
    } else {
      GrowthSums(|raws|, 0);
      assert Plus(adjustments, Given(raws, adjustments, target)) == adjustments;
    }
  }

  /** A clamped newest day makes an upward calibration miss: five bytes measured, ten corrected away,
      and a target of three leaves the cycle showing nothing. */
  lemma ClampedDayMissesTarget()
    ensures Total(Effectives([5], [-10])) == 0
    ensures Total(Effectives([5], Plus([-10], Allocation([0], 3)))) == 0
  {
    assert Effectives([5], [-10]) == [0];
    assert Allocation([0], 3) == [3];
    assert Plus([-10], [3]) == [-7];
    assert Effectives([5], [-7]) == [0];
  }

  /** A saturated cycle makes a downward calibration miss: with the largest count on one day and one byte
      on the next, a target of five leaves the cycle showing six. */
  lemma SaturatedCycleMissesTarget()
    ensures var raws := [MAX_INT64, 1];
            && Total(Effectives(raws, [0, 0])) == MAX_INT64 && NewestUnclamped(raws, [0, 0])
            && Total(Effectives(raws, Plus([0, 0], Allocation(raws, 5 - MAX_INT64)))) == 6
  {
    var raws := [MAX_INT64, 1];
    assert Effectives(raws, [0, 0]) == raws;
    assert raws[..1] == [MAX_INT64] && raws[..1][..0] == [];
    assert Take([MAX_INT64], MAX_INT64 - 6) == [6 - MAX_INT64];
    assert Take(raws, MAX_INT64 - 5) == [6 - MAX_INT64, -1];
    assert Plus([0, 0], [6 - MAX_INT64, -1]) == [6 - MAX_INT64, -1];
    var after := Effectives(raws, [6 - MAX_INT64, -1]);
    assert after == [6, 0];
    TotalOfTwo(MAX_INT64, 1);
    TotalOfTwo(6, 0);
  }

  lemma TotalOfTwo(a: int, b: int)
    ensures Total([a, b]) == SaturatingAdd(SaturatingAdd(0, a), b)
  {
    assert [a, b][..1] == [a] && [a][..0] == [];
    assert Total([a]) == SaturatingAdd(0, a);
  }
}
