/** The batch writer: filters its slice in place twice, prepares all reports against pending values,
    writes all points at once and then publishes the pending values. Writing a batch is proved to be
    the same as writing its kept reports one at a time. */
module ReportWriter {
  import opened Common
  import opened ReportBatch

  const BATCH_MAX := 64

  /** Points of other entities do not matter. */
  lemma {:induction false} LatestIgnores(points: seq<Point>, more: seq<Point>, metric: Metric, entity: string,
                                         before: int)
    requires forall i :: 0 <= i < |more| ==> more[i].entity != entity
    ensures LatestBefore(points + more, metric, entity, before) == LatestBefore(points, metric, entity, before)
  {
    if more == [] {
      assert points + more == points;
    } else {
      var front := more[..|more| - 1];
      assert (points + more)[..|points + more| - 1] == points + front;
      assert (points + more)[|points + more| - 1] == more[|more| - 1];
      LatestIgnores(points, front, metric, entity, before);
    }
  }

  lemma RestoreIgnores(points: seq<Point>, more: seq<Point>, r: Report)
    requires forall i :: 0 <= i < |more| ==> more[i].entity != r.entity
    ensures Restore(points + more, r) == Restore(points, r)
  {
    LatestIgnores(points, more, NetTotalUp, r.entity, r.time);
    LatestIgnores(points, more, NetTotalDown, r.entity, r.time);
  }

  /** A list with a stretch of it replaced at its front. */
  function Spliced(was: seq<Report>, lo: nat, kept: seq<Report>): seq<Report>
    requires lo + |kept| <= |was|
  {
    was[..lo] + kept + was[lo + |kept|..]
  }

  /** The reports seen so far are filtered into the front of their stretch. */
  ghost predicate Filtered(was: seq<Report>, lo: nat, seen: seq<Report>, blocked: set<string>, kept: seq<Report>,
                           now: seq<Report>) {
    && lo + |seen| <= |was| && seen == was[lo..lo + |seen|]
    && kept == Keep(blocked, seen) && |kept| <= |seen| && now == Spliced(was, lo, kept)
  }

  lemma KeepOneMore(blocked: set<string>, seen: seq<Report>, x: Report)
    ensures Keep(blocked, seen + [x]) == Keep(blocked, seen) + (if x.entity in blocked then [] else [x])
  {
    assert (seen + [x])[..|seen|] == seen;
  }

  lemma SplicedSet(was: seq<Report>, lo: nat, kept: seq<Report>, x: Report)
    requires lo + |kept| < |was|
    ensures Spliced(was, lo, kept)[lo + |kept| := x] == Spliced(was, lo, kept + [x])
  {
    var s, t := Spliced(was, lo, kept)[lo + |kept| := x], Spliced(was, lo, kept + [x]);
    assert |s| == |t|;
    forall k | 0 <= k < |s| ensures s[k] == t[k] {
    }
  }

  lemma FilterReads(was: seq<Report>, lo: nat, seen: seq<Report>, blocked: set<string>, kept: seq<Report>,
                    now: seq<Report>)
    requires Filtered(was, lo, seen, blocked, kept, now) && lo + |seen| < |was|
    ensures |now| == |was| && now[lo + |seen|] == was[lo + |seen|]
  {
  }

  lemma FilterStep(was: seq<Report>, lo: nat, seen: seq<Report>, blocked: set<string>, kept: seq<Report>,
                   now: seq<Report>, x: Report)
    requires Filtered(was, lo, seen, blocked, kept, now) && lo + |seen| < |was| && x == was[lo + |seen|]
    ensures x.entity in blocked ==> Filtered(was, lo, seen + [x], blocked, kept, now)
    ensures |now| == |was|
    ensures x.entity !in blocked ==> Filtered(was, lo, seen + [x], blocked, kept + [x], now[lo + |kept| := x])
  {
    KeepOneMore(blocked, seen, x);
    SplicedSet(was, lo, kept, x);
    assert seen + [x] == was[lo..lo + |seen| + 1];
  }

  /** Filters a stretch of the array into its own front. */
  method FilterInPlace(a: array<Report>, lo: nat, hi: nat, blocked: set<string>) returns (end: nat)
    requires lo <= hi <= a.Length
    modifies a
    ensures end == lo + |Keep(blocked, old(a[lo..hi]))| <= hi
    ensures a[..] == Spliced(old(a[..]), lo, Keep(blocked, old(a[lo..hi])))
  {
    ghost var was := a[..];
    ghost var seen: seq<Report>, kept: seq<Report>, now := [], [], was;
    end := lo;
    assert Spliced(was, lo, []) == was && was[lo..lo] == [];
    for i := lo to hi
      invariant now == a[..] && i == lo + |seen| && end == lo + |kept|
      invariant Filtered(was, lo, seen, blocked, kept, now)
    {
      FilterReads(was, lo, seen, blocked, kept, now);
      var report := a[i];
      assert report == now[i];
      FilterStep(was, lo, seen, blocked, kept, now, report);
      seen := seen + [report];
      if report.entity !in blocked {
        a[end] := report;
        kept, now := kept + [report], now[end := report];
        assert a[..] == now;
        end := end + 1;
      }
    }
    assert seen == was[lo..hi] == old(a[lo..hi]);
  }

  /** Overlaying the pending values of a batch on the states it started from. */
  function Overlay(base: Store, points: seq<Point>, pending: map<string, Values>): Store {
    Store(base.points + points, base.states + pending)
  }

  predicate PendingOk(pending: map<string, Values>, points: seq<Point>) {
    && (forall e :: e in pending ==> pending[e].initialized)
    && (forall i :: 0 <= i < |points| ==> points[i].entity in pending)
  }

  function Current(base: Store, pending: map<string, Values>, entity: string): Values {
    if entity in pending then pending[entity] else if entity in base.states then base.states[entity] else UNSEEN
  }

  /** What a report of the batch is compared with: restoring from the store as it was before the batch
      is restoring from it as it would be after the earlier reports of the batch. */
  function BatchValues(base: Store, pending: map<string, Values>, r: Report): Values {
    var v := Current(base, pending, r.entity);
    if v.initialized then v else Restore(base.points, r)
  }

  lemma BeforeInBatch(base: Store, points: seq<Point>, pending: map<string, Values>, r: Report)
    requires PendingOk(pending, points)
    ensures Before(Overlay(base, points, pending), r) == BatchValues(base, pending, r)
  {
    if r.entity !in pending {
      RestoreIgnores(base.points, points, r);
    }
  }

  lemma OverlayGrows(base: Store, points: seq<Point>, pending: map<string, Values>, added: seq<Point>, entity: string,
                     v: Values)
    ensures Overlay(base, points + added, pending[entity := v]) ==
              Store(Overlay(base, points, pending).points + added, Overlay(base, points, pending).states[entity := v])
  {
    assert base.points + points + added == base.points + (points + added);
    assert (base.states + pending)[entity := v] == base.states + pending[entity := v];
  }

  lemma PendingGrows(pending: map<string, Values>, points: seq<Point>, v: Values, r: Report)
    requires PendingOk(pending, points)
    ensures PendingOk(pending[r.entity := Seen(r)], points + Points(v, r))
  {
  }

  lemma OneInBatch(base: Store, points: seq<Point>, pending: map<string, Values>, r: Report, v: Values, stamped: Report)
    requires PendingOk(pending, points) && v == BatchValues(base, pending, r) && stamped == Stamp(v, r)
    ensures One(Overlay(base, points, pending), r) ==
              Overlay(base, points + Points(v, stamped), pending[r.entity := Seen(stamped)])
    ensures PendingOk(pending[r.entity := Seen(stamped)], points + Points(v, stamped))
    ensures stamped == Stamp(Before(Overlay(base, points, pending), r), r)
  {
    BeforeInBatch(base, points, pending, r);
    OverlayGrows(base, points, pending, Points(v, stamped), r.entity, Seen(stamped));
    PendingGrows(pending, points, v, stamped);
  }

  class MetricWriter {
    var points: seq<Point>
    var states: map<string, Values>

    ghost function Contents(): Store
      reads this
    {
      Store(points, states)
    }

    /** A state that was never initialised is still empty. */
    ghost predicate Valid()
      reads this
    {
      forall e :: e in states && !states[e].initialized ==> states[e] == UNSEEN
    }

    constructor ()
      ensures Valid() && Contents() == Store([], map[])
    {
      points, states := [], map[];
    }

    /** Fills an empty state from the newest stored counters before the report; what cannot be read is
        left out. */
    method RestoreCounters(r: Report) returns (v: Values)
      ensures v == Restore(points, r)
    {
      v := UNSEEN;
      if r.lookups.up {
        var up := LatestBefore(points, NetTotalUp, r.entity, r.time);
        if up.Some? {
          v := v.(totalUp := up.value.value, hasUp := true, timestamp := Some(up.value.time));
        }
      }
      if r.lookups.down {
        var down := LatestBefore(points, NetTotalDown, r.entity, r.time);
        if down.Some? {
          v := v.(totalDown := down.value.value, hasDown := true);
          if v.timestamp.None? || down.value.time > v.timestamp.value {
            v := v.(timestamp := Some(down.value.time));
          }
        }
      }
      v := v.(initialized := true);
    }

    /** The values a report is compared with, creating an empty state on first sight. */
    method LoadValues(r: Report, pending: map<string, Values>, ghost base: Store) returns (v: Values)
      requires Valid() && points == base.points && Opened(base.states, states, pending)
      modifies this`states
      ensures Valid() && Opened(base.states, states, pending[r.entity := v])
      ensures v == BatchValues(base, pending, r)
    {
      if r.entity !in states {
        states := states[r.entity := UNSEEN];
      }
      v := if r.entity in pending then pending[r.entity] else states[r.entity];
      if !v.initialized {
        v := RestoreCounters(r);
      }
    }

    /** One turn of the preparation loop, after the reports already done. */
    method PrepareOne(report: Report, batch: seq<Point>, pending: map<string, Values>, ghost base: Store,
                      ghost done: seq<Report>)
      returns (stamped: Report, batch': seq<Point>, pending': map<string, Values>)
      requires Valid() && points == base.points && Opened(base.states, states, pending)
      requires PendingOk(pending, batch) && Overlay(base, batch, pending) == Fold(base, done)
      modifies this`states
      ensures Valid() && Opened(base.states, states, pending') && PendingOk(pending', batch')
      ensures stamped == Stamp(Before(Fold(base, done), report), report)
      ensures Overlay(base, batch', pending') == One(Fold(base, done), report)
    {
      var values := LoadValues(report, pending, base);
      stamped := report;
      if values.timestamp.Some? && report.time <= values.timestamp.value {
        stamped := report.(time := values.timestamp.value + 1);
      }
      OneInBatch(base, batch, pending, report, values, stamped);
      batch' := batch + Points(values, stamped);
      pending' := pending[report.entity := Seen(stamped)];
    }

    /** The loop over the batch: everything is computed against pending values, and nothing is stored
        but the empty states that the lookup creates. */
    method PrepareBatch(reports: seq<Report>)
      returns (prepared: seq<Report>, batch: seq<Point>, pending: map<string, Values>)
      requires Valid()
      modifies this`states
      ensures Valid() && Opened(old(states), states, pending)
      ensures Overlay(old(Contents()), batch, pending) == Fold(old(Contents()), reports)
      ensures |prepared| == |reports| && PreparedOk(old(Contents()), reports, prepared)
      ensures forall e :: e in pending ==> pending[e].initialized
    {
      ghost var base := Contents();
      prepared, batch, pending := [], [], map[];
      for i := 0 to |reports|
        invariant Valid() && PendingOk(pending, batch) && Opened(base.states, states, pending)
        invariant Overlay(base, batch, pending) == Fold(base, reports[..i])
        invariant |prepared| == i && PreparedOk(base, reports, prepared)
      {
        var stamped;
        FoldStep(base, reports, i);
        stamped, batch, pending := PrepareOne(reports[i], batch, pending, base, reports[..i]);
        PreparedSnoc(base, reports, prepared, stamped);
        prepared := prepared + [stamped];
      }
      assert reports[..|reports|] == reports;
    }

    /** The filtered batch: prepare, write all points, then publish. A write that fails leaves behind
        at most empty states, which no later report can tell from none. */
    method WriteFiltered(reports: seq<Report>, lands: bool) returns (prepared: seq<Report>)
      requires Valid()
      modifies this
      ensures Valid()
      ensures lands ==> Contents() == Fold(old(Contents()), reports)
      ensures lands ==> |prepared| == |reports| && PreparedOk(old(Contents()), reports, prepared)
      ensures !lands ==> points == old(points) && SameStates(old(states), states)
    {
      var batch, pending;
      ghost var base := Contents();
      prepared, batch, pending := PrepareBatch(reports);
      if !lands { return; }
      points := points + batch;
      PublishOverOpened(base.states, states, pending);
      states := states + pending;
    }

    /** writeReportBatch on a stretch of the caller's slice. The guard is read twice; `lands` says
        whether the store accepts the points. */
    method WriteReportBatch(a: array<Report>, lo: nat, hi: nat, first: set<string>, second: set<string>, lands: bool)
      returns (ok: bool, prepared: seq<Report>)
      requires Valid() && lo <= hi <= a.Length
      modifies this, a
      ensures Valid()
      ensures var once := Keep(first, old(a[lo..hi])); var kept := Keep(second, once);
              && ok == (lands || kept == [])
              && a[..] == Spliced(Spliced(old(a[..]), lo, once), lo, kept)
              && (ok ==> Contents() == Fold(old(Contents()), kept) && |prepared| == |kept|
                         && PreparedOk(old(Contents()), kept, prepared))
              && (!ok ==> points == old(points) && SameStates(old(states), states))
    {
      ok, prepared := true, [];
      ghost var once := Keep(first, a[lo..hi]);
      var end := FilterInPlace(a, lo, hi, first);
      SplicedStretch(old(a[..]), lo, once);
      if end == lo { return; }
      assert a[lo..end] == once;
      ghost var kept := Keep(second, once);
      ghost var mid := a[..];
      end := FilterInPlace(a, lo, end, second);
      SplicedStretch(mid, lo, kept);
      if end == lo { return; }
      assert a[lo..end] == kept;
      prepared := WriteFiltered(a[lo..end], lands);
      ok := lands;
    }

    /** One batch at the front of the pending slice. The batch shares its memory with the slice, so what
        the filtering left in it is what the slice holds afterwards. */
    method FlushBatch(pending: seq<Report>, size: nat, g: Readings, lands: bool) returns (ok: bool, left: seq<Report>)
      requires Valid() && size <= |pending|
      modifies this
      ensures Valid() && (lands ==> ok)
      ensures ok ==> Contents() == Fold(old(Contents()), KeepBoth(g, pending[..size])) && left == pending[size..]
      ensures !ok ==> SameStore(old(Contents()), Contents())
      ensures !ok ==> left == ShiftedBoth(g, pending[..size]) + pending[size..]
    {
      var batch := new Report[size](i requires 0 <= i < size <= |pending| => pending[i]);
      assert batch[0..size] == batch[..] == pending[..size];
      SplicedBoth(g, pending[..size]);
      var prepared;
      ok, prepared := WriteReportBatch(batch, 0, size, g.first, g.second, lands);
      if ok {
        left := pending[size..];
      } else {
        left := batch[..] + pending[size..];
      }
    }

    /** writePendingReports: batch after batch until the slice is used up or a write fails. The guard may
        change at any time: `guards` gives its two readings for each batch. Whatever the batches, the
        store holds what writing the kept reports one at a time would have left. When a write fails,
        the slice splits into the batches written, the failed batch and what was not reached. */
    method WritePendingReports(pending: seq<Report>, guards: nat -> Readings, failing: set<nat>)
      returns (left: seq<Report>, ok: bool, ghost split: Slice)
      requires Valid()
      modifies this
      ensures Valid() && pending == Concat(split.batches) + split.failed + split.unreached
      ensures ok ==> left == [] && split.failed == split.unreached == []
      ensures ok ==> Wrote(old(Contents()), guards, split.batches, Contents())
      ensures !ok ==> 0 < |split.failed| <= BATCH_MAX && |split.batches| in failing
      ensures !ok ==> left == ShiftedBoth(guards(|split.batches|), split.failed) + split.unreached
      ensures !ok ==> Wrote(old(Contents()), guards, split.batches, split.store) && SameStore(split.store, Contents())
    {
      ghost var base, store := Contents(), Contents();
      ghost var batches: seq<seq<Report>> := [];
      left, ok := pending, true;
      var batchSize := Min(|left|, BATCH_MAX);
      var number := 0;
      NothingWrote(base, guards);
      while left != []
        invariant Valid() && ok && number == |batches| && batchSize <= BATCH_MAX && (left != [] ==> 0 < batchSize)
        invariant store == Contents() && Wrote(base, guards, batches, store) && pending == Concat(batches) + left
        decreases |left|
      {
        if batchSize > |left| { batchSize := |left|; }
        ghost var batch, rest := left[..batchSize], left[batchSize..];
        assert pending == Concat(batches) + batch + rest;
        ok, left := FlushBatch(left, batchSize, guards(number), number !in failing);
        if !ok {
          split := Slice(batches, batch, rest, store);
          return;
        }
        WroteMore(base, guards, batches, batch, store, Contents());
        batches, store := batches + [batch], Contents();
        number := number + 1;
      }
      split := Slice(batches, [], [], store);
    }

    /** Two flushes of the worker under a steady guard, the first of which may fail anywhere and the second
        of which succeeds. Nothing kept is lost; what is written twice is exactly the kept reports of the
        failed batch that stood at or behind their number. */
    method FlushTwice(pending: seq<Report>, blocked: set<string>, failing: set<nat>)
      returns (ok: bool, ghost written: seq<Report>, ghost failed: seq<Report>, ghost unreached: seq<Report>)
      requires Valid()
      modifies this
      ensures Valid() && pending == written + failed + unreached
      ensures ok ==> written == pending && Contents() == Fold(old(Contents()), Keep(blocked, pending))
      ensures !ok ==> SameStore(Fold(old(Contents()), RetryOrder(blocked, written, failed, unreached)), Contents())
      ensures !ok ==> (Keep(blocked, failed[|Keep(blocked, failed)|..]) == [] <==> BlockedLast(blocked, failed))
      ensures !ok && BlockedLast(blocked, failed) ==>
                SameStore(Fold(old(Contents()), Keep(blocked, pending)), Contents())
    {
      ghost var base := Contents();
      var guards := (n: nat) => Readings(blocked, blocked);
      var left;
      ghost var split;
      left, ok, split := WritePendingReports(pending, guards, failing);
      SteadyGuardKeeps(guards, blocked, split.batches);
      written, failed, unreached := Concat(split.batches), split.failed, split.unreached;
      if ok { return; }
      ghost var now := Contents();
      SteadyGuard(blocked, failed);
      RetryWrites(base, now, blocked, written, failed, unreached);
      NothingRepeatedIff(blocked, failed);
      if BlockedLast(blocked, failed) { RetryIsClean(base, now, blocked, written, failed, unreached); }
      var rest, again;
      ghost var second;
      rest, again, second := WritePendingReports(left, guards, {});
      SteadyGuardKeeps(guards, blocked, second.batches);
      assert Concat(second.batches) == left;
    }
  }

  /** A pending slice after a flush, and the store when its last successful batch was written. */
  datatype Slice = Slice(batches: seq<seq<Report>>, failed: seq<Report>, unreached: seq<Report>, store: Store)

  function Concat(batches: seq<seq<Report>>): seq<Report> {
    if batches == [] then [] else Concat(batches[..|batches| - 1]) + batches[|batches| - 1]
  }

  /** The reports kept from each batch under its own readings of the guard. */
  function KeptOf(guards: nat -> Readings, batches: seq<seq<Report>>): seq<Report> {
    if batches == [] then [] else
    KeptOf(guards, batches[..|batches| - 1]) + KeepBoth(guards(|batches| - 1), batches[|batches| - 1])
  }

  /** The store holds the kept reports of the batches, written one at a time. */
  ghost predicate Wrote(base: Store, guards: nat -> Readings, batches: seq<seq<Report>>, now: Store) {
    now == Fold(base, KeptOf(guards, batches))
  }

  lemma NothingWrote(base: Store, guards: nat -> Readings)
    ensures Wrote(base, guards, [], base) && Concat([]) == []
  {
  }

  lemma WroteMore(base: Store,
                  guards: nat -> Readings, batches: seq<seq<Report>>, batch: seq<Report>, before: Store, now: Store)
    requires Wrote(base, guards, batches, before) && now == Fold(before, KeepBoth(guards(|batches|), batch))
    ensures Wrote(base, guards, batches + [batch], now) && Concat(batches + [batch]) == Concat(batches) + batch
  {
    assert (batches + [batch])[..|batches|] == batches;
    SplitFold(base, KeptOf(guards, batches), KeepBoth(guards(|batches|), batch));
  }

  /** While the guard does not change, the batches do not matter: what is kept is what one filter keeps. */
  lemma {:induction false} SteadyGuardKeeps(guards: nat -> Readings, blocked: set<string>, batches: seq<seq<Report>>)
    requires forall n :: 0 <= n < |batches| ==> guards(n) == Readings(blocked, blocked)
    ensures KeptOf(guards, batches) == Keep(blocked, Concat(batches))
  {
    if batches != [] {
      var front, last := batches[..|batches| - 1], batches[|batches| - 1];
      SteadyGuardKeeps(guards, blocked, front);
      SteadyGuard(blocked, last);
      KeepSplit(blocked, Concat(front), last);
    }
  }

  lemma SplicedBoth(g: Readings, batch: seq<Report>)
    ensures Spliced(Spliced(batch, 0, Keep(g.first, batch)), 0, KeepBoth(g, batch)) == ShiftedBoth(g, batch)
  {
    var once, kept := Keep(g.first, batch), KeepBoth(g, batch);
    assert Spliced(batch, 0, once)[|kept|..] == once[|kept|..] + batch[|once|..];
  }

  predicate PreparedOk(base: Store, reports: seq<Report>, prepared: seq<Report>) {
    |prepared| <= |reports| && forall i :: 0 <= i < |prepared| ==> prepared[i] == Prepared(base, reports, i)
  }

  lemma PreparedSnoc(base: Store, reports: seq<Report>, prepared: seq<Report>, stamped: Report)
    requires |prepared| < |reports| && PreparedOk(base, reports, prepared)
    requires stamped == Stamp(Before(Fold(base, reports[..|prepared|]), reports[|prepared|]), reports[|prepared|])
    ensures PreparedOk(base, reports, prepared + [stamped])
  {
  }

  /** Looking a state up leaves an empty one behind for every new entity and changes no other. */
  ghost predicate Opened(was: map<string, Values>, now: map<string, Values>, pending: map<string, Values>) {
    && (forall e :: e in now <==> e in was || e in pending)
    && (forall e :: e in now ==> now[e] == if e in was then was[e] else UNSEEN)
  }

  lemma PublishOverOpened(was: map<string, Values>, now: map<string, Values>, pending: map<string, Values>)
    requires Opened(was, now, pending)
    ensures now + pending == was + pending
  {
  }

  lemma SplicedStretch(was: seq<Report>, lo: nat, kept: seq<Report>)
    requires lo + |kept| <= |was|
    ensures Spliced(was, lo, kept)[lo..lo + |kept|] == kept
    ensures Spliced(was, lo, []) == was
  {
  }
}
