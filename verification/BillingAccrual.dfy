/** Price versions of one client and their daily accrual. Times are nanoseconds; days are Beijing
    calendar days numbered from the epoch. */
module BillingAccrual {
  import opened Common
  import opened Money
  import BillingLedger

  const DAY := 86_400_000_000_000
  const OFFSET := 28_800_000_000_000

  function DayOf(t: int): int { (t + OFFSET) / DAY }

  function DayStart(d: int): int { d * DAY - OFFSET }

  lemma DayHolds(t: int)
    ensures DayStart(DayOf(t)) <= t < DayStart(DayOf(t) + 1)
  {
  }

  /** Days are 24 hours long, and day 0 starts at midnight in Beijing, eight hours before the epoch. */
  lemma BeijingDays(t: int, d: int)
    ensures DayOf(t) == d <==> (d * 24 - 8) * 3_600_000_000_000 <= t < ((d + 1) * 24 - 8) * 3_600_000_000_000
    ensures DayStart(d) == (d * 24 - 8) * 3_600_000_000_000
  {
  }

  datatype Version = Version(
    price: int, cycle: int, currency: string, valid: bool, from: int, to: Option<int>, expired: Option<int>)

  predicate Chargeable(v: Version) { 0 < v.price <= MAX_INT64 && v.cycle > 0 && v.valid }

  /******* One day of one version *******/

  function SliceStart(v: Version, d: int): int { Max(DayStart(d), v.from) }

  function SliceEnd(v: Version, d: int): int {
    var end := DayStart(d + 1);
    var closed := if v.to.Some? then Min(end, v.to.value) else end;
    if v.expired.Some? then Min(closed, v.expired.value) else closed
  }

  function Length(v: Version, d: int): int { Max(0, SliceEnd(v, d) - SliceStart(v, d)) }

  function Amount(v: Version, d: int): int
    requires v.cycle > 0
  {
    Round(v.price * Length(v, d), v.cycle * DAY)
  }

  /** The accrual of a day: nothing for an empty slice or an amount that rounds to zero. */
  function Expected(v: Version, d: int): Option<int>
    requires v.cycle > 0
  {
    if SliceEnd(v, d) <= SliceStart(v, d) || Amount(v, d) == 0 then None else Some(Amount(v, d))
  }

  lemma RoundAtMost(n: int, d: int, bound: int)
    requires d > 0 && n <= bound * d
    ensures Round(n, d) <= bound
  {
    RoundIsNearest(n, d);
    if Round(n, d) > bound { Strictly(bound, Round(n, d), d); }
  }

  /** A day never costs more than the whole price, so the ratio always fits 64 bits. */
  lemma AmountIsBounded(v: Version, d: int)
    requires Chargeable(v)
    ensures 0 <= Amount(v, d) <= v.price && 0 <= Length(v, d) <= DAY
  {
    var n := Length(v, d);
    SignOf(n, v.price);
    OrderScales(n, v.cycle * DAY, v.price);
    RoundIsNearest(v.price * n, v.cycle * DAY);
    RoundAtMost(v.price * n, v.cycle * DAY, v.price);
  }

  /** accrualEntryForInterval for one day. */
  method AccrualEntry(v: Version, d: int) returns (amount: Option<int>)
    requires Chargeable(v)
    ensures amount == Expected(v, d)
  {
    var start, end := DayStart(d), DayStart(d + 1);
    if v.from > start { start := v.from; }
    if v.to.Some? && v.to.value < end { end := v.to.value; }
    if v.expired.Some? && v.expired.value < end { end := v.expired.value; }
    if end <= start { return None; }
    AmountIsBounded(v, d);
    var rounded := BillingLedger.RoundRatio(v.price * (end - start), v.cycle * DAY);
    if rounded.value == 0 { return None; }
    return rounded;
  }

  /******* Entries *******/

  datatype Slot = Slot(version: nat, day: int)

  /** Exactly what an accrual through a day adds. */
  predicate Due(versions: seq<Version>, through: int, s: Slot) {
    && s.version < |versions| && Chargeable(versions[s.version])
    && s.day <= through && Expected(versions[s.version], s.day).Some?
  }

  ghost predicate IsAccrued(versions: seq<Version>, was: map<Slot, int>, through: int, now: map<Slot, int>) {
    && (forall s :: s in now <==> s in was || Due(versions, through, s))
    && (forall s :: s in now ==> now[s] == if s in was then was[s] else Expected(versions[s.version], s.day).value)
  }

  /** Every entry is the expected one, and no earlier day of its version is missing. */
  predicate EntryOk(versions: seq<Version>, entries: map<Slot, int>, s: Slot)
    requires s in entries
  {
    && s.version < |versions| && Chargeable(versions[s.version])
    && Expected(versions[s.version], s.day) == Some(entries[s])
  }

  ghost predicate NoGap(versions: seq<Version>, entries: map<Slot, int>, s: Slot)
    requires s.version < |versions| && Chargeable(versions[s.version])
  {
    forall d :: d < s.day && Expected(versions[s.version], d).Some? ==> Slot(s.version, d) in entries
  }

  ghost predicate EntriesOk(versions: seq<Version>, entries: map<Slot, int>) {
    forall s :: s in entries ==> EntryOk(versions, entries, s) && NoGap(versions, entries, s)
  }

  /** The watermark query: the last day accrued for a version. */
  method LastAccrued(entries: map<Slot, int>, version: nat) returns (last: Option<int>)
    ensures last.None? ==> forall d :: Slot(version, d) !in entries
    ensures last.Some? ==> Slot(version, last.value) in entries
    ensures last.Some? ==> forall d :: Slot(version, d) in entries ==> d <= last.value
  {
    last := None;
    var todo := entries.Keys;
    while todo != {}
      invariant todo <= entries.Keys
      invariant last.Some? ==> Slot(version, last.value) in entries
      invariant forall d :: Slot(version, d) in entries && Slot(version, d) !in todo ==> last.Some? && d <= last.value
      decreases todo
    {
      var s :| s in todo;
      if s.version == version && (last.None? || s.day > last.value) { last := Some(s.day); }
      todo := todo - {s};
    }
  }

  lemma NothingBefore(v: Version, d: int)
    requires v.cycle > 0 && d < DayOf(v.from)
    ensures Expected(v, d).None?
  {
    DayHolds(v.from);
  }

  lemma NothingAfter(v: Version, d: int)
    requires v.cycle > 0
    ensures v.to.Some? && d > DayOf(v.to.value - 1) ==> Expected(v, d).None?
    ensures v.expired.Some? && d > DayOf(v.expired.value - 1) ==> Expected(v, d).None?
  {
    if v.to.Some? { DayHolds(v.to.value - 1); }
    if v.expired.Some? { DayHolds(v.expired.value - 1); }
  }

  /** The days of one version that are accrued by now: before `day` and through. */
  ghost predicate Filled(v: Version, i: nat, was: map<Slot, int>, now: map<Slot, int>, day: int)
    requires Chargeable(v)
  {
    && (forall s :: s in now <==> s in was || (s.version == i && s.day < day && Expected(v, s.day).Some?))
    && (forall s :: s in now ==> now[s] == if s in was then was[s] else Expected(v, s.day).value)
  }

  /** Catches one version up, starting after its watermark and ending with its life. */
  method AccrueVersion(versions: seq<Version>, i: nat, entries: map<Slot, int>, through: int)
    returns (now: map<Slot, int>)
    requires i < |versions| && Chargeable(versions[i])
    requires forall s :: s in entries && s.version == i ==> NoGap(versions, entries, s) && EntryOk(versions, entries, s)
    ensures Filled(versions[i], i, entries, now, through + 1)
  {
    var v := versions[i];
    now := entries;
    var first := DayOf(v.from);
    var watermark := LastAccrued(entries, i);
    if watermark.Some? && watermark.value >= first { first := watermark.value + 1; }
    forall d | d < first && Expected(v, d).Some? ensures Slot(i, d) in entries {
      if d < DayOf(v.from) { NothingBefore(v, d); }
      if watermark.Some? { assert NoGap(versions, entries, Slot(i, watermark.value)); }
    }
    var last := through;
    if v.to.Some? && DayOf(v.to.value - 1) < last { last := DayOf(v.to.value - 1); }
    if v.expired.Some? && DayOf(v.expired.value - 1) < last { last := DayOf(v.expired.value - 1); }
    var day := first;
    while day <= last
      invariant day == first || day <= last + 1
      invariant forall s :: s in now <==>
                  s in entries || (s.version == i && first <= s.day < day && Expected(v, s.day).Some?)
      invariant forall s :: s in now ==> now[s] == if s in entries then entries[s] else Expected(v, s.day).value
    {
      var amount := AccrualEntry(v, day);
      if amount.Some? && Slot(i, day) !in now {
        now := now[Slot(i, day) := amount.value];
      }
      day := day + 1;
    }
    forall s: Slot | s.version == i && s.day <= through && Expected(v, s.day).Some? ensures s in now {
      NothingAfter(v, s.day);
      if s.day < first { assert Slot(i, s.day) in entries; }
    }
  }

  /** After the first n versions are caught up. */
  ghost predicate FilledUpTo(versions: seq<Version>, n: nat, was: map<Slot, int>, now: map<Slot, int>, through: int) {
    && (forall s :: s in now <==> s in was || (s.version < n && Due(versions, through, s)))
    && (forall s :: s in now ==> now[s] == if s in was then was[s] else Expected(versions[s.version], s.day).value)
  }

  lemma FilledNext(versions: seq<Version>, i: nat, was: map<Slot, int>, mid: map<Slot, int>, now: map<Slot, int>,
                   through: int)
    requires i < |versions| && Chargeable(versions[i]) && FilledUpTo(versions, i, was, mid, through)
    requires Filled(versions[i], i, mid, now, through + 1)
    ensures FilledUpTo(versions, i + 1, was, now, through)
  {
  }

  /** More entries do not disturb what an entry relies on. */
  lemma LaterUntouched(versions: seq<Version>, was: map<Slot, int>, mid: map<Slot, int>, s: Slot)
    requires s in was && EntryOk(versions, was, s) && NoGap(versions, was, s)
    requires was.Keys <= mid.Keys && mid[s] == was[s]
    ensures EntryOk(versions, mid, s) && NoGap(versions, mid, s)
  {
  }

  /** EnsureAccruedThrough: whatever was accrued before, afterwards exactly the due entries through the
      day are there, and nothing that was there has changed. */
  method EnsureAccruedThrough(versions: seq<Version>, entries: map<Slot, int>, through: int)
    returns (now: map<Slot, int>)
    requires EntriesOk(versions, entries)
    ensures IsAccrued(versions, entries, through, now)
  {
    now := entries;
    for i := 0 to |versions|
      invariant FilledUpTo(versions, i, entries, now, through)
    {
      if Chargeable(versions[i]) {
        forall s | s in now && s.version == i ensures NoGap(versions, now, s) && EntryOk(versions, now, s) {
          assert EntryOk(versions, entries, s) && NoGap(versions, entries, s);
          LaterUntouched(versions, entries, now, s);
        }
        ghost var mid := now;
        now := AccrueVersion(versions, i, now, through);
        FilledNext(versions, i, entries, mid, now, through);
      }
    }
  }

  /******* Price versions *******/

  function CloseAt(v: Version, at: int): Version { if v.to.None? then v.(to := Some(at)) else v }

  function CloseAll(versions: seq<Version>, at: int): seq<Version> {
    seq(|versions|, i requires 0 <= i < |versions| => CloseAt(versions[i], at))
  }

  /** What an edit can change about a price. */
  datatype Terms = Terms(price: int, cycle: int, currency: string, expired: Option<int>)

  /** A version under these terms; `valid` says whether their currency is a known one. */
  function Started(terms: Terms, valid: bool, at: int): Version {
    Version(terms.price, terms.cycle, terms.currency, valid, at, None, terms.expired)
  }

  /** CapturePriceVersion: close what is open and start the new terms at the same instant. */
  function Capture(versions: seq<Version>, terms: Terms, valid: bool, at: int): seq<Version> {
    CloseAll(versions, at) + [Started(terms, valid, at)]
  }

  class PriceBook {
    var versions: seq<Version>

    constructor ()
      ensures versions == []
    {
      versions := [];
    }

    method CloseOpenVersions(at: int)
      modifies this
      ensures versions == CloseAll(old(versions), at)
    {
      var closed: seq<Version> := [];
      for i := 0 to |versions|
        invariant versions == old(versions) && |closed| == i
        invariant forall k :: 0 <= k < i ==> closed[k] == CloseAt(versions[k], at)
      {
        var v := versions[i];
        if v.to.None? { v := v.(to := Some(at)); }
        closed := closed + [v];
      }
      versions := closed;
    }

    /** Price, cycle, currency and expiry decide; unchanged terms leave the versions alone. */
    method CapturePriceVersion(existing: Terms, next: Terms, valid: bool, at: int)
      modifies this
      ensures versions == if next == existing then old(versions) else Capture(old(versions), next, valid, at)
    {
      var changed := next.price != existing.price || next.cycle != existing.cycle || next.currency != existing.currency
        || next.expired != existing.expired;
      if !changed { return; }
      CloseOpenVersions(at);
      versions := versions + [Version(next.price, next.cycle, next.currency, valid, at, None, next.expired)];
    }
  }

  /** An edit ends every open version at its instant, starts the new terms at the same instant, and changes
      nothing else about any version. */
  lemma CaptureLeaves(versions: seq<Version>, terms: Terms, valid: bool, at: int)
    ensures var now := Capture(versions, terms, valid, at);
            && |now| == |versions| + 1
            && now[|versions|].price == terms.price && now[|versions|].cycle == terms.cycle
            && now[|versions|].currency == terms.currency && now[|versions|].expired == terms.expired
            && now[|versions|].valid == valid && now[|versions|].from == at && now[|versions|].to.None?
            && forall i :: 0 <= i < |versions| ==>
                 && now[i] == versions[i].(to := now[i].to)
                 && now[i].to == if versions[i].to.Some? then versions[i].to else Some(at)
  {
  }

  /******* Runs of edits and accruals *******/

  datatype Book = Book(versions: seq<Version>, entries: map<Slot, int>, clock: int)

  datatype Event =
    | CaptureEvent(now: int, terms: Terms, valid: bool)
    | CloseEvent(now: int)
    | AccrueEvent(now: int, through: int)

  /** Clocks do not run backwards, and only complete days are accrued. */
  ghost predicate Steps(b: Book, e: Event, c: Book) {
    && b.clock <= e.now == c.clock
    && match e
       case CaptureEvent(now, terms, valid) =>
         c.versions == Capture(b.versions, terms, valid, now) && c.entries == b.entries
       case CloseEvent(now) => c.versions == CloseAll(b.versions, now) && c.entries == b.entries
       case AccrueEvent(now, through) =>
         && c.versions == b.versions && DayStart(through + 1) <= now
         && IsAccrued(b.versions, b.entries, through, c.entries)
  }

  ghost predicate History(books: seq<Book>, events: seq<Event>) {
    && |books| == |events| + 1 && books[0].versions == [] && books[0].entries == map[]
    && forall i :: 0 <= i < |events| ==> Steps(books[i], events[i], books[i + 1])
  }

  predicate VersionOk(v: Version, clock: int) {
    v.from <= clock && (v.to.Some? ==> v.from <= v.to.value <= clock)
  }

  /** Versions follow one another without overlap, and only the last can be open. */
  predicate EndsBefore(v: Version, w: Version) { v.to.Some? && v.to.value <= w.from }

  predicate VersionsOk(versions: seq<Version>, clock: int) {
    && (forall i :: 0 <= i < |versions| ==> VersionOk(versions[i], clock))
    && (forall i, j :: 0 <= i < j < |versions| ==> EndsBefore(versions[i], versions[j]))
  }

  predicate Complete(entries: map<Slot, int>, clock: int) {
    forall s :: s in entries ==> DayStart(s.day + 1) <= clock
  }

  ghost predicate BookOk(b: Book) {
    VersionsOk(b.versions, b.clock) && EntriesOk(b.versions, b.entries) && Complete(b.entries, b.clock)
  }

  lemma CloseKeepsVersions(versions: seq<Version>, clock: int, at: int)
    requires VersionsOk(versions, clock) && clock <= at
    ensures VersionsOk(CloseAll(versions, at), at)
    ensures forall i :: 0 <= i < |versions| ==> CloseAll(versions, at)[i].to.Some?
  {
    forall i | 0 <= i < |versions| ensures VersionOk(CloseAll(versions, at)[i], at) {
      assert VersionOk(versions[i], clock);
    }
  }

  /** Closing at or after the end of a day leaves the accrual of that day as it was. */
  lemma CloseKeepsExpected(v: Version, at: int, d: int)
    requires v.cycle > 0 && DayStart(d + 1) <= at
    ensures Expected(CloseAt(v, at), d) == Expected(v, d)
  {
  }

  lemma CloseKeepsEntries(versions: seq<Version>, entries: map<Slot, int>, clock: int, at: int, more: seq<Version>)
    requires EntriesOk(versions, entries) && Complete(entries, clock) && clock <= at
    ensures EntriesOk(CloseAll(versions, at) + more, entries)
  {
    var closed := CloseAll(versions, at) + more;
    forall s | s in entries ensures EntryOk(closed, entries, s) && NoGap(closed, entries, s) {
      assert EntryOk(versions, entries, s) && NoGap(versions, entries, s);
      var v := versions[s.version];
      CloseKeepsExpected(v, at, s.day);
      forall d | d < s.day && Expected(CloseAt(v, at), d).Some? ensures Slot(s.version, d) in entries {
        CloseKeepsExpected(v, at, d);
      }
    }
  }

  lemma AccrueKeepsEntries(versions: seq<Version>, was: map<Slot, int>, through: int, now: map<Slot, int>)
    requires EntriesOk(versions, was) && IsAccrued(versions, was, through, now)
    ensures EntriesOk(versions, now)
  {
    forall s | s in now ensures EntryOk(versions, now, s) && NoGap(versions, now, s) {
      if s in was {
        assert EntryOk(versions, was, s) && NoGap(versions, was, s);
      } else {
        forall d | d < s.day && Expected(versions[s.version], d).Some? ensures Slot(s.version, d) in now {
          assert Due(versions, through, Slot(s.version, d));
        }
      }
    }
  }

  lemma StepKeeps(b: Book, e: Event, c: Book)
    requires BookOk(b) && Steps(b, e, c)
    ensures BookOk(c)
  {
    match e
    case CaptureEvent(now, terms, valid) =>
      CloseKeepsVersions(b.versions, b.clock, now);
      CloseKeepsEntries(b.versions, b.entries, b.clock, now, c.versions[|b.versions|..]);
    case CloseEvent(now) =>
      CloseKeepsVersions(b.versions, b.clock, now);
      CloseKeepsEntries(b.versions, b.entries, b.clock, now, []);
      assert CloseAll(b.versions, now) + [] == CloseAll(b.versions, now);
    case AccrueEvent(now, through) =>
      AccrueKeepsEntries(b.versions, b.entries, through, c.entries);
      VersionsAge(b.versions, b.clock, now);
  }

  lemma VersionsAge(versions: seq<Version>, clock: int, later: int)
    requires VersionsOk(versions, clock) && clock <= later
    ensures VersionsOk(versions, later)
  {
    forall i | 0 <= i < |versions| ensures VersionOk(versions[i], later) { assert VersionOk(versions[i], clock); }
    assert forall i, j :: 0 <= i < j < |versions| ==> EndsBefore(versions[i], versions[j]);
  }

  lemma {:induction false} EveryBookOk(books: seq<Book>, events: seq<Event>, n: nat)
    requires History(books, events) && n <= |events|
    ensures BookOk(books[n])
  {
    if n > 0 {
      EveryBookOk(books, events, n - 1);
      StepKeeps(books[n - 1], events[n - 1], books[n]);
    }
  }

  predicate InForce(v: Version, t: int) { v.from <= t && (v.to.Some? ==> t < v.to.value) }

  /** In every run at most one version is in force at any instant, and at most one is open. */
  lemma VersionsNeverOverlap(books: seq<Book>, events: seq<Event>, n: nat, i: nat, j: nat, t: int)
    requires History(books, events) && n <= |events| && i < |books[n].versions| && j < |books[n].versions|
    ensures InForce(books[n].versions[i], t) && InForce(books[n].versions[j], t) ==> i == j
    ensures books[n].versions[i].to.None? && books[n].versions[j].to.None? ==> i == j
  {
    EveryBookOk(books, events, n);
    if i != j { assert VersionsOk(books[n].versions, books[n].clock); }
  }

  predicate Expired(v: Version, t: int) { v.expired.Some? && v.expired.value <= t }

  /** A day of a version charges for an instant exactly when the instant lies in the day, the version is in
      force then, and it has not expired. */
  lemma ChargedIff(v: Version, d: int, t: int)
    ensures SliceStart(v, d) <= t < SliceEnd(v, d) <==> DayOf(t) == d && InForce(v, t) && !Expired(v, t)
  {
  }

  /** In every run no instant is charged twice, be it by two versions or by two days of one. */
  lemma NoInstantChargedTwice(books: seq<Book>, events: seq<Event>, n: nat, i: nat, j: nat, d: int, e: int, t: int)
    requires History(books, events) && n <= |events| && i < |books[n].versions| && j < |books[n].versions|
    requires SliceStart(books[n].versions[i], d) <= t < SliceEnd(books[n].versions[i], d)
    requires SliceStart(books[n].versions[j], e) <= t < SliceEnd(books[n].versions[j], e)
    ensures i == j && d == e
  {
    ChargedIff(books[n].versions[i], d, t);
    ChargedIff(books[n].versions[j], e, t);
    VersionsNeverOverlap(books, events, n, i, j, t);
  }

  /** The entry of a day is the multiple of a micro nearest to price times charged time over the cycle, and there
      is none when that is nothing. */
  lemma EntryIsNearest(v: Version, d: int)
    requires Chargeable(v)
    ensures var amount := if Expected(v, d).Some? then Expected(v, d).value else 0;
            var charged, cycle := TimeOf(v, d), v.cycle * 86_400_000_000_000;
            Nearest(v.price * charged, amount * cycle, cycle) && Expected(v, d) != Some(0)
  {
    RoundIsNearest(v.price * Length(v, d), v.cycle * DAY);
    if SliceEnd(v, d) <= SliceStart(v, d) { RoundIsNearest(0, v.cycle * DAY); }
  }

  /** What is due, in the terms of the versions: a day up to the given one of a version with a valid currency, a
      price and a cycle is due exactly when price times charged time over the cycle is at least half a micro. */
  lemma DueIff(versions: seq<Version>, through: int, s: Slot)
    requires s.version < |versions| && versions[s.version].price <= MAX_INT64
    ensures var v := versions[s.version];
            Due(versions, through, s) <==>
              && v.valid && v.price > 0 && v.cycle > 0 && s.day <= through
              && 2 * (v.price * TimeOf(v, s.day)) >= v.cycle * 86_400_000_000_000
  {
    var v := versions[s.version];
    if Chargeable(v) {
      EntryIsNearest(v, s.day);
      AmountIsBounded(v, s.day);
      var cycle := v.cycle * DAY;
      if Expected(v, s.day).Some? {
        SignOf(Expected(v, s.day).value - 1, cycle);
        Distribute(1, Expected(v, s.day).value, cycle);
      }
    }
  }

  /** How long a version is in force and not expired on a day. */
  function TimeOf(v: Version, d: int): int {
    var until, before := LifeUntil(v, d + 1), LifeUntil(v, d);
    until - before
  }

  /** Catching up in one run or in many, with edits in between, gives the same entries: what a run
      leaves through a day it accrued is exactly what one accrual of the final versions would. */
  lemma ManyRunsEqualOne(books: seq<Book>, events: seq<Event>, n: nat, through: int, once: map<Slot, int>)
    requires History(books, events) && 0 < n <= |events|
    requires events[n - 1].AccrueEvent? && events[n - 1].through == through
    requires IsAccrued(books[n].versions, map[], through, once)
    ensures forall s :: s in once <==> s in books[n].entries && s.day <= through
    ensures forall s :: s in once ==> once[s] == books[n].entries[s]
  {
    EveryBookOk(books, events, n);
    var b := books[n];
    assert Steps(books[n - 1], events[n - 1], b);
    forall s ensures s in once <==> s in b.entries && s.day <= through {
      if s in b.entries { assert EntryOk(b.versions, b.entries, s); }
    }
    forall s | s in once ensures once[s] == b.entries[s] { assert EntryOk(b.versions, b.entries, s); }
  }

  /******* What the days add up to *******/

  function TotalLength(v: Version, first: int, n: nat): int {
    if n == 0 then 0 else TotalLength(v, first, n - 1) + Length(v, first + n - 1)
  }

  function TotalAmount(v: Version, first: int, n: nat): int
    requires v.cycle > 0
  {
    if n == 0 then 0 else TotalAmount(v, first, n - 1) + Amount(v, first + n - 1)
  }

  /** The life of a version up to the start of a day: until then, its end or its expiry, whichever is first. */
  function LifeUntil(v: Version, day: int): int {
    var start := DayStart(day);
    var closed := if v.to.Some? && v.to.value < start then v.to.value else start;
    var end := if v.expired.Some? && v.expired.value < closed then v.expired.value else closed;
    if end <= v.from then 0 else end - v.from
  }

  /** The daily slices tile the life of the version, from its start up to its end, its expiry, or the
      last accrued day, whichever comes first. */
  lemma {:induction false} SlicesTile(v: Version, n: nat)
    ensures TotalLength(v, DayOf(v.from), n) == if n == 0 then 0 else LifeUntil(v, DayOf(v.from) + n)
  {
    DayHolds(v.from);
    if n > 0 { SlicesTile(v, n - 1); }
  }

  lemma AmountIsNear(v: Version, d: int)
    requires v.cycle > 0
    ensures 2 * Abs(Amount(v, d) * (v.cycle * DAY) - v.price * Length(v, d)) <= v.cycle * DAY
  {
    RoundIsNearest(v.price * Length(v, d), v.cycle * DAY);
  }

  /** So the accrued sum is within half a micro per day of price times time over cycle. */
  lemma {:induction false} AccruedSumIsNear(v: Version, first: int, n: nat)
    requires v.cycle > 0
    ensures var cycle := v.cycle * DAY;
            2 * Abs(TotalAmount(v, first, n) * cycle - v.price * TotalLength(v, first, n)) <= n * cycle
  {
    var cycle := v.cycle * DAY;
    if n > 0 {
      AccruedSumIsNear(v, first, n - 1);
      AmountIsNear(v, first + n - 1);
      SumProducts(TotalAmount(v, first, n - 1), Amount(v, first + n - 1), cycle);
      SumProducts(TotalLength(v, first, n - 1), Length(v, first + n - 1), v.price);
      SumProducts(n - 1, 1, cycle);
    }
  }

  lemma SumProducts(a: int, b: int, k: int)
    ensures (a + b) * k == a * k + b * k && k * (a + b) == k * a + k * b
  {
  }

  /** And over a whole life: from the first day on, within half a micro per day of what the price asks
      for the time the version was in force. */
  lemma AccruedLifeIsNear(v: Version, n: nat)
    requires v.cycle > 0 && n > 0
    ensures var first, cycle := DayOf(v.from), v.cycle * DAY;
            2 * Abs(TotalAmount(v, first, n) * cycle - v.price * LifeUntil(v, first + n)) <= n * cycle
  {
    SlicesTile(v, n);
    AccruedSumIsNear(v, DayOf(v.from), n);
  }

  /** What is stored for consecutive days of a version. */
  function StoredTotal(entries: map<Slot, int>, i: nat, first: int, n: nat): int {
    if n == 0 then 0 else
    var s := Slot(i, first + n - 1);
    StoredTotal(entries, i, first, n - 1) + (if s in entries then entries[s] else 0)
  }

  lemma {:induction false} StoredIsAmount(versions: seq<Version>, entries: map<Slot, int>, i: nat, first: int, n: nat,
                                          through: int)
    requires i < |versions| && Chargeable(versions[i]) && EntriesOk(versions, entries)
    requires forall s :: Due(versions, through, s) ==> s in entries
    requires first + n - 1 <= through
    ensures StoredTotal(entries, i, first, n) == TotalAmount(versions[i], first, n)
  {
    if n > 0 {
      StoredIsAmount(versions, entries, i, first, n - 1, through);
      StoredDay(versions, entries, Slot(i, first + n - 1), through);
    }
  }

  lemma StoredDay(versions: seq<Version>, entries: map<Slot, int>, s: Slot, through: int)
    requires s.version < |versions| && Chargeable(versions[s.version]) && EntriesOk(versions, entries)
    requires (Due(versions, through, s) ==> s in entries) && s.day <= through
    ensures (if s in entries then entries[s] else 0) == Amount(versions[s.version], s.day)
  {
    if s in entries {
      assert EntryOk(versions, entries, s);
    } else {
      assert !Due(versions, through, s);
      RoundIsNearest(0, versions[s.version].cycle * DAY);
    }
  }

  /** In every run, right after an accrual, the entries stored for a version add up to within half a
      micro per day of price times the time it has been in force over its cycle. */
  lemma StoredEntriesAreNear(books: seq<Book>, events: seq<Event>, n: nat, i: nat, days: nat)
    requires History(books, events) && 0 < n <= |events| && events[n - 1].AccrueEvent?
    requires i < |books[n].versions| && Chargeable(books[n].versions[i]) && days > 0
    requires DayOf(books[n].versions[i].from) + days - 1 <= events[n - 1].through
    ensures var v := books[n].versions[i]; var cycle := v.cycle * DAY;
            var stored := StoredTotal(books[n].entries, i, DayOf(v.from), days);
            2 * Abs(stored * cycle - v.price * LifeUntil(v, DayOf(v.from) + days)) <= days * cycle
  {
    EveryBookOk(books, events, n);
    assert Steps(books[n - 1], events[n - 1], books[n]);
    var v := books[n].versions[i];
    StoredIsAmount(books[n].versions, books[n].entries, i, DayOf(v.from), days, events[n - 1].through);
    AccruedLifeIsNear(v, days);
  }
}
