/** GetStateWithDB: a reader without locks, bracketed by the update sequence.

    Its separate queries may each see a different committed state of a history of transactions.
    Whatever it returns from the bracketed path is what the locked reader returns on one of them: a
    state in which that reader writes nothing, and of which there is only one snapshot to show. */
module PrivilegedReader {
  import opened Common
  import opened PrivilegedDelivery
  import opened PrivilegedInvariants
  import opened PrivilegedStore

  /******* Committed histories *******/

  ghost predicate Follows(t: Tables, u: Tables) {
    exists e :: u == Apply(t, e)
  }

  ghost predicate History(hist: seq<Tables>) {
    && |hist| > 0 && hist[0] == EmptyTables(hist[0].client)
    && forall i :: 0 < i < |hist| ==> Follows(hist[i - 1], hist[i])
  }

  /** What a reader can tell apart: the state row, the rows, and the operations of the target. */
  ghost predicate SameView(t: Tables, u: Tables) {
    && t.state.Some? && u.state == t.state && u.rows == t.rows
    && forall id :: ForRevision(t.ops, t.state.value.desired, id) || ForRevision(u.ops, t.state.value.desired, id) ==>
         id in t.ops && id in u.ops && t.ops[id] == u.ops[id]
  }

  /** Either the sequence moved on, or no reader can tell the two states apart. */
  ghost predicate Bracketable(t: Tables, u: Tables) {
    t.state.Some? ==> u.state.Some? && (u.state.value.sequence > t.state.value.sequence || SameView(t, u))
  }

  lemma ClaimBracketable(t: Tables, e: Event)
    requires t.state.Some? && e.PrepareEvent?
    ensures Bracketable(t, Body(t, e).tables)
  {
  }

  lemma ReceiptBracketable(t: Tables, e: Event)
    requires t.state.Some? && (e.ObserveEvent? || e.FailEvent?)
    ensures Bracketable(t, Body(t, e).tables)
  {
  }

  lemma PanelBracketable(t: Tables, e: Event)
    requires t.state.Some? && (e.SaveEvent? || e.ConfirmEvent? || e.ReportEvent?)
    ensures Bracketable(t, Body(t, e).tables)
  {
  }

  lemma SetupBracketable(t: Tables, e: Event)
    requires t.state.Some? && (IsOutside(e) || e.NegotiateEvent? || e.ReadEvent? || e.BaselineEvent?)
    ensures Bracketable(t, Body(t, e).tables)
  {
  }

  lemma StaleReportBracketable(t: Tables, p: HostReportMessage)
    requires Inv(t) && t.state.Some? && p.operation in t.ops
    requires t.ops[p.operation].claim.revision != t.state.value.desired
    ensures SameView(t, RecordReport(t, p))
  {
  }

  /** A host report changes nothing, or bumps the sequence, or is recorded on a stale operation. */
  lemma HostReportCases(t: Tables, now: int, p: HostReportMessage)
    requires t.state.Some?
    ensures var s, u := t.state.value, HostReport(t, now, p).tables;
            || u == t
            || (u.state.Some? && u.state.value.sequence > s.sequence)
            || (&& u == RecordReport(t, p) && p.operation in t.ops
                && var op := t.ops[p.operation];
                op.claim.revision in t.rows && !CurrentOperation(s, t.rows[op.claim.revision], op))
  {
  }

  /** The one transaction that edits an operation without a bump is the report of a stale one, and
      the operation of the target is never stale. */
  lemma HostReportBracketable(t: Tables, now: int, p: HostReportMessage)
    requires Inv(t) && t.state.Some?
    ensures Bracketable(t, HostReport(t, now, p).tables)
  {
    HostReportCases(t, now, p);
    if p.operation in t.ops {
      TargetOperationIsCurrent(t, p.operation);
      if t.ops[p.operation].claim.revision != t.state.value.desired { StaleReportBracketable(t, p); }
    }
  }

  lemma TargetOperationIsCurrent(t: Tables, id: string)
    requires Inv(t) && t.state.Some? && id in t.ops
    ensures var s, op := t.state.value, t.ops[id];
            && op.claim.revision in t.rows
            && var row := t.rows[op.claim.revision];
            op.claim.revision == s.desired ==> Current(s, row) && Generation(row) == op.claim.generation
  {
    var s, op := t.state.value, t.ops[id];
    assert OpOk(s, t.rows, op);
    assert RowOk(s, op.claim.revision, t.rows[op.claim.revision]);
  }

  lemma BodyBracketable(t: Tables, e: Event)
    requires Inv(t) && t.state.Some?
    ensures Bracketable(t, Body(t, e).tables)
  {
    if e.HostReportEvent? {
      HostReportBracketable(t, e.now, e.report);
    } else if e.PrepareEvent? {
      ClaimBracketable(t, e);
    } else if e.ObserveEvent? || e.FailEvent? {
      ReceiptBracketable(t, e);
    } else if e.SaveEvent? || e.ConfirmEvent? || e.ReportEvent? {
      PanelBracketable(t, e);
    } else {
      SetupBracketable(t, e);
    }
  }

  /** Every transaction either bumps the sequence or leaves the view alone. */
  lemma BumpOrSameView(t: Tables, e: Event)
    requires Inv(t)
    ensures Bracketable(t, Apply(t, e))
  {
    if t.state.Some? && IsOutside(e) {
      SetupBracketable(t, e);
    } else if t.state.Some? && t.client {
      assert Locked(t, LockState(t).value) == t;
      BodyBracketable(t, e);
    }
  }

  lemma StepFacts(t: Tables, u: Tables)
    requires Inv(t) && Follows(t, u)
    ensures Inv(u) && Bracketable(t, u) && RowsEvolve(t.rows, u.rows)
  {
    var e :| u == Apply(t, e);
    ApplyKeeps(t, e);
    BumpOrSameView(t, e);
    assert RowsEvolve(t.rows, u.rows);
  }

  lemma {:induction false} HistoryIsSafe(hist: seq<Tables>, i: nat)
    requires History(hist) && i < |hist|
    ensures Inv(hist[i])
  {
    if i > 0 {
      HistoryIsSafe(hist, i - 1);
      StepFacts(hist[i - 1], hist[i]);
    }
  }

  /** What the reader relies on between consecutive commits. */
  ghost predicate Link(t: Tables, u: Tables) {
    Bracketable(t, u) && RowsEvolve(t.rows, u.rows)
  }

  ghost predicate Chain(hist: seq<Tables>) {
    forall i, j :: 0 <= i && j == i + 1 < |hist| ==> Link(hist[i], hist[j])
  }

  lemma HistoryIsChain(hist: seq<Tables>)
    requires History(hist)
    ensures Chain(hist)
  {
    forall i, j | 0 <= i && j == i + 1 < |hist| ensures Link(hist[i], hist[j]) {
      HistoryIsSafe(hist, i);
      assert Follows(hist[j - 1], hist[j]);
      StepFacts(hist[i], hist[j]);
    }
  }

  lemma SameViewTransitive(t: Tables, u: Tables, v: Tables)
    requires SameView(t, u) && SameView(u, v)
    ensures SameView(t, v)
  {
    var d := t.state.value.desired;
    forall id | ForRevision(t.ops, d, id) || ForRevision(v.ops, d, id)
      ensures id in t.ops && id in v.ops && t.ops[id] == v.ops[id]
    {
      if ForRevision(t.ops, d, id) { assert ForRevision(u.ops, d, id); }
    }
  }

  /** The sequence never decreases, and while it stands still so does the view. */
  ghost predicate Bracketed(t: Tables, u: Tables) {
    && t.state.Some? && u.state.Some? && t.state.value.sequence <= u.state.value.sequence
    && (t.state.value.sequence == u.state.value.sequence ==> SameView(t, u))
  }

  lemma BracketedStep(t: Tables, u: Tables, v: Tables)
    requires Bracketed(t, u) && Bracketable(u, v)
    ensures Bracketed(t, v)
  {
    if t.state.value.sequence == v.state.value.sequence {
      SameViewTransitive(t, u, v);
    }
  }

  lemma {:induction false} SequenceBrackets(hist: seq<Tables>, i: nat, j: nat)
    requires Chain(hist) && i <= j < |hist| && hist[i].state.Some?
    ensures Bracketed(hist[i], hist[j])
  {
    if i < j {
      SequenceBrackets(hist, i, j - 1);
      assert Link(hist[j - 1], hist[j]);
      BracketedStep(hist[i], hist[j - 1], hist[j]);
    }
  }

  lemma {:induction false} RowsPersist(hist: seq<Tables>, i: nat, j: nat, k: nat)
    requires Chain(hist) && i <= j < |hist| && k in hist[i].rows
    ensures k in hist[j].rows && RowEvolves(hist[i].rows[k], hist[j].rows[k])
  {
    if i < j {
      RowsPersist(hist, i, j - 1, k);
      assert Link(hist[j - 1], hist[j]);
      assert RowEvolves(hist[j - 1].rows[k], hist[j].rows[k]);
    }
  }

  /******* The reader *******/

  datatype ReadResult =
    | Consistent(snapshot: Snapshot)
    | UseLockedReader
    | UnknownClient
    | Contended

  /** The committed state each query of one attempt sees: client, state, target, applied, operation, state. */
  ghost predicate Schedule(hist: seq<Tables>, at: seq<nat>) {
    && |at| == 6
    && forall i, j :: 0 <= i <= j < 6 ==> at[i] <= at[j] < |hist|
  }

  /** The locked reader would do more than read: there is no state row yet, or the approval of the revision that was
      the target when the state was read had lapsed, by one of the two clock readings, when its row was. */
  ghost predicate NeedsLock(hist: seq<Tables>, at: seq<nat>, now: int, later: int)
    requires Schedule(hist, at)
  {
    || hist[at[1]].state.None?
    || (var target := hist[at[1]].state.value.desired;
        && target != 0 && target in hist[at[2]].rows
        && (ApprovalLapsed(hist[at[2]].rows[target], now) || ApprovalLapsed(hist[at[2]].rows[target], later)))
  }

  /** The locked reader answers from these tables and writes nothing. */
  ghost predicate PlainRead(t: Tables, now: int) {
    t.state.Some? && LockedRead(t, now) == Step(t, true)
  }

  /** Whatever snapshot a reader shows of these tables is this one. */
  ghost predicate OnlyAnswer(t: Tables, snap: Snapshot) {
    forall other :: Shows(t, other) ==> other == snap
  }

  lemma OneAnswer(t: Tables, a: Snapshot, b: Snapshot)
    requires Inv(t) && Shows(t, a) && Shows(t, b)
    ensures a == b
  {
    assert OneOperationPerRevision(t.ops);
  }

  /** The locked reader of a state it does not write to answers what the snapshot says. */
  ghost predicate LockedAnswer(t: Tables, now: int, snap: Snapshot) {
    PlainRead(t, now) && Shows(t, snap) && OnlyAnswer(t, snap)
  }

  /** One pass of the bracketed path, with the clock read once for each of the two revisions. */
  method Attempt(hist: seq<Tables>, at: seq<nat>, now: int, later: int) returns (r: ReadResult)
    requires History(hist) && Schedule(hist, at)
    ensures r.Consistent? ==> LockedAnswer(hist[at[1]], now, r.snapshot)
    ensures r.UseLockedReader? ==> NeedsLock(hist, at, now, later)
    ensures r.UnknownClient? ==> !hist[at[0]].client
    ensures r.Contended? ==> hist[at[1]].state.Some? && hist[at[5]].state.Some?
                             && hist[at[1]].state.value.sequence < hist[at[5]].state.value.sequence
  {
    HistoryIsChain(hist);
    if !hist[at[0]].client { return UnknownClient; }
    var seen := hist[at[1]];
    HistoryIsSafe(hist, at[1]);
    if seen.state.None? { return UseLockedReader; }
    var s := seen.state.value;
    var desired, applied := None, None;
    if s.desired != 0 {
      RowsPersist(hist, at[1], at[2], s.desired);
      var row := hist[at[2]].rows[s.desired];
      if ApprovalLapsed(row, now) { return UseLockedReader; }
      desired := Some(row.(sequence := s.sequence));
    }
    if s.applied != 0 {
      if s.applied == s.desired {
        if ApprovalLapsed(hist[at[2]].rows[s.desired], later) { return UseLockedReader; }
        applied := desired;
      } else {
        RowsPersist(hist, at[1], at[3], s.applied);
        applied := Some(hist[at[3]].rows[s.applied]);
      }
    }
    HistoryIsSafe(hist, at[4]);
    SequenceBrackets(hist, at[1], at[4]);
    var operation := NewestFor(hist[at[4]].ops, s.desired);
    SequenceBrackets(hist, at[1], at[5]);
    var current := hist[at[5]].state.value;
    if current.sequence == s.sequence && current.desired == s.desired && current.applied == s.applied {
      var snap := Snapshot(s, desired, applied, operation);
      BracketIsStill(hist, at);
      BracketShows(hist, at, snap);
      assert PlainRead(seen, now);
      forall other | Shows(seen, other) ensures other == snap { OneAnswer(seen, other, snap); }
      return Consistent(snap);
    }
    return Contended;
  }

  /** All the queries of an attempt, laid out one attempt after another. */
  ghost predicate Passes(hist: seq<Tables>, at: seq<seq<nat>>) {
    && |at| == 3 && Schedule(hist, at[0]) && Schedule(hist, at[1]) && Schedule(hist, at[2])
    && at[0][5] <= at[1][0] && at[1][5] <= at[2][0]
  }

  /** The reader, over any history and any placement of its queries in it. A consistent answer is what
      the locked reader would have returned from one committed state, without writing; giving up
      means that three transactions moved the sequence during the read. */
  method GetState(hist: seq<Tables>, at: seq<seq<nat>>, clock: seq<int>) returns (r: ReadResult)
    requires History(hist) && Passes(hist, at) && |clock| == 6
    ensures r.Consistent? ==>
              exists a :: 0 <= a < 3 && LockedAnswer(hist[at[a][1]], clock[2 * a], r.snapshot)
    ensures r.UseLockedReader? ==>
              exists a :: 0 <= a < 3 && NeedsLock(hist, at[a], clock[2 * a], clock[2 * a + 1])
    ensures r.UnknownClient? ==> exists a :: 0 <= a < 3 && !hist[at[a][0]].client
    ensures r.Contended? ==>
              && hist[at[0][1]].state.Some? && hist[at[2][5]].state.Some?
              && hist[at[0][1]].state.value.sequence + 3 <= hist[at[2][5]].state.value.sequence
  {
    HistoryIsChain(hist);
    for attempt := 0 to 3
      invariant attempt > 0 ==> MovedBy(hist, at[0][1], at[attempt - 1][5], attempt)
    {
      r := Attempt(hist, at[attempt], clock[2 * attempt], clock[2 * attempt + 1]);
      WithinPasses(hist, at, attempt);
      match r {
        case Consistent(_) => return;
        case UseLockedReader => return;
        case UnknownClient => return;
        case Contended =>
          if attempt > 0 { SequenceBrackets(hist, at[attempt - 1][5], at[attempt][1]); }
      }
    }
    r := Contended;
  }

  lemma WithinPasses(hist: seq<Tables>, at: seq<seq<nat>>, a: nat)
    requires Passes(hist, at) && a < 3
    ensures at[0][0] <= at[a][0] <= at[a][1] <= at[a][2] <= at[a][5] <= at[2][5]
    ensures a > 0 ==> at[a - 1][5] <= at[a][1]
  {
  }

  ghost predicate MovedBy(hist: seq<Tables>, i: nat, j: nat, n: nat)
    requires i < |hist| && j < |hist|
  {
    hist[i].state.Some? && hist[j].state.Some? && hist[i].state.value.sequence + n <= hist[j].state.value.sequence
  }

  /** Between two equal readings of the sequence every state shows the same view. */
  lemma BracketIsStill(hist: seq<Tables>, at: seq<nat>)
    requires Chain(hist) && Schedule(hist, at) && hist[at[1]].state.Some?
    requires hist[at[5]].state.Some? && hist[at[5]].state.value.sequence == hist[at[1]].state.value.sequence
    ensures forall i :: 2 <= i <= 4 ==> SameView(hist[at[1]], hist[at[i]])
  {
    forall i | 2 <= i <= 4 ensures SameView(hist[at[1]], hist[at[i]]) {
      SequenceBrackets(hist, at[1], at[i]);
      SequenceBrackets(hist, at[i], at[5]);
    }
  }

  /** Reads from one view all belong to the state the first of them saw. */
  lemma BracketShows(hist: seq<Tables>, at: seq<nat>, snap: Snapshot)
    requires Schedule(hist, at) && hist[at[1]].state == Some(snap.state) && Inv(hist[at[1]])
    requires forall i :: 2 <= i <= 4 ==> SameView(hist[at[1]], hist[at[i]])
    requires snap.desired == View(hist[at[1]].rows, snap.state, snap.state.desired)
    requires snap.applied == View(hist[at[1]].rows, snap.state, snap.state.applied)
    requires NewestOperation(hist[at[4]].ops, snap.state.desired, snap.operation)
    ensures Shows(hist[at[1]], snap)
  {
    SameNewest(hist[at[1]], hist[at[4]], snap.operation);
  }

  lemma SameNewest(t: Tables, u: Tables, o: Option<Operation>)
    requires SameView(t, u) && NewestOperation(u.ops, t.state.value.desired, o)
    ensures NewestOperation(t.ops, t.state.value.desired, o)
  {
    var d := t.state.value.desired;
    assert forall x :: ForRevision(t.ops, d, x) <==> ForRevision(u.ops, d, x);
    if o.Some? {
      var id :| IsNewest(u.ops, d, id) && u.ops[id] == o.value;
      assert IsNewest(t.ops, d, id);
    }
  }

  /******* The capability check *******/

  /** A row that is no live grant later was either no grant before, or has failed since. */
  lemma GrantsStay(hist: seq<Tables>, i: nat, j: nat, k: nat, f: Feature)
    requires Chain(hist) && i <= j < |hist| && k in hist[i].rows && RowAllows(hist[j], k, f)
    ensures RowAllows(hist[i], k, f)
  {
    RowsPersist(hist, i, j, k);
  }

  /** PrivilegedCapabilityAllowedWithDB with its three separate queries: the state row, the applied revision
      and the desired revision, each seen in a committed state of its own. No bracket is needed: rows
      never change their settings and never leave Failed, so what it allows was allowed in the state
      that the first query saw. None stands for a node that has not negotiated protocol 2. */
  method CheckCapability(hist: seq<Tables>, at: seq<nat>, f: Feature) returns (allowed: Option<bool>)
    requires History(hist) && |at| == 3 && at[0] <= at[1] <= at[2] < |hist|
    ensures allowed.None? <==> hist[at[0]].state.None? || hist[at[0]].state.value.version != 2
    ensures allowed == Some(true) ==> CapabilityAllowed(hist[at[0]], f) && SeenEffective(hist[at[0]], f)
    ensures allowed == Some(false) && CapabilityAllowed(hist[at[0]], f) ==>
              var s := hist[at[0]].state.value;
              || (s.applied in hist[at[1]].rows && hist[at[1]].rows[s.applied].status.Failed?)
              || (s.desired in hist[at[2]].rows && hist[at[2]].rows[s.desired].status.Failed?)
  {
    HistoryIsChain(hist);
    HistoryIsSafe(hist, at[0]);
    var seen := hist[at[0]];
    if seen.state.None? || seen.state.value.version != 2 { return None; }
    var s := seen.state.value;
    if s.applied == 0 { return Some(false); }
    RowsPersist(hist, at[0], at[1], s.applied);
    var applied := AllowsRow(hist[at[1]].rows[s.applied], f);
    if !applied { return Some(false); }
    RowsPersist(hist, at[0], at[2], s.desired);
    var desired := AllowsRow(hist[at[2]].rows[s.desired], f);
    if desired {
      GrantsStay(hist, at[0], at[1], s.applied, f);
      GrantsStay(hist, at[0], at[2], s.desired, f);
      AllowedIsSeen(seen, f);
    }
    return Some(desired);
  }

  method AllowsRow(row: Revision, f: Feature) returns (allows: bool)
    ensures allows <==> row.status != Failed && Grants(row.target.settings, f)
  {
    if row.status.Failed? { return false; }
    var settings := row.target.settings;
    match f {
      case Remote => return settings.remote;
      case WebSSH => return settings.remote && settings.webssh;
      case Execution => return settings.remote && settings.execution;
      case Rescue => return settings.rescue;
      case Unknown => return false;
    }
  }
}
