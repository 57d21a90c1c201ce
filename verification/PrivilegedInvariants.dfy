/** What every run of the privileged-delivery transactions keeps. */
module PrivilegedInvariants {
  import opened Common
  import opened PrivilegedDelivery

  /** A row is well formed on its own and against the state row. */
  predicate RowOk(s: NodeState, k: nat, row: Revision) {
    && 1 <= k <= s.desired && row.target.number == k
    && row.target.hash == SettingsDigest(row.target.settings)
    && (Pending(row.status) ==> k == s.desired)
    && (row.supersededAt.Some? <==> row.status.Superseded?)
    && (row.status.Superseded? ==> k < s.desired)
    && (!row.status.NeedsConfirmation? && !row.status.Superseded? ==> s.version == 2 && row.approval.Some?)
    && (row.status.NeedsManualAuthorization? ==> row.approval.value.authorization.actions != [])
  }

  predicate RowsOk(s: NodeState, rows: map<nat, Revision>) {
    forall k :: k in rows ==> RowOk(s, k, rows[k])
  }

  predicate Claimed(s: Status) {
    s.Applying? || s.Delivered? || s.Failed? || s.Superseded?
  }

  /** An operation belongs to exactly the approval it was claimed under. */
  predicate OpOk(s: NodeState, rows: map<nat, Revision>, op: Operation) {
    && s.version == 2
    && PREPARED <= op.phase <= 5
    && op.claim.revision in rows
    && var row := rows[op.claim.revision];
    && Claimed(row.status)
    && row.approval.Some?
    && row.approval.value.generation == op.claim.generation
    && row.approval.value.authorization == op.claim.authorization
  }

  predicate OpsOk(s: NodeState, rows: map<nat, Revision>, ops: map<string, Operation>) {
    forall id :: id in ops ==> OpOk(s, rows, ops[id])
  }

  /** No revision ever has two host operations. */
  predicate OneOperationPerRevision(ops: map<string, Operation>) {
    forall a, b :: a in ops && b in ops && ops[a].claim.revision == ops[b].claim.revision ==> a == b
  }

  /** The revision was delivered under an approval that lists host actions. */
  predicate DeliveredWithActions(row: Revision) {
    row.status.Delivered? && row.approval.Some? && row.approval.value.authorization.actions != []
  }

  predicate Backs(op: Operation, k: nat, target: bool) {
    op.claim.revision == k && (op.phase == LOCAL_APPLIED || (!target && op.phase == RESTORED))
  }

  predicate HasBacking(ops: map<string, Operation>, k: nat, target: bool) {
    exists id :: id in ops && Backs(ops[id], k, target)
  }

  /** A delivered revision that needed host actions has its operation locally applied, unless it
      stopped being the target and the host later restored the old profile. */
  predicate DeliveredBacked(s: NodeState, rows: map<nat, Revision>, ops: map<string, Operation>) {
    forall k :: k in rows && DeliveredWithActions(rows[k]) ==> HasBacking(ops, k, k == s.desired)
  }

  /** The applied number names a delivered or failed row, and the stored observation is of that row. */
  predicate AppliedOk(s: NodeState, rows: map<nat, Revision>) {
    && s.applied <= s.desired
    && (s.observation.Some? <==> s.applied != 0)
    && (s.applied != 0 ==> s.applied in rows && AppliedRowOk(s, rows[s.applied]))
  }

  predicate AppliedRowOk(s: NodeState, row: Revision) {
    && (row.status.Delivered? || row.status.Failed?)
    && s.observation.Some?
    && s.observation.value.revision == s.applied
    && s.observation.value.capabilities.Some?
    && EffectiveMatches(s.observation.value.capabilities.value, row.target.settings)
  }

  predicate StateInv(s: NodeState, rows: map<nat, Revision>, ops: map<string, Operation>) {
    && s.version <= 2
    && (s.desired != 0 ==> s.desired in rows)
    && RowsOk(s, rows)
    && OpsOk(s, rows, ops)
    && OneOperationPerRevision(ops)
    && DeliveredBacked(s, rows, ops)
    && AppliedOk(s, rows)
  }

  predicate Inv(t: Tables) {
    match t.state
    case None => t.rows == map[] && t.ops == map[] && t.receipts == map[] && t.baseline.None?
    case Some(s) => StateInv(s, t.rows, t.ops)
  }

  /******* What one transaction may do to what is already there *******/

  predicate RowEvolves(a: Revision, b: Revision) {
    && a.target == b.target
    && Generation(a) <= Generation(b)
    && (a.status.Failed? ==> b.status.Failed?)
    && (a.status.Superseded? ==> b.status.Superseded?)
    && (a.status.Delivered? ==> b.status.Delivered? || b.status.Failed?)
  }

  predicate RowsEvolve(a: map<nat, Revision>, b: map<nat, Revision>) {
    forall k :: k in a ==> k in b && RowEvolves(a[k], b[k])
  }

  predicate OpEvolves(a: Operation, b: Operation) {
    a.claim == b.claim && a.phase <= b.phase && (a.phase >= 4 ==> a == b)
  }

  predicate OpsEvolve(a: map<string, Operation>, b: map<string, Operation>) {
    forall id :: id in a ==> id in b && OpEvolves(a[id], b[id])
  }

  predicate StateEvolves(a: NodeState, b: NodeState) {
    && a.desired <= b.desired && a.applied <= b.applied && a.sequence <= b.sequence && a.version <= b.version
    && (a.service != "" ==> a.service == b.service)
  }

  predicate ReceiptsKept(a: map<string, Payload>, b: map<string, Payload>) {
    forall r :: r in a ==> r in b && a[r] == b[r]
  }

  predicate Evolves(a: Tables, b: Tables) {
    && (a.state.Some? ==> b.state.Some? && StateEvolves(a.state.value, b.state.value))
    && RowsEvolve(a.rows, b.rows)
    && OpsEvolve(a.ops, b.ops)
    && ReceiptsKept(a.receipts, b.receipts)
  }

  lemma EvolvesTransitive(a: Tables, b: Tables, c: Tables)
    requires Evolves(a, b) && Evolves(b, c)
    ensures Evolves(a, c)
  {
  }

  /******* Replacing one row *******/

  /** The state row may move on as long as nothing the rows depend on goes backwards. */
  predicate SameTarget(s: NodeState, s': NodeState) {
    s'.desired == s.desired && s'.version == s.version
  }

  lemma ReplaceRow(s: NodeState, s': NodeState, rows: map<nat, Revision>, row: Revision)
    requires RowsOk(s, rows) && SameTarget(s, s') && RowOk(s, row.target.number, row)
    ensures RowsOk(s', rows[row.target.number := row])
  {
    forall k | k in rows ensures RowOk(s', k, rows[k]) { assert RowOk(s, k, rows[k]); }
  }

  lemma ReplaceUnclaimedRow(s: NodeState, s': NodeState, rows: map<nat, Revision>, ops: map<string, Operation>,
                            row: Revision)
    requires OpsOk(s, rows, ops) && SameTarget(s, s')
    requires row.target.number in rows && !Claimed(rows[row.target.number].status)
    ensures OpsOk(s', rows[row.target.number := row], ops)
    ensures forall id :: id in ops ==> ops[id].claim.revision != row.target.number
  {
    forall id | id in ops
      ensures ops[id].claim.revision != row.target.number && OpOk(s', rows[row.target.number := row], ops[id])
    {
      assert OpOk(s, rows, ops[id]);
    }
  }

  lemma ReplaceClaimedRow(s: NodeState, s': NodeState, rows: map<nat, Revision>, ops: map<string, Operation>,
                          row: Revision)
    requires OpsOk(s, rows, ops) && SameTarget(s, s')
    requires row.target.number in rows && row.approval == rows[row.target.number].approval && Claimed(row.status)
    ensures OpsOk(s', rows[row.target.number := row], ops)
  {
    forall id | id in ops ensures OpOk(s', rows[row.target.number := row], ops[id]) {
      assert OpOk(s, rows, ops[id]);
    }
  }

  lemma ReplaceBacked(s: NodeState, s': NodeState, rows: map<nat, Revision>, ops: map<string, Operation>, row: Revision)
    requires DeliveredBacked(s, rows, ops) && SameTarget(s, s')
    requires DeliveredWithActions(row) ==> HasBacking(ops, row.target.number, row.target.number == s.desired)
    ensures DeliveredBacked(s', rows[row.target.number := row], ops)
  {
  }

  lemma ReplaceApplied(s: NodeState, s': NodeState, rows: map<nat, Revision>, row: Revision)
    requires AppliedOk(s, rows) && SameTarget(s, s') && s'.applied == s.applied && s'.observation == s.observation
    requires row.target.number in rows && RowEvolves(rows[row.target.number], row)
    ensures AppliedOk(s', rows[row.target.number := row])
  {
  }

  lemma ReplaceEvolves(rows: map<nat, Revision>, row: Revision)
    requires row.target.number in rows ==> RowEvolves(rows[row.target.number], row)
    ensures RowsEvolve(rows, rows[row.target.number := row])
  {
  }

  /** Advance on a row that no operation has claimed yet. */
  lemma AdvanceUnclaimed(t: Tables, s: NodeState, row: Revision)
    requires StateInv(s, t.rows, t.ops)
    requires row.target.number in t.rows && !Claimed(t.rows[row.target.number].status)
    requires RowOk(s, row.target.number, row) && !row.status.Delivered?
    requires RowEvolves(t.rows[row.target.number], row)
    ensures var u := Advance(t, s, row);
            StateInv(u.state.value, u.rows, u.ops) && RowsEvolve(t.rows, u.rows)
    ensures forall id :: id in t.ops ==> t.ops[id].claim.revision != row.target.number
  {
    var u := Advance(t, s, row);
    var s', row' := u.state.value, row.(sequence := s.sequence + 1);
    assert u.rows == t.rows[row'.target.number := row'];
    assert RowOk(s, row'.target.number, row');
    ReplaceRow(s, s', t.rows, row');
    ReplaceUnclaimedRow(s, s', t.rows, t.ops, row');
    ReplaceBacked(s, s', t.rows, t.ops, row');
    ReplaceApplied(s, s', t.rows, row');
    ReplaceEvolves(t.rows, row');
  }

  /** Advance on a row that keeps its approval: a stamp, a failure or a delivery. */
  lemma AdvanceClaimed(t: Tables, s: NodeState, row: Revision)
    requires StateInv(s, t.rows, t.ops)
    requires row.target.number in t.rows && row.approval == t.rows[row.target.number].approval
    requires RowOk(s, row.target.number, row)
    requires Claimed(row.status)
    requires DeliveredWithActions(row) ==> HasBacking(t.ops, row.target.number, row.target.number == s.desired)
    requires RowEvolves(t.rows[row.target.number], row)
    ensures var u := Advance(t, s, row);
            StateInv(u.state.value, u.rows, u.ops) && RowsEvolve(t.rows, u.rows)
  {
    var u := Advance(t, s, row);
    var s', row' := u.state.value, row.(sequence := s.sequence + 1);
    assert u.rows == t.rows[row'.target.number := row'];
    assert RowOk(s, row'.target.number, row');
    ReplaceRow(s, s', t.rows, row');
    ReplaceClaimedRow(s, s', t.rows, t.ops, row');
    ReplaceBacked(s, s', t.rows, t.ops, row');
    ReplaceApplied(s, s', t.rows, row');
    ReplaceEvolves(t.rows, row');
  }

  /******* Every transaction keeps the invariant *******/

  /** Creating the state row on first use keeps the invariant. */
  lemma LockKeeps(t: Tables)
    requires Inv(t) && LockState(t).Some?
    ensures var l := Locked(t, LockState(t).value); Inv(l) && Evolves(t, l)
  {
    Unchanged(t);
  }

  lemma Unchanged(t: Tables)
    ensures Evolves(t, t)
  {
  }

  /** A commit that replaces the state row and the rows, and perhaps stores a receipt. */
  lemma Commit(t: Tables, u: Tables, s': NodeState, rows': map<nat, Revision>)
    requires t.state.Some? && u.state == Some(s') && u.rows == rows' && u.ops == t.ops
    requires StateInv(s', rows', t.ops) && StateEvolves(t.state.value, s') && RowsEvolve(t.rows, rows')
    requires ReceiptsKept(t.receipts, u.receipts)
    ensures Inv(u) && Evolves(t, u)
  {
    Unchanged(t);
  }

  lemma SupersedeRows(s: NodeState, s': NodeState, rows: map<nat, Revision>, now: int, q: nat)
    requires RowsOk(s, rows) && s'.desired == s.desired + 1 && s'.version == s.version
    ensures RowsOk(s', SupersedeAll(rows, now, q)) && RowsEvolve(rows, SupersedeAll(rows, now, q))
  {
    forall k | k in rows
      ensures RowOk(s', k, Supersede(rows[k], now, q)) && RowEvolves(rows[k], Supersede(rows[k], now, q))
    {
      assert RowOk(s, k, rows[k]);
    }
  }

  lemma SupersedeOps(s: NodeState, s': NodeState, rows: map<nat, Revision>, ops: map<string, Operation>, now: int,
                     q: nat)
    requires OpsOk(s, rows, ops) && s'.version == s.version
    ensures OpsOk(s', SupersedeAll(rows, now, q), ops)
  {
    forall id | id in ops ensures OpOk(s', SupersedeAll(rows, now, q), ops[id]) { assert OpOk(s, rows, ops[id]); }
  }

  lemma SupersedeBacked(s: NodeState, s': NodeState, rows: map<nat, Revision>, ops: map<string, Operation>, now: int,
                        q: nat)
    requires RowsOk(s, rows) && DeliveredBacked(s, rows, ops) && s'.desired == s.desired + 1
    ensures DeliveredBacked(s', SupersedeAll(rows, now, q), ops)
  {
    var rows' := SupersedeAll(rows, now, q);
    forall k | k in rows' && DeliveredWithActions(rows'[k]) ensures HasBacking(ops, k, k == s'.desired) {
      assert RowOk(s, k, rows[k]) && rows'[k] == rows[k];
      var id :| id in ops && Backs(ops[id], k, k == s.desired);
      assert Backs(ops[id], k, false);
    }
  }

  lemma SaveKeeps(t: Tables, now: int, settings: Settings, expected: nat, profileMode: int)
    requires t.state.Some? && Inv(t)
    ensures var u := Save(t, now, settings, expected, profileMode).tables; Inv(u) && Evolves(t, u)
  {
    Unchanged(t);
    if Save(t, now, settings, expected, profileMode).ok {
      var s := t.state.value;
      var installed := InstalledMode(s, profileMode);
      SaveCommits(t, NewRevision(s, ResolvedSettings(settings, installed), installed), now);
    }
  }

  lemma SaveCommits(t: Tables, row: Revision, now: int)
    requires t.state.Some? && Inv(t) && t.state.value.desired + 1 !in t.rows
    requires row.status.NeedsConfirmation? && row.supersededAt.None?
    requires row.target.number == t.state.value.desired + 1 && row.target.hash == SettingsDigest(row.target.settings)
    ensures Inv(Saved(t, row, now)) && Evolves(t, Saved(t, row, now))
  {
    var s := t.state.value;
    SavedKeeps(s, t.rows, t.ops, row, now);
    Commit(t, Saved(t, row, now), s.(desired := s.desired + 1, sequence := s.sequence + 1),
           SupersedeAll(t.rows, now, s.sequence + 1)[s.desired + 1 := row]);
  }

  /** Superseding what was pending and adding the new target, in one commit. */
  lemma SavedKeeps(s: NodeState, rows: map<nat, Revision>, ops: map<string, Operation>, row: Revision, now: int)
    requires StateInv(s, rows, ops) && s.desired + 1 !in rows
    requires row.status.NeedsConfirmation? && row.supersededAt.None?
    requires row.target.number == s.desired + 1 && row.target.hash == SettingsDigest(row.target.settings)
    ensures var rows' := SupersedeAll(rows, now, s.sequence + 1)[s.desired + 1 := row];
            && StateInv(s.(desired := s.desired + 1, sequence := s.sequence + 1), rows', ops)
            && RowsEvolve(rows, rows')
  {
    var s' := s.(desired := s.desired + 1, sequence := s.sequence + 1);
    var q := s.sequence + 1;
    SupersedeRows(s, s', rows, now, q);
    SupersedeOps(s, s', rows, ops, now, q);
    SupersedeBacked(s, s', rows, ops, now, q);
    SavedRow(s', SupersedeAll(rows, now, q), ops, row);
    SupersedeApplied(s, s', rows, row, now, q);
  }

  lemma SupersedeApplied(s: NodeState, s': NodeState, rows: map<nat, Revision>, row: Revision, now: int, q: nat)
    requires AppliedOk(s, rows) && s'.desired == s.desired + 1
    requires s'.applied == s.applied && s'.observation == s.observation
    ensures AppliedOk(s', SupersedeAll(rows, now, q)[s'.desired := row])
  {
  }

  /** Adding the row of the new target. */
  lemma SavedRow(s: NodeState, rows: map<nat, Revision>, ops: map<string, Operation>, row: Revision)
    requires RowsOk(s, rows) && OpsOk(s, rows, ops) && DeliveredBacked(s, rows, ops)
    requires s.desired !in rows && row.status.NeedsConfirmation? && RowOk(s, s.desired, row)
    ensures var rows' := rows[s.desired := row];
            RowsOk(s, rows') && OpsOk(s, rows', ops) && DeliveredBacked(s, rows', ops) && RowsEvolve(rows, rows')
  {
    var rows' := rows[s.desired := row];
    forall id | id in ops ensures OpOk(s, rows', ops[id]) { assert OpOk(s, rows, ops[id]); }
  }

  lemma ConfirmKeeps(t: Tables, now: int, number: nat, user: string, nonce: string)
    requires t.state.Some? && Inv(t)
    ensures var u := Confirm(t, now, number, user, nonce).tables; Inv(u) && Evolves(t, u)
  {
    Unchanged(t);
    var s := t.state.value;
    if Confirm(t, now, number, user, nonce).ok && !StillConfirmed(t.rows[number], now) {
      assert RowOk(s, number, t.rows[number]);
      AdvanceUnclaimed(t, s, ConfirmedRow(s, t.rows[number], now, user, nonce));
    }
  }

  lemma ReportKeeps(t: Tables, now: int, number: nat, event: Status)
    requires t.state.Some? && Inv(t)
    ensures var u := Report(t, now, number, event).tables; Inv(u) && Evolves(t, u)
  {
    Unchanged(t);
    if Report(t, now, number, event).ok && t.rows[number].receivedAt.None? {
      var s, row := t.state.value, t.rows[number];
      assert RowOk(s, number, row);
      var stamped := row.(receivedAt := Some(now));
      if Claimed(row.status) { AdvanceClaimed(t, s, stamped); } else { AdvanceUnclaimed(t, s, stamped); }
    }
  }

  lemma PrepareKeeps(t: Tables, now: int, id: string, number: nat, generation: nat, hash: Digest, nonce: string)
    requires t.state.Some? && Inv(t)
    ensures var u := Prepare(t, now, id, number, generation, hash, nonce).tables; Inv(u) && Evolves(t, u)
  {
    Unchanged(t);
    if Prepare(t, now, id, number, generation, hash, nonce).ok && id !in t.ops {
      ClaimKeeps(t, t.state.value, now, id, number);
    }
  }

  /** Claiming an approval: the row had no operation, and now has exactly this one. */
  lemma ClaimKeeps(t: Tables, s: NodeState, now: int, id: string, number: nat)
    requires StateInv(s, t.rows, t.ops) && id !in t.ops
    requires number in t.rows && Current(s, t.rows[number]) && MayClaim(s, t.rows[number], now)
    ensures var op := NewOperation(s, t.rows[number], now);
            var u := Advance(t.(ops := t.ops[id := op]), s, ClaimedRow(t.rows[number], now));
            StateInv(u.state.value, u.rows, u.ops) && RowsEvolve(t.rows, u.rows) && OpsEvolve(t.ops, u.ops)
  {
    var row := t.rows[number];
    assert RowOk(s, number, row);
    AdvanceUnclaimed(t, s, ClaimedRow(row, now));
    var m := Advance(t, s, ClaimedRow(row, now));
    AddOperation(m.state.value, m.rows, m.ops, id, NewOperation(s, row, now));
  }

  lemma AddOperation(s: NodeState, rows: map<nat, Revision>, ops: map<string, Operation>, id: string, op: Operation)
    requires OpsOk(s, rows, ops) && OneOperationPerRevision(ops) && DeliveredBacked(s, rows, ops)
    requires id !in ops && OpOk(s, rows, op)
    requires forall x :: x in ops ==> ops[x].claim.revision != op.claim.revision
    ensures var ops' := ops[id := op];
            && OpsOk(s, rows, ops') && OneOperationPerRevision(ops') && DeliveredBacked(s, rows, ops')
            && OpsEvolve(ops, ops')
  {
    var ops' := ops[id := op];
    forall k | k in rows && DeliveredWithActions(rows[k]) ensures HasBacking(ops', k, k == s.desired) {
      var x :| x in ops && Backs(ops[x], k, k == s.desired);
      assert x in ops' && ops'[x] == ops[x];
    }
  }

  /** A report moves the phase of one operation and nothing else about it. */
  lemma ReportOps(s: NodeState, rows: map<nat, Revision>, ops: map<string, Operation>, id: string, op: Operation)
    requires OpsOk(s, rows, ops) && OneOperationPerRevision(ops)
    requires id in ops && op.claim == ops[id].claim && OpEvolves(ops[id], op) && op.phase <= 5
    ensures var ops' := ops[id := op]; OpsOk(s, rows, ops') && OneOperationPerRevision(ops') && OpsEvolve(ops, ops')
  {
    var ops' := ops[id := op];
    forall x | x in ops' ensures OpOk(s, rows, ops'[x]) { assert OpOk(s, rows, ops[x]) && OpOk(s, rows, ops[id]); }
  }

  lemma ReportBacked(s: NodeState, rows: map<nat, Revision>, ops: map<string, Operation>, id: string, op: Operation)
    requires DeliveredBacked(s, rows, ops) && id in ops && op.claim == ops[id].claim
    requires forall k :: k in rows && DeliveredWithActions(rows[k]) && k == op.claim.revision ==>
               op.phase == RESTORED && k != s.desired
    ensures DeliveredBacked(s, rows, ops[id := op])
  {
    var ops' := ops[id := op];
    forall k | k in rows && DeliveredWithActions(rows[k]) ensures HasBacking(ops', k, k == s.desired) {
      var x :| x in ops && Backs(ops[x], k, k == s.desired);
      assert x in ops' && Backs(ops'[x], k, k == s.desired);
    }
  }

  lemma HostReportKeeps(t: Tables, now: int, p: HostReportMessage)
    requires t.state.Some? && Inv(t)
    ensures var u := HostReport(t, now, p).tables; Inv(u) && Evolves(t, u)
  {
    Unchanged(t);
    if HostReport(t, now, p).ok && CheckReceipt(t, p.receipt, p) == Fresh {
      var s, op := t.state.value, t.ops[p.operation];
      if CurrentOperation(s, t.rows[op.claim.revision], op) {
        CurrentReportCommits(t, now, p);
      } else {
        StaleReportCommits(t, p);
      }
    }
  }

  lemma CurrentReportCommits(t: Tables, now: int, p: HostReportMessage)
    requires t.state.Some? && Inv(t) && p.receipt !in t.receipts
    requires p.operation in t.ops && t.ops[p.operation].claim.revision in t.rows
    requires LegalTransition(t.ops[p.operation], t.rows[t.ops[p.operation].claim.revision], p.phase)
    requires CurrentOperation(t.state.value, t.rows[t.ops[p.operation].claim.revision], t.ops[p.operation])
    ensures var row := t.rows[t.ops[p.operation].claim.revision];
            var u := Advance(RecordReport(t, p), t.state.value, if p.phase >= 4 then FailedRow(row, now) else row);
            Inv(u) && Evolves(t, u)
  {
    Unchanged(t);
    CurrentReportKeeps(t, t.state.value, now, p);
  }

  lemma StaleReportCommits(t: Tables, p: HostReportMessage)
    requires t.state.Some? && Inv(t) && p.receipt !in t.receipts
    requires p.operation in t.ops && t.ops[p.operation].claim.revision in t.rows
    requires LegalTransition(t.ops[p.operation], t.rows[t.ops[p.operation].claim.revision], p.phase)
    requires !CurrentOperation(t.state.value, t.rows[t.ops[p.operation].claim.revision], t.ops[p.operation])
    ensures Inv(RecordReport(t, p)) && Evolves(t, RecordReport(t, p))
  {
    Unchanged(t);
    StaleReportKeeps(t, t.state.value, p);
  }

  /** The report of an operation that is no longer current cannot be about the target's delivery. */
  lemma StaleReportKeeps(t: Tables, s: NodeState, p: HostReportMessage)
    requires StateInv(s, t.rows, t.ops) && p.operation in t.ops && t.ops[p.operation].claim.revision in t.rows
    requires LegalTransition(t.ops[p.operation], t.rows[t.ops[p.operation].claim.revision], p.phase)
    requires !CurrentOperation(s, t.rows[t.ops[p.operation].claim.revision], t.ops[p.operation])
    ensures var u := RecordReport(t, p);
            StateInv(s, u.rows, u.ops) && OpsEvolve(t.ops, u.ops)
  {
    var op := t.ops[p.operation];
    assert OpOk(s, t.rows, op) && RowOk(s, op.claim.revision, t.rows[op.claim.revision]);
    PhaseKeeps(s, t.rows, t.ops, p.operation, ReportedOperation(op, p));
  }

  /** A failure of the current operation fails the target's row in the same transaction. */
  lemma CurrentReportKeeps(t: Tables, s: NodeState, now: int, p: HostReportMessage)
    requires StateInv(s, t.rows, t.ops) && p.operation in t.ops && t.ops[p.operation].claim.revision in t.rows
    requires LegalTransition(t.ops[p.operation], t.rows[t.ops[p.operation].claim.revision], p.phase)
    requires CurrentOperation(s, t.rows[t.ops[p.operation].claim.revision], t.ops[p.operation])
    ensures var row := t.rows[t.ops[p.operation].claim.revision];
            var u := Advance(RecordReport(t, p), s, if p.phase >= 4 then FailedRow(row, now) else row);
            StateInv(u.state.value, u.rows, u.ops) && RowsEvolve(t.rows, u.rows) && OpsEvolve(t.ops, u.ops)
  {
    var op := t.ops[p.operation];
    var row := t.rows[op.claim.revision];
    assert OpOk(s, t.rows, op) && RowOk(s, op.claim.revision, row);
    var next := if p.phase >= 4 then FailedRow(row, now) else row;
    AdvanceClaimed(t, s, next);
    var m := Advance(t, s, next);
    PhaseKeeps(m.state.value, m.rows, m.ops, p.operation, ReportedOperation(op, p));
  }

  lemma PhaseKeeps(s: NodeState, rows: map<nat, Revision>, ops: map<string, Operation>, id: string, op: Operation)
    requires StateInv(s, rows, ops) && id in ops && op.claim == ops[id].claim && OpEvolves(ops[id], op) && op.phase <= 5
    requires op.claim.revision in rows && DeliveredWithActions(rows[op.claim.revision]) ==>
               op.phase == RESTORED && op.claim.revision != s.desired
    ensures StateInv(s, rows, ops[id := op]) && OpsEvolve(ops, ops[id := op])
  {
    ReportOps(s, rows, ops, id, op);
    ReportBacked(s, rows, ops, id, op);
  }

  lemma ObserveKeeps(t: Tables, now: int, key: string, o: Observation, readable: bool)
    requires t.state.Some? && Inv(t)
    ensures var u := Observe(t, now, key, o, readable).tables; Inv(u) && Evolves(t, u)
  {
    Unchanged(t);
    if Observe(t, now, key, o, readable).ok && CheckReceipt(t, key, ObservationPayload(o)) == Fresh {
      DeliverKeeps(t, now, key, o);
    }
  }

  lemma DeliverKeeps(t: Tables, now: int, key: string, o: Observation)
    requires t.state.Some? && Inv(t) && key !in t.receipts
    requires o.revision in t.rows && MayDeliver(t.ops, t.state.value, t.rows[o.revision], now, o)
    ensures Inv(Observed(t, now, key, o)) && Evolves(t, Observed(t, now, key, o))
  {
    var s := t.state.value;
    assert RowOk(s, o.revision, t.rows[o.revision]);
    DeliveredKeeps(s, t.rows, t.ops, now, o);
    Commit(t, Observed(t, now, key, o), ObservedState(s, o).(sequence := s.sequence + 1),
           t.rows[o.revision := DeliveredRow(t.rows[o.revision], now, o).(sequence := s.sequence + 1)]);
  }

  /** The target becomes both delivered and applied, and the observation of it replaces the old one. */
  lemma DeliveredKeeps(s: NodeState, rows: map<nat, Revision>, ops: map<string, Operation>, now: int, o: Observation)
    requires StateInv(s, rows, ops) && o.revision in rows && MayDeliver(ops, s, rows[o.revision], now, o)
    ensures var row' := DeliveredRow(rows[o.revision], now, o).(sequence := s.sequence + 1);
            && StateInv(ObservedState(s, o).(sequence := s.sequence + 1), rows[o.revision := row'], ops)
            && RowsEvolve(rows, rows[o.revision := row'])
  {
    var s' := ObservedState(s, o).(sequence := s.sequence + 1);
    var row' := DeliveredRow(rows[o.revision], now, o).(sequence := s.sequence + 1);
    assert RowOk(s, o.revision, rows[o.revision]);
    if DeliveredWithActions(row') { assert Backs(ops[o.operation], o.revision, true); }
    ReplaceRow(s, s', rows, row');
    ReplaceClaimedRow(s, s', rows, ops, row');
    ReplaceBacked(s, s', rows, ops, row');
    ReplaceEvolves(rows, row');
    assert AppliedOk(s', rows[o.revision := row']);
  }

  lemma FailApplyKeeps(t: Tables, now: int, number: nat, key: string, hash: Digest, generation: nat, detail: string)
    requires t.state.Some? && Inv(t)
    ensures var u := FailApply(t, now, number, key, hash, generation, detail).tables; Inv(u) && Evolves(t, u)
  {
    Unchanged(t);
    if FailApply(t, now, number, key, hash, generation, detail).ok
       && CheckReceipt(t, key, FailurePayload(number, key, hash, generation, detail)) == Fresh {
      FailKeeps(t, now, number, key, FailurePayload(number, key, hash, generation, detail));
    }
  }

  lemma FailKeeps(t: Tables, now: int, number: nat, key: string, payload: Payload)
    requires t.state.Some? && Inv(t) && key !in t.receipts
    requires number in t.rows && Current(t.state.value, t.rows[number]) && Pending(t.rows[number].status)
    ensures var u := Advance(t.(receipts := t.receipts[key := payload]), t.state.value, FailedRow(t.rows[number], now));
            Inv(u) && Evolves(t, u)
  {
    Unchanged(t);
    var s := t.state.value;
    assert RowOk(s, number, t.rows[number]);
    AdvanceClaimed(t.(receipts := t.receipts[key := payload]), s, FailedRow(t.rows[number], now));
  }

  lemma NegotiateKeeps(t: Tables, service: string, startup: string, mode: int, actions: seq<int>)
    requires t.state.Some? && Inv(t)
    ensures var u := Negotiate(t, service, startup, mode, actions).tables; Inv(u) && Evolves(t, u)
  {
    Unchanged(t);
    var r := Negotiate(t, service, startup, mode, actions);
    if r.ok { NegotiatedKeeps(t.state.value, r.tables.state.value, t.rows, t.ops); }
  }

  lemma NegotiatedKeeps(s: NodeState, s': NodeState, rows: map<nat, Revision>, ops: map<string, Operation>)
    requires StateInv(s, rows, ops)
    requires s'.version == 2 && s'.desired == s.desired && s'.applied == s.applied && s'.observation == s.observation
    ensures StateInv(s', rows, ops)
  {
    forall k | k in rows ensures RowOk(s', k, rows[k]) { assert RowOk(s, k, rows[k]); }
    forall id | id in ops ensures OpOk(s', rows, ops[id]) { assert OpOk(s, rows, ops[id]); }
  }

  lemma LockedReadKeeps(t: Tables, now: int)
    requires t.state.Some? && Inv(t)
    ensures var u := LockedRead(t, now).tables; Inv(u) && Evolves(t, u)
  {
    Unchanged(t);
    var s := t.state.value;
    if LockedRead(t, now).ok && s.desired != 0 && ApprovalLapsed(t.rows[s.desired], now) {
      assert RowOk(s, s.desired, t.rows[s.desired]);
      AdvanceUnclaimed(t, s, t.rows[s.desired].(status := Expired));
    }
  }

  lemma NoRowsNoOperations(s: NodeState, rows: map<nat, Revision>, ops: map<string, Operation>)
    requires rows == map[] && OpsOk(s, rows, ops)
    ensures ops == map[]
  {
    assert forall id :: id in ops ==> ops[id].claim.revision in rows;
  }

  lemma BaselineKeeps(t: Tables, now: int, r: BaselineRequest, profile: Profile)
    requires t.state.Some? && Inv(t)
    ensures var u := InitializeBaseline(t, now, r, profile).tables; Inv(u) && Evolves(t, u)
  {
    Unchanged(t);
    if t.rows == map[] { NoRowsNoOperations(t.state.value, t.rows, t.ops); }
  }

  lemma OutsideKeeps(t: Tables, e: Event)
    requires Inv(t) && IsOutside(e)
    ensures Inv(Outside(t, e)) && Evolves(t, Outside(t, e))
  {
    Unchanged(t);
  }

  lemma BodyKeeps(t: Tables, e: Event)
    requires t.state.Some? && Inv(t)
    ensures Inv(Body(t, e).tables) && Evolves(t, Body(t, e).tables)
  {
    match e
    case ClientRow(_, _) => OutsideKeeps(t, e);
    case ProfileEvent(_) => OutsideKeeps(t, e);
    case SaveEvent(now, settings, expected, profileMode) => SaveKeeps(t, now, settings, expected, profileMode);
    case ConfirmEvent(now, number, user, nonce) => ConfirmKeeps(t, now, number, user, nonce);
    case ReportEvent(now, number, status) => ReportKeeps(t, now, number, status);
    case PrepareEvent(now, id, number, generation, hash, nonce) =>
      PrepareKeeps(t, now, id, number, generation, hash, nonce);
    case HostReportEvent(now, report) => HostReportKeeps(t, now, report);
    case ObserveEvent(now, key, o, readable) => ObserveKeeps(t, now, key, o, readable);
    case FailEvent(now, number, key, hash, generation, detail) =>
      FailApplyKeeps(t, now, number, key, hash, generation, detail);
    case NegotiateEvent(service, startup, mode, actions) => NegotiateKeeps(t, service, startup, mode, actions);
    case ReadEvent(now) => LockedReadKeeps(t, now);
    case BaselineEvent(now, r, profile) => BaselineKeeps(t, now, r, profile);
  }

  /** Every transaction keeps the invariant and only lets records evolve. */
  lemma ApplyKeeps(t: Tables, e: Event)
    requires Inv(t)
    ensures Inv(Apply(t, e)) && Evolves(t, Apply(t, e))
  {
    Unchanged(t);
    if IsOutside(e) {
      OutsideKeeps(t, e);
    } else if LockState(t).Some? {
      var u := CommitKeeps(t, e);
    }
  }

  lemma CommitKeeps(t: Tables, e: Event) returns (u: Tables)
    requires Inv(t) && !IsOutside(e) && LockState(t).Some?
    ensures u == Body(Locked(t, LockState(t).value), e).tables && Inv(u) && Evolves(t, u)
  {
    var l := Locked(t, LockState(t).value);
    u := Body(l, e).tables;
    LockKeeps(t);
    BodyKeeps(l, e);
    EvolvesTransitive(t, l, u);
  }

  /******* Theorems over whole runs *******/

  /** From an empty history every reachable state satisfies the invariant. */
  lemma {:induction false} EveryRunIsSafe(client: bool, events: seq<Event>)
    ensures Inv(Run(EmptyTables(client), events))
  {
    if events != [] {
      EveryRunIsSafe(client, events[..|events| - 1]);
      ApplyKeeps(Run(EmptyTables(client), events[..|events| - 1]), events[|events| - 1]);
    }
  }

  /** Between any two points of a run nothing recorded is lost, rewritten or revived. */
  lemma {:induction false} EveryRunEvolves(client: bool, events: seq<Event>, i: nat)
    requires i <= |events|
    ensures Evolves(Run(EmptyTables(client), events[..i]), Run(EmptyTables(client), events))
  {
    if i == |events| {
      assert events[..i] == events;
    } else {
      var front := events[..|events| - 1];
      assert front[..i] == events[..i];
      EveryRunEvolves(client, front, i);
      EveryRunIsSafe(client, front);
      ApplyKeeps(Run(EmptyTables(client), front), events[|events| - 1]);
      EvolvesTransitive(Run(EmptyTables(client), events[..i]), Run(EmptyTables(client), front),
                        Run(EmptyTables(client), events));
    }
  }

  predicate IsDelivered(t: Tables, k: nat) {
    k in t.rows && t.rows[k].status.Delivered?
  }

  predicate AgentEvent(e: Event) {
    e.PrepareEvent? || e.HostReportEvent? || e.FailEvent? || e.ReportEvent?
  }

  lemma ArrivalNeverDelivers(t: Tables, e: Event, k: nat)
    requires t.state.Some? && Inv(t) && e.ReportEvent? && !IsDelivered(t, k)
    ensures !IsDelivered(Body(t, e).tables, k)
  {
    RowNumber(t, e.number);
  }

  lemma ClaimNeverDelivers(t: Tables, e: Event, k: nat)
    requires t.state.Some? && Inv(t) && e.PrepareEvent? && !IsDelivered(t, k)
    ensures !IsDelivered(Body(t, e).tables, k)
  {
    RowNumber(t, e.number);
  }

  lemma FailureNeverDelivers(t: Tables, e: Event, k: nat)
    requires t.state.Some? && Inv(t) && e.FailEvent? && !IsDelivered(t, k)
    ensures !IsDelivered(Body(t, e).tables, k)
  {
    RowNumber(t, e.number);
  }

  lemma HostReportNeverDelivers(t: Tables, e: Event, k: nat)
    requires t.state.Some? && Inv(t) && e.HostReportEvent? && !IsDelivered(t, k)
    ensures !IsDelivered(Body(t, e).tables, k)
  {
    if e.report.operation in t.ops {
      RowNumber(t, t.ops[e.report.operation].claim.revision);
    }
  }

  lemma SavingNeverDelivers(t: Tables, e: Event, k: nat)
    requires t.state.Some? && Inv(t) && (e.SaveEvent? || e.ConfirmEvent?) && !IsDelivered(t, k)
    ensures !IsDelivered(Body(t, e).tables, k)
  {
  }

  lemma OthersNeverDeliver(t: Tables, e: Event, k: nat)
    requires t.state.Some? && Inv(t) && !AgentEvent(e) && !e.ObserveEvent? && !e.SaveEvent? && !e.ConfirmEvent?
    requires !IsDelivered(t, k)
    ensures !IsDelivered(Body(t, e).tables, k)
  {
  }

  lemma RowNumber(t: Tables, k: nat)
    requires t.state.Some? && Inv(t)
    ensures k in t.rows ==> t.rows[k].target.number == k
  {
    assert k in t.rows ==> RowOk(t.state.value, k, t.rows[k]);
  }

  /** The only way into Delivered is an observation of the target, and when the approval lists
      actions, that observation names the operation of this approval at the locally-applied phase. */
  lemma DeliveryNeedsCompletedOperation(t: Tables, e: Event, k: nat)
    requires Inv(t) && !IsDelivered(t, k) && IsDelivered(Apply(t, e), k)
    ensures e.ObserveEvent? && t.state.Some? && e.observation.revision == k == t.state.value.desired
    ensures k in t.rows && t.rows[k].approval.Some?
    ensures t.rows[k].approval.value.authorization.actions != [] ==>
              && OperationComplete(t.ops, t.rows[k], e.observation)
              && t.ops[e.observation.operation].claim.revision == k
              && t.ops[e.observation.operation].phase == LOCAL_APPLIED
  {
    var l := Locked(t, LockState(t).value);
    LockKeeps(t);
    if e.ObserveEvent? {
      RowNumber(l, e.observation.revision);
    } else if e.ReportEvent? {
      ArrivalNeverDelivers(l, e, k);
    } else if e.PrepareEvent? {
      ClaimNeverDelivers(l, e, k);
    } else if e.FailEvent? {
      FailureNeverDelivers(l, e, k);
    } else if e.HostReportEvent? {
      HostReportNeverDelivers(l, e, k);
    } else if e.SaveEvent? || e.ConfirmEvent? {
      SavingNeverDelivers(l, e, k);
    } else {
      OthersNeverDeliver(l, e, k);
    }
  }

  lemma AgentsKeepBaseline(t: Tables, e: Event)
    requires t.state.Some? && (AgentEvent(e) || e.ObserveEvent?)
    ensures Body(t, e).tables.baseline == t.baseline
  {
  }

  lemma PanelKeepsBaseline(t: Tables, e: Event)
    requires t.state.Some? && t.baseline.Some? && !AgentEvent(e) && !e.ObserveEvent? && !IsOutside(e)
    ensures Body(t, e).tables.baseline == t.baseline
  {
  }

  /** The installation baseline is written once and stays as it is until the client itself is deleted. */
  lemma BaselineWrittenOnce(t: Tables, e: Event)
    requires t.baseline.Some? && !(e.ClientRow? && !e.present)
    ensures Apply(t, e).baseline == t.baseline
  {
    if !IsOutside(e) && LockState(t).Some? {
      var l := Locked(t, LockState(t).value);
      if AgentEvent(e) || e.ObserveEvent? { AgentsKeepBaseline(l, e); } else { PanelKeepsBaseline(l, e); }
    }
  }

  predicate IsRepeat(t: Tables, e: Event) {
    match e
    case HostReportEvent(now, report) => report.receipt in t.receipts && t.receipts[report.receipt] == report
    case ObserveEvent(now, key, o, readable) => key in t.receipts && t.receipts[key] == ObservationPayload(o)
    case FailEvent(now, number, key, hash, generation, detail) =>
      key in t.receipts && t.receipts[key] == FailurePayload(number, key, hash, generation, detail)
    case _ => false
  }

  /** Presenting a stored receipt again, with the same content, changes nothing at all. */
  lemma RepeatedReceiptIsInert(t: Tables, e: Event)
    requires Inv(t) && IsRepeat(t, e)
    ensures Apply(t, e) == t
  {
    assert t.state.Some?;
  }

  /******* What a capability check may answer *******/

  datatype Feature = Remote | WebSSH | Execution | Rescue | Unknown

  predicate Grants(s: Settings, f: Feature) {
    match f
    case Remote => s.remote
    case WebSSH => s.remote && s.webssh
    case Execution => s.remote && s.execution
    case Rescue => s.rescue
    case Unknown => false
  }

  predicate Effective(c: Capabilities, f: Feature) {
    match f
    case Remote => c.remote
    case WebSSH => c.webssh
    case Execution => c.execution
    case Rescue => c.rescue
    case Unknown => false
  }

  predicate RowAllows(t: Tables, k: nat, f: Feature) {
    k in t.rows && t.rows[k].status != Failed && Grants(t.rows[k].target.settings, f)
  }

  /** PrivilegedCapabilityAllowedWithDB on a node that negotiated protocol 2. */
  predicate CapabilityAllowed(t: Tables, f: Feature) {
    && t.state.Some? && t.state.value.version == 2
    && t.state.value.applied != 0
    && RowAllows(t, t.state.value.applied, f)
    && RowAllows(t, t.state.value.desired, f)
  }

  /** The daemon saw the capability effective in its observation of the applied revision, and both that
      revision and the target are live grants. */
  predicate SeenEffective(t: Tables, f: Feature) {
    && t.state.Some?
    && var s := t.state.value;
    && s.observation.Some? && s.observation.value.revision == s.applied && s.observation.value.capabilities.Some?
    && Effective(s.observation.value.capabilities.value, f)
    && s.applied in t.rows && t.rows[s.applied].status == Delivered
    && s.desired in t.rows && !t.rows[s.desired].status.Failed? && !t.rows[s.desired].status.Superseded?
    && Grants(t.rows[s.desired].target.settings, f)
  }

  lemma AllowedIsSeen(t: Tables, f: Feature)
    requires Inv(t) && CapabilityAllowed(t, f)
    ensures SeenEffective(t, f)
  {
    var s := t.state.value;
    assert RowOk(s, s.applied, t.rows[s.applied]) && RowOk(s, s.desired, t.rows[s.desired]);
  }

  /** In every reachable state an allowed capability was seen effective by the daemon. */
  lemma AllowedOnlyWhenObserved(client: bool, events: seq<Event>, f: Feature)
    requires CapabilityAllowed(Run(EmptyTables(client), events), f)
    ensures SeenEffective(Run(EmptyTables(client), events), f)
  {
    EveryRunIsSafe(client, events);
    AllowedIsSeen(Run(EmptyTables(client), events), f);
  }
}
