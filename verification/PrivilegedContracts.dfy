/** What each transaction of privileged delivery answers and leaves, in the terms of its caller. Every lemma
    says exactly when the transaction commits and what every table then holds; a refusal always leaves every
    table as it was. */
module PrivilegedContracts {
  import opened Common
  import opened PrivilegedDelivery
  import opened PrivilegedInvariants

  /** A refused transaction changes nothing, not even the state row it created. */
  lemma RefusalChangesNothing(t: Tables, e: Event)
    ensures !Transact(t, e).ok ==> Transact(t, e).tables == t
    ensures !t.client && !IsOutside(e) ==> !Transact(t, e).ok
  {
  }

  /** The state row that a first transaction works on: what is desired is the largest number stored. */
  ghost predicate FreshState(rows: map<nat, Revision>, s: NodeState) {
    && (rows == map[] ==> s.desired == 0)
    && (rows != map[] ==> s.desired in rows && forall k :: k in rows ==> k <= s.desired)
    && s.applied == 0 && s.sequence == 0 && s.version == 1 && s.service == "" && s.startup == ""
    && s.supported.None? && s.mode == 0 && s.observation.None?
  }

  /** Without a state row a transaction does what it would do over a fresh one. */
  lemma FirstUse(t: Tables, e: Event) returns (s: NodeState)
    requires t.client && t.state.None? && !IsOutside(e)
    ensures FreshState(t.rows, s)
    ensures var r := Transact(t.(state := Some(s)), e);
            Transact(t, e).ok == r.ok && (r.ok ==> Transact(t, e).tables == r.tables)
  {
    s := LockState(t).value;
    assert Locked(t, s) == t.(state := Some(s)) == Locked(t.(state := Some(s)), s);
  }

  /** Every row is stored under its own number, as in every run. */
  ghost predicate Numbered(t: Tables) { forall k :: k in t.rows ==> t.rows[k].target.number == k }

  lemma RowsAreNumbered(t: Tables)
    requires Inv(t) && t.state.Some?
    ensures Numbered(t)
  {
    forall k | k in t.rows ensures t.rows[k].target.number == k { RowNumber(t, k); }
  }

  /******* Saving *******/

  /** What was asked for, with the privilege mode that stands for "keep the current one" resolved. */
  ghost predicate Resolves(s: NodeState, asked: Settings, profileMode: int, settings: Settings) {
    && settings.remote == asked.remote && settings.webssh == asked.webssh && settings.execution == asked.execution
    && settings.gpu == asked.gpu && settings.rescue == asked.rescue
    && settings.mode == (if asked.mode != 0 then asked.mode
                         else if s.version == 2 && s.mode != 0 then s.mode
                         else profileMode)
  }

  /** The row is still waiting for somebody. */
  predicate Open(s: Status) {
    s in {NeedsConfirmation, NeedsManualAuthorization, AwaitingAgent, Applying, Expired}
  }

  /** An open row loses its nonce and is superseded by the save; any other row stays as it is. */
  ghost predicate SupersededBy(a: Revision, b: Revision, now: int, sequence: nat) {
    if Open(a.status) then
      && b.status == Superseded && b.supersededAt == Some(now) && b.sequence == sequence
      && (b.approval.Some? <==> a.approval.Some?)
      && (a.approval.Some? ==> b.approval.value == a.approval.value.(nonce := ""))
      && b.target == a.target && b.receivedAt == a.receivedAt && b.audit == a.audit
    else b == a
  }

  /** The row of a save: unconfirmed, as asked for, over what was applied and installed before. */
  ghost predicate SavedRevision(s: NodeState, asked: Settings, profileMode: int, row: Revision) {
    var installed := if s.version == 2 && s.mode != 0 then s.mode else profileMode;
    && row.target.number == s.desired + 1 && Resolves(s, asked, profileMode, row.target.settings)
    && row.target.hash == SettingsDigest(row.target.settings) && !row.target.baseline
    && row.target.previous == s.applied
    && row.target.fromMode == installed && row.target.toMode == row.target.settings.mode
    && row.status == NeedsConfirmation && row.approval.None? && row.supersededAt.None? && row.receivedAt.None?
    && (row.audit.upgradeClass == ManualPrivileged <==> row.target.toMode != installed || asked.rescue)
    && row.audit.finishedAt.None? && row.audit.activeMode == 0
    && row.sequence == s.sequence + 1
  }

  /** A save commits exactly for the caller who saw the desired revision and asked for something coherent. */
  lemma SaveCommitsIff(t: Tables, now: int, asked: Settings, expected: nat, profileMode: int)
    requires Inv(t) && t.client && t.state.Some?
    ensures var s := t.state.value;
            Transact(t, SaveEvent(now, asked, expected, profileMode)).ok <==>
              && expected == s.desired
              && (asked.webssh ==> asked.remote) && (asked.execution ==> asked.remote)
              && 0 <= asked.mode <= 5
              && (asked.mode != 0 || (s.version == 2 && s.mode != 0) || profileMode != 0)
  {
    NextIsFree(t);
  }

  lemma NextIsFree(t: Tables)
    requires Inv(t) && t.state.Some?
    ensures t.state.value.desired + 1 !in t.rows
  {
    var s := t.state.value;
    forall k | k in t.rows ensures k <= s.desired { assert RowOk(s, k, t.rows[k]); }
  }

  /** The new target is what was asked for, and everything that was still open is superseded. */
  lemma SaveLeaves(t: Tables, now: int, asked: Settings, expected: nat, profileMode: int)
    requires t.client && t.state.Some? && Transact(t, SaveEvent(now, asked, expected, profileMode)).ok
    ensures var s, u := t.state.value, Apply(t, SaveEvent(now, asked, expected, profileMode));
            && u == t.(state := u.state, rows := u.rows)
            && u.state == Some(s.(desired := expected + 1, sequence := s.sequence + 1))
            && u.rows.Keys == t.rows.Keys + {expected + 1} && expected + 1 !in t.rows
            && SavedRevision(s, asked, profileMode, u.rows[expected + 1])
            && forall k :: k in t.rows ==> SupersededBy(t.rows[k], u.rows[k], now, s.sequence + 1)
  {
  }

  /******* One row at a time *******/

  /** Exactly one row changed, and it and the node carry the next sequence number. */
  ghost predicate RowStep(t: Tables, u: Tables, k: nat, s': NodeState, row: Revision)
    requires t.state.Some?
  {
    var q := t.state.value.sequence + 1;
    && u.state == Some(s'.(sequence := q)) && u.client == t.client
    && u.rows.Keys == t.rows.Keys + {k} && u.rows[k] == row.(sequence := q)
    && forall j :: j in t.rows && j != k ==> u.rows[j] == t.rows[j]
  }

  /** The host actions that lead from what is there to the target. */
  ghost predicate LeadsTo(s: NodeState, target: Target, actions: seq<int>) {
    var installed := s.observation.Some? && s.observation.value.helperInstalled;
    && (forall a :: a in actions <==>
                      || (a == 1 && target.toMode != s.mode)
                      || (a == 2 && target.settings.rescue && !installed)
                      || (a == 3 && !target.settings.rescue && installed))
    && forall i, j :: 0 <= i < j < |actions| ==> actions[i] < actions[j]
  }

  predicate Knows(s: NodeState, actions: seq<int>) {
    forall a :: a in actions ==> s.supported.Some? && a in s.supported.value
  }

  lemma KnowsWhatIsSupported(s: NodeState, actions: seq<int>)
    ensures Knows(s, actions) <==> SupportsActions(s, actions)
  {
    if s.supported.None? && actions != [] {
      var first := actions[0];
      assert first in actions;
    }
  }

  /** The approval binds the target, the host actions and the service to a fresh nonce for half an hour. */
  ghost predicate Approves(s: NodeState, row: Revision, now: int, user: string, nonce: string, a: Approval) {
    && a.generation == (if row.approval.Some? then row.approval.value.generation + 1 else 1)
    && a.at == now && a.approver == user && a.nonce == nonce && a.usedAt.None?
    && a.expires == Some(now + 1800)
    && a.authorization.revision == row.target.number && a.authorization.hash == row.target.hash
    && a.authorization.generation == a.generation && a.authorization.service == s.service
    && a.authorization.mode == row.target.toMode && a.authorization.nonce == nonce
    && LeadsTo(s, row.target, a.authorization.actions)
  }

  /** The row already carries what this confirmation would give it. */
  predicate LiveApproval(row: Revision, now: int) {
    || row.status == Delivered
    || (row.status in {NeedsManualAuthorization, AwaitingAgent, Applying} && row.approval.Some?
        && row.approval.value.expires.Some? && now < row.approval.value.expires.value)
  }

  lemma SameActions(s: NodeState, a: seq<int>, b: seq<int>)
    requires forall x :: x in a <==> x in b
    ensures Knows(s, a) <==> Knows(s, b)
  {
  }

  /** A confirmation commits exactly for a named user and the live target, when it is delivered or still
      approved, or else can be approved anew and the host supports the actions that takes. */
  lemma ConfirmCommitsIff(t: Tables, now: int, number: nat, user: string, nonce: string, actions: seq<int>)
    requires Numbered(t) && t.client && t.state.Some?
    requires number in t.rows ==> LeadsTo(t.state.value, t.rows[number].target, actions)
    ensures var s := t.state.value;
            Transact(t, ConfirmEvent(now, number, user, nonce)).ok <==>
              && number in t.rows && s.desired == number && t.rows[number].supersededAt.None? && !Blank(user)
              && (|| LiveApproval(t.rows[number], now)
                  || (&& t.rows[number].status in {NeedsConfirmation, Expired, NeedsManualAuthorization, AwaitingAgent}
                      && s.version == 2 && s.service != "" && Knows(s, actions)))
  {
    if number in t.rows {
      var required := RequiredActions(t.state.value, t.rows[number]);
      SameActions(t.state.value, required, actions);
      KnowsWhatIsSupported(t.state.value, required);
    }
  }

  /** A still valid approval is left alone; otherwise the row is approved anew, for the agent alone when no
      host action is needed and for an administrator on the host when one is. */
  lemma ConfirmLeaves(t: Tables, now: int, number: nat, user: string, nonce: string)
    requires Numbered(t) && t.client && t.state.Some? && Transact(t, ConfirmEvent(now, number, user, nonce)).ok
    ensures var u := Apply(t, ConfirmEvent(now, number, user, nonce));
            if LiveApproval(t.rows[number], now) then u == t
            else u == t.(state := u.state, rows := u.rows) && Confirmed(t, u, now, number, user, nonce)
  {
  }

  ghost predicate Confirmed(t: Tables, u: Tables, now: int, number: nat, user: string, nonce: string)
    requires t.state.Some? && number in t.rows
  {
    && number in u.rows && u.rows[number].approval.Some?
    && var row, a := t.rows[number], u.rows[number].approval;
    && Approves(t.state.value, row, now, user, nonce, a.value)
    && var automatic := a.value.authorization.actions == [];
    && var upgrade := if automatic then ManualConfirm else ManualPrivileged;
    RowStep(t, u, number, t.state.value,
            row.(status := if automatic then AwaitingAgent else NeedsManualAuthorization,
                 audit := row.audit.(upgradeClass := upgrade), approval := a))
  }

  /** The legacy receipt stamps the arrival of a live row once. */
  lemma ArrivalAnswers(t: Tables, now: int, number: nat, event: Status)
    requires Numbered(t) && t.client && t.state.Some?
    ensures var s, r := t.state.value, Transact(t, ReportEvent(now, number, event));
            && (r.ok <==> number in t.rows && event in {NeedsConfirmation, NeedsManualAuthorization}
                          && t.rows[number].status != Superseded)
            && (r.ok && t.rows[number].receivedAt.Some? ==> r.tables == t)
            && (r.ok && t.rows[number].receivedAt.None? ==>
                  && r.tables == t.(state := r.tables.state, rows := r.tables.rows)
                  && RowStep(t, r.tables, number, s, t.rows[number].(receivedAt := Some(now))))
  {
  }

  /******* Host operations *******/

  /** The row is the live, approved target of a node that negotiated protocol 2. */
  predicate IsTarget(s: NodeState, row: Revision) {
    && s.version == 2 && row.target.number == s.desired && row.status != Superseded && row.supersededAt.None?
    && row.approval.Some?
  }

  /** The claim runs for ten minutes, and never longer than the approval. */
  ghost predicate Claims(s: NodeState, row: Revision, now: int, op: Operation) {
    && row.approval.Some? && row.approval.value.expires.Some?
    && var expires := row.approval.value.expires.value;
    && op.claim.revision == row.target.number && op.claim.generation == row.approval.value.generation
    && op.claim.authorization == row.approval.value.authorization
    && op.claim.priorStartup == s.startup && op.claim.createdAt == now
    && (op.claim.lease == now + 600 || op.claim.lease == expires)
    && op.claim.lease <= now + 600 && op.claim.lease <= expires
    && op.phase == 1 && op.error == "" && op.localAuthentication == "" && op.operator == ""
  }

  /** The approval can be claimed: in time, not yet used, for the negotiated service, with supported actions. */
  predicate Claimable(s: NodeState, row: Revision, now: int)
    requires row.approval.Some?
  {
    var a := row.approval.value;
    && row.status == NeedsManualAuthorization && a.usedAt.None? && a.expires.Some? && now < a.expires.value
    && Knows(s, a.authorization.actions) && a.authorization.service == s.service
  }

  /** A claim is answered exactly to the holder of the nonce of the live target, for the operation that claimed
      it before, or when it can be claimed now. */
  lemma ClaimCommitsIff(t: Tables, now: int, id: string, number: nat, generation: nat, hash: Digest, nonce: string)
    requires t.client && t.state.Some?
    ensures var s := t.state.value;
            Transact(t, PrepareEvent(now, id, number, generation, hash, nonce)).ok <==>
              && !Blank(id) && |id| <= 128
              && number in t.rows && IsTarget(s, t.rows[number])
              && var a := t.rows[number].approval.value;
              && generation == a.generation && hash == t.rows[number].target.hash && nonce == a.nonce && nonce != ""
              && (if id in t.ops
                  then t.ops[id].claim.revision == number && t.ops[id].claim.generation == generation
                  else Claimable(s, t.rows[number], now))
  {
    if number in t.rows && t.rows[number].approval.Some? {
      KnowsWhatIsSupported(t.state.value, t.rows[number].approval.value.authorization.actions);
    }
  }

  /** Asking again changes nothing; a new claim uses the approval up and records one operation of it. */
  lemma ClaimLeaves(t: Tables, now: int, id: string, number: nat, generation: nat, hash: Digest, nonce: string)
    requires Numbered(t) && t.client && t.state.Some?
    requires Transact(t, PrepareEvent(now, id, number, generation, hash, nonce)).ok
    ensures var s, u := t.state.value, Apply(t, PrepareEvent(now, id, number, generation, hash, nonce));
            if id in t.ops then u == t
            else var row := t.rows[number];
                 && u == t.(state := u.state, rows := u.rows, ops := u.ops)
                 && u.ops.Keys == t.ops.Keys + {id} && (forall x :: x in t.ops ==> u.ops[x] == t.ops[x])
                 && Claims(s, row, now, u.ops[id])
                 && RowStep(t, u, number, s,
                            row.(status := Applying, approval := Some(row.approval.value.(usedAt := Some(now)))))
  {
  }

  /** A receipt is new, or names what it named before. */
  predicate Fits(t: Tables, key: string, payload: Payload) {
    !Blank(key) && |key| <= 128 && (key in t.receipts ==> t.receipts[key] == payload)
  }

  /** Every legal step of a host operation: forward only, done at success except for a restoration, failures
      final, success only in the lease with local authentication, and nothing on a failed row but more failure. */
  predicate LegalReport(t: Tables, now: int, p: HostReportMessage)
    requires t.state.Some? && p.operation in t.ops && t.ops[p.operation].claim.revision in t.rows
  {
    var op, row := t.ops[p.operation], t.rows[t.ops[p.operation].claim.revision];
    && p.phase in {2, 3, 4, 5} && op.phase <= p.phase && op.phase < 4 && (op.phase == 3 ==> p.phase >= 4)
    && (row.status == Delivered ==> p.phase == 5)
    && (row.status == Failed ==> p.phase >= 4)
    && (p.phase <= 3 ==>
          && IsTarget(t.state.value, row) && row.approval.value.generation == op.claim.generation
          && now < op.claim.lease)
    && (p.phase == 3 ==> !Blank(p.operator) && !Blank(p.localAuthentication))
  }

  /** A report of a host operation is recorded exactly when it is legal. */
  lemma HostReportCommitsIff(t: Tables, now: int, p: HostReportMessage)
    requires t.client && t.state.Some?
    ensures Transact(t, HostReportEvent(now, p)).ok <==>
              && |p.error| <= 4096 && |p.operator| <= 128 && |p.localAuthentication| <= 64
              && p.operation in t.ops && Fits(t, p.receipt, p)
              && (|| p.receipt in t.receipts
                  || (t.ops[p.operation].claim.revision in t.rows && LegalReport(t, now, p)))
  {
  }

  /** The report is written into its operation. It fails the row only while the operation is the target's; a
      stale one touches nothing but its own record. */
  lemma HostReportLeaves(t: Tables, now: int, p: HostReportMessage)
    requires Numbered(t) && t.client && t.state.Some? && Transact(t, HostReportEvent(now, p)).ok
    ensures var s, u, op := t.state.value, Apply(t, HostReportEvent(now, p)), t.ops[p.operation];
            if p.receipt in t.receipts then u == t
            else && u == t.(state := u.state, rows := u.rows, ops := u.ops, receipts := u.receipts)
                 && u.receipts == t.receipts[p.receipt := p]
                 && u.ops == t.ops[p.operation :=
                                     Operation(op.claim, p.phase, p.error, p.localAuthentication, p.operator)]
                 && var row := t.rows[op.claim.revision];
                 if IsTarget(s, row) && row.approval.value.generation == op.claim.generation
                 then RowStep(t, u, op.claim.revision, s,
                              if p.phase < 4 then row
                              else row.(status := Failed, audit := row.audit.(finishedAt := Some(now))))
                 else u.state == t.state && u.rows == t.rows
  {
    HostReportCommitsIff(t, now, p);
  }

  /******* Observation and failure *******/

  /** The daemon shows exactly what the settings allow: remote and its children, no graphics the settings
      forbid, and the helper installed, authorized, running and leased exactly when it is allowed. */
  predicate ShowsSettings(o: Observation, x: Settings) {
    && o.capabilities.Some?
    && var c := o.capabilities.value;
    && c.mode == o.mode && c.remote == x.remote
    && (c.webssh <==> x.remote && x.webssh) && (c.execution <==> x.remote && x.execution)
    && (c.gpu || c.detailedGpu ==> x.gpu) && c.rescue == x.rescue
    && (x.rescue ==> o.helperAuthorized && o.helperInstalled && o.helperRunning && o.helperLeaseReady)
    && (!x.rescue ==> !o.helperAuthorized && !o.helperInstalled && !o.helperRunning && !o.helperLeaseReady)
  }

  /** The observation is of this approval of the target, timely, and complete. */
  predicate Acceptable(t: Tables, now: int, o: Observation)
    requires t.state.Some? && o.revision in t.rows
  {
    var s, row := t.state.value, t.rows[o.revision];
    && IsTarget(s, row) && row.status in {Applying, AwaitingAgent, Delivered}
    && var a := row.approval.value;
    && o.hash == row.target.hash && o.generation == a.generation && o.service == s.service
    && o.mode == row.target.toMode && ShowsSettings(o, row.target.settings)
    && o.observedAt.Some? && a.at <= o.observedAt.value <= now + 300
    && (s.observation.Some? && s.observation.value.observedAt.Some? ==>
          s.observation.value.observedAt.value <= o.observedAt.value)
    && (a.authorization.actions == [] ==> row.target.baseline || (a.expires.Some? && now < a.expires.value))
    && (a.authorization.actions != [] ==>
          && o.operation in t.ops
          && var op := t.ops[o.operation];
          && op.claim.revision == o.revision && op.claim.generation == a.generation && op.phase == 3
          && (1 in a.authorization.actions ==> o.startup != op.claim.priorStartup))
  }

  /** An observation is accepted exactly when it shows the approved settings in force. */
  lemma ObservationCommitsIff(t: Tables, now: int, key: string, o: Observation, readable: bool)
    requires Numbered(t) && t.client && t.state.Some?
    ensures Transact(t, ObserveEvent(now, key, o, readable)).ok <==>
              && !Blank(o.startup) && |o.startup| <= 128 && Fits(t, key, ObservationPayload(o))
              && o.revision in t.rows && (key in t.receipts || (Acceptable(t, now, o) && readable))
  {
    if o.revision in t.rows { AcceptableIsDeliverable(t, now, o); }
  }

  lemma AcceptableIsDeliverable(t: Tables, now: int, o: Observation)
    requires Numbered(t) && t.state.Some? && o.revision in t.rows
    ensures Acceptable(t, now, o) <==> MayDeliver(t.ops, t.state.value, t.rows[o.revision], now, o)
  {
  }

  /** The row is then delivered and applied, the node carries the observation, and the profile follows it. */
  lemma ObservationLeaves(t: Tables, now: int, key: string, o: Observation, readable: bool)
    requires Numbered(t) && t.client && t.state.Some? && Transact(t, ObserveEvent(now, key, o, readable)).ok
    ensures var s, u := t.state.value, Apply(t, ObserveEvent(now, key, o, readable));
            if key in t.receipts then u == t
            else var row := t.rows[o.revision];
                 && u == t.(state := u.state, rows := u.rows, receipts := u.receipts, site := u.site)
                 && u.receipts == t.receipts[key := ObservationPayload(o)]
                 && RowStep(t, u, o.revision,
                            s.(applied := o.revision, observation := Some(o), mode := o.mode, startup := o.startup),
                            row.(status := Delivered,
                                 audit := row.audit.(activeMode := o.mode, finishedAt := Some(now))))
                 && ProfileFollows(t.site, u.site, row.target.settings, o.mode)
  {
  }

  /** The profile, if there is one, shows the applied settings and whether their mode is a privileged one. */
  ghost predicate ProfileFollows(a: Site, b: Site, x: Settings, mode: int) {
    && b.eligible == a.eligible && b.resetDay == a.resetDay && (b.profile.Some? <==> a.profile.Some?)
    && (a.profile.Some? ==>
          && b.profile.value.version == 2 && b.profile.value.remote == x.remote && b.profile.value.gpu == x.gpu
          && b.profile.value.rescue == x.rescue && (b.profile.value.privileged <==> mode in {1, 3})
          && b.profile.value.service == a.profile.value.service
          && b.profile.value.monthReset == a.profile.value.monthReset
          && b.profile.value.revision == a.profile.value.revision
          && b.profile.value.applied == a.profile.value.applied)
  }

  /** A failure is recorded exactly when it names the approval of a target that is on its way, and says why. */
  lemma FailureAnswers(t: Tables, now: int, number: nat, key: string, hash: Digest, generation: nat, detail: string)
    requires Numbered(t) && t.client && t.state.Some?
    ensures var s, r := t.state.value, Transact(t, FailEvent(now, number, key, hash, generation, detail));
            var payload := FailurePayload(number, key, hash, generation, detail);
            && (r.ok <==>
                  && Fits(t, key, payload) && number in t.rows
                  && (key in t.receipts
                      || (&& IsTarget(s, t.rows[number]) && hash == t.rows[number].target.hash
                          && generation == t.rows[number].approval.value.generation
                          && t.rows[number].status in {AwaitingAgent, Applying, NeedsManualAuthorization}
                          && !Blank(detail))))
            && (r.ok && key in t.receipts ==> r.tables == t)
            && (r.ok && key !in t.receipts ==>
                  var u, row := r.tables, t.rows[number];
                  && u == t.(state := u.state, rows := u.rows, receipts := u.receipts)
                  && u.receipts == t.receipts[key := payload]
                  && RowStep(t, u, number, s,
                             row.(status := Failed, audit := row.audit.(finishedAt := Some(now)))))
  {
  }

  /******* Negotiation, the locked read and the baseline *******/

  /** Negotiation binds the service once and for all, and otherwise takes what the agent says. */
  lemma NegotiationAnswers(t: Tables, service: string, startup: string, mode: int, actions: seq<int>)
    requires t.client && t.state.Some?
    ensures var s, r := t.state.value, Transact(t, NegotiateEvent(service, startup, mode, actions));
            && (r.ok <==>
                  && !Blank(service) && |service| <= 255 && !Blank(startup) && |startup| <= 128
                  && mode in {1, 2, 3, 4, 5} && (forall a :: a in actions ==> a in {1, 2, 3})
                  && (s.service == "" || s.service == service))
            && (r.ok ==>
                  r.tables == t.(state := Some(NodeState(s.desired, s.applied, s.sequence + 1, 2, service,
                                                         Some(actions), mode, startup, s.observation))))
  {
    if mode in {1, 2, 3, 4, 5} { assert 1 <= mode <= 5; }
  }

  /** A locked read changes at most one thing: a lapsed approval of the target expires. */
  lemma LockedReadAnswers(t: Tables, now: int)
    requires Inv(t) && t.client && t.state.Some?
    ensures var s, r := t.state.value, Transact(t, ReadEvent(now));
            && r.ok
            && var lapsed := && s.desired != 0 && t.rows[s.desired].status in {NeedsManualAuthorization, AwaitingAgent}
                             && t.rows[s.desired].approval.Some?
                             && t.rows[s.desired].approval.value.expires.Some?
                             && t.rows[s.desired].approval.value.expires.value <= now;
            && (!lapsed ==> r.tables == t)
            && (lapsed ==>
                  && r.tables == t.(state := r.tables.state, rows := r.tables.rows)
                  && RowStep(t, r.tables, s.desired, s, t.rows[s.desired].(status := Expired)))
  {
    var s := t.state.value;
    assert s.desired != 0 ==> RowOk(s, s.desired, t.rows[s.desired]);
  }

  /** What a snapshot of these tables tells: the state row as it is, the desired and the applied revision as stored,
      except that the desired one carries the cursor of the node, and of the desired revision the host operation
      created last, if it has any. */
  lemma SnapshotTells(t: Tables, snap: Snapshot)
    ensures Shows(t, snap) <==>
              && t.state == Some(snap.state)
              && (snap.desired.None? <==> snap.state.desired == 0) && (snap.applied.None? <==> snap.state.applied == 0)
              && (snap.state.desired != 0 ==>
                    && snap.state.desired in t.rows
                    && snap.desired == Some(t.rows[snap.state.desired].(sequence := snap.state.sequence)))
              && (snap.state.applied != 0 ==>
                    && snap.state.applied in t.rows
                    && snap.applied == if snap.state.applied == snap.state.desired then snap.desired
                                       else Some(t.rows[snap.state.applied]))
              && (snap.operation.None? ==> forall id :: id in t.ops ==> t.ops[id].claim.revision != snap.state.desired)
              && (snap.operation.Some? ==>
                    && snap.operation.value.claim.revision == snap.state.desired
                    && (exists id :: id in t.ops && t.ops[id] == snap.operation.value)
                    && forall id :: id in t.ops && t.ops[id].claim.revision == snap.state.desired ==>
                         t.ops[id].claim.createdAt <= snap.operation.value.claim.createdAt)
  {
    if snap.operation.Some? && snap.operation.value.claim.revision == snap.state.desired
       && forall id :: id in t.ops && t.ops[id].claim.revision == snap.state.desired ==>
            t.ops[id].claim.createdAt <= snap.operation.value.claim.createdAt {
      if id :| id in t.ops && t.ops[id] == snap.operation.value {
        assert IsNewest(t.ops, snap.state.desired, id);
      }
    }
    if snap.operation.None? {
      forall id | id in t.ops
        ensures ForRevision(t.ops, snap.state.desired, id) <==> t.ops[id].claim.revision == snap.state.desired
      {
      }
    }
  }

  /** Nothing to do: the node is an old one, or has a history already. */
  predicate HasHistory(t: Tables, r: BaselineRequest)
    requires t.state.Some?
  {
    || t.state.value.desired != 0 || t.state.value.applied != 0 || t.rows != map[]
    || (!r.preserveRuntime
        && (!t.site.eligible
            || (t.site.profile.Some? && (t.site.profile.value.revision > 0 || t.site.profile.value.applied > 0))))
  }

  /** The baseline fits the negotiated service and mode, installs no helper, and of a migrated node denies
      everything optional. */
  predicate BaselineFits(s: NodeState, r: BaselineRequest) {
    && s.version == 2 && s.service == r.service && s.mode == r.settings.mode && !r.settings.rescue
    && (r.settings.webssh ==> r.settings.remote) && (r.settings.execution ==> r.settings.remote)
    && (r.preserveRuntime ==>
          !r.settings.remote && !r.settings.webssh && !r.settings.execution && !r.settings.gpu)
  }

  /** The first revision, approved by the installation itself, without expiry and without host actions. */
  ghost predicate InstalledRevision(s: NodeState, r: BaselineRequest, now: int, row: Revision) {
    && row.target.number == 1 && row.target.settings == r.settings
    && row.target.hash == SettingsDigest(r.settings) && row.target.baseline && row.target.previous == 0
    && row.target.fromMode == s.mode && row.target.toMode == s.mode
    && row.status == AwaitingAgent && row.supersededAt.None? && row.receivedAt.None?
    && row.audit.upgradeClass == ManualConfirm && row.audit.activeMode == 0 && row.audit.finishedAt.None?
    && row.approval.Some?
    && var a := row.approval.value;
    && a.generation == 1 && a.at == now && a.approver == "local-installation" && a.nonce == "" && a.expires.None?
    && a.usedAt.None? && a.authorization.revision == 1 && a.authorization.hash == row.target.hash
    && a.authorization.generation == 1 && a.authorization.service == r.service
    && a.authorization.mode == s.mode && a.authorization.nonce == "" && a.authorization.actions == []
  }

  /** A new node also starts its ordinary profile; a migrated one keeps everything but the eligibility. */
  ghost predicate SiteInstalled(a: Site, b: Site, mode: int, r: BaselineRequest, profile: Profile) {
    && !b.eligible
    && (r.preserveRuntime ==> b.resetDay == a.resetDay && b.profile == a.profile)
    && (!r.preserveRuntime ==>
          && b.resetDay == profile.monthReset && b.profile.Some?
          && var p := b.profile.value;
          && p.version == 2 && p.service == r.service && p.gpu == r.settings.gpu && p.remote == r.settings.remote
          && p.rescue == profile.rescue && p.monthReset == profile.monthReset
          && (p.privileged <==> profile.privileged || mode in {1, 3}) && p.revision == 1 && p.applied == 0)
  }

  lemma BaselineAnswers(t: Tables, now: int, r: BaselineRequest, profile: Profile)
    requires Inv(t) && t.client && t.state.Some?
    ensures var s, step := t.state.value, Transact(t, BaselineEvent(now, r, profile));
            && (step.ok <==>
                  && |r.policyHash| == 64
                  && (if t.baseline.Some? then t.baseline == Some(r) && 1 in t.rows
                      else HasHistory(t, r) || BaselineFits(s, r)))
            && (step.ok && (t.baseline.Some? || HasHistory(t, r)) ==> step.tables == t)
            && (step.ok && t.baseline.None? && !HasHistory(t, r) ==>
                  var u := step.tables;
                  && u == t.(state := u.state, rows := u.rows, baseline := u.baseline, site := u.site)
                  && u.baseline == Some(r) && u.state == Some(s.(desired := 1, sequence := s.sequence + 1))
                  && u.rows.Keys == {1} && InstalledRevision(s, r, now, u.rows[1])
                  && u.rows[1].sequence == s.sequence + 1
                  && SiteInstalled(t.site, u.site, s.mode, r, profile))
  {
  }

  /** What the rest of the panel does: a deleted client takes its baseline and profile along, and nothing else. */
  lemma OutsideAnswers(t: Tables, e: Event)
    requires IsOutside(e)
    ensures var r := Transact(t, e);
            && r.ok
            && (e.ProfileEvent? ==> r.tables == t.(site := t.site.(profile := Some(e.profile))))
            && (e.ClientRow? && e.present ==> r.tables == t.(client := true, site := t.site.(eligible := e.eligible)))
            && (e.ClientRow? && !e.present ==>
                  r.tables == t.(client := false, baseline := None, site := t.site.(profile := None)))
  {
  }

  /******* Where a grant comes from *******/

  predicate SameGrants(a: Settings, b: Settings) {
    a.remote == b.remote && a.webssh == b.webssh && a.execution == b.execution && a.gpu == b.gpu && a.rescue == b.rescue
  }

  /** The event asks for these settings as revision k. */
  predicate Asks(e: Event, k: nat, settings: Settings) {
    || (e.SaveEvent? && e.expected + 1 == k && SameGrants(e.settings, settings))
    || (e.BaselineEvent? && k == 1 && e.request.settings == settings)
  }

  /** The event is a named user's confirmation of revision k, or the installation itself. */
  predicate Confirms(e: Event, k: nat) {
    (e.ConfirmEvent? && e.number == k && !Blank(e.user)) || (e.BaselineEvent? && k == 1)
  }

  predicate Reports(e: Event, o: Observation) { e.ObserveEvent? && e.observation == o }

  ghost predicate Asked(events: seq<Event>, k: nat, settings: Settings) {
    exists i :: 0 <= i < |events| && Asks(events[i], k, settings)
  }

  ghost predicate Confirmation(events: seq<Event>, k: nat) {
    exists i :: 0 <= i < |events| && Confirms(events[i], k)
  }

  ghost predicate Reported(events: seq<Event>, o: Observation) {
    exists i :: 0 <= i < |events| && Reports(events[i], o)
  }

  ghost predicate RowTraced(events: seq<Event>, k: nat, row: Revision) {
    Asked(events, k, row.target.settings) && (row.approval.Some? ==> Confirmation(events, k))
  }

  /** Every row, every approval and the observation come from an event of the run. */
  ghost predicate Traced(events: seq<Event>, t: Tables) {
    && (forall k :: k in t.rows ==> RowTraced(events, k, t.rows[k]))
    && (t.state.Some? && t.state.value.observation.Some? ==> Reported(events, t.state.value.observation.value))
  }

  lemma TracedLater(events: seq<Event>, e: Event, k: nat, row: Revision)
    requires RowTraced(events, k, row)
    ensures RowTraced(events + [e], k, row)
  {
    var i :| 0 <= i < |events| && Asks(events[i], k, row.target.settings);
    assert Asks((events + [e])[i], k, row.target.settings);
    if row.approval.Some? {
      var j :| 0 <= j < |events| && Confirms(events[j], k);
      assert Confirms((events + [e])[j], k);
    }
  }

  /** A row is new, newly approved, or has the settings it had. */
  predicate RowComesFrom(t: Tables, e: Event, k: nat, row: Revision) {
    if k in t.rows
    then row.target.settings == t.rows[k].target.settings
         && (row.approval.Some? ==> t.rows[k].approval.Some? || Confirms(e, k))
    else Asks(e, k, row.target.settings) && (row.approval.Some? ==> Confirms(e, k))
  }

  lemma SavedRowsComeFrom(t: Tables, now: int, asked: Settings, expected: nat, profileMode: int, k: nat)
    requires t.state.Some? && Numbered(t) && k in Save(t, now, asked, expected, profileMode).tables.rows
    ensures RowComesFrom(t, SaveEvent(now, asked, expected, profileMode), k,
                         Save(t, now, asked, expected, profileMode).tables.rows[k])
  {
  }

  lemma ConfirmedRowsComeFrom(t: Tables, now: int, number: nat, user: string, nonce: string, k: nat)
    requires t.state.Some? && Numbered(t) && k in Confirm(t, now, number, user, nonce).tables.rows
    ensures RowComesFrom(t, ConfirmEvent(now, number, user, nonce), k,
                         Confirm(t, now, number, user, nonce).tables.rows[k])
  {
  }

  lemma ArrivedRowsComeFrom(t: Tables, now: int, number: nat, event: Status, k: nat)
    requires t.state.Some? && Numbered(t) && k in Report(t, now, number, event).tables.rows
    ensures RowComesFrom(t, ReportEvent(now, number, event), k, Report(t, now, number, event).tables.rows[k])
  {
  }

  lemma ClaimedRowsComeFrom(t: Tables, now: int, id: string, number: nat, generation: nat, hash: Digest,
                            nonce: string, k: nat)
    requires t.state.Some? && Numbered(t) && k in Prepare(t, now, id, number, generation, hash, nonce).tables.rows
    ensures RowComesFrom(t, PrepareEvent(now, id, number, generation, hash, nonce), k,
                         Prepare(t, now, id, number, generation, hash, nonce).tables.rows[k])
  {
  }

  lemma HostRowsComeFrom(t: Tables, now: int, p: HostReportMessage, k: nat)
    requires t.state.Some? && Numbered(t) && k in HostReport(t, now, p).tables.rows
    ensures RowComesFrom(t, HostReportEvent(now, p), k, HostReport(t, now, p).tables.rows[k])
  {
  }

  lemma ObservedRowsComeFrom(t: Tables, now: int, key: string, o: Observation, readable: bool, k: nat)
    requires t.state.Some? && Numbered(t) && k in Observe(t, now, key, o, readable).tables.rows
    ensures RowComesFrom(t, ObserveEvent(now, key, o, readable), k, Observe(t, now, key, o, readable).tables.rows[k])
  {
  }

  lemma FailedRowsComeFrom(t: Tables, now: int, number: nat, key: string, hash: Digest, generation: nat,
                           detail: string, k: nat)
    requires t.state.Some? && Numbered(t) && k in FailApply(t, now, number, key, hash, generation, detail).tables.rows
    ensures RowComesFrom(t, FailEvent(now, number, key, hash, generation, detail), k,
                         FailApply(t, now, number, key, hash, generation, detail).tables.rows[k])
  {
  }

  lemma ReadRowsComeFrom(t: Tables, now: int, k: nat)
    requires t.state.Some? && Numbered(t) && k in LockedRead(t, now).tables.rows
    ensures RowComesFrom(t, ReadEvent(now), k, LockedRead(t, now).tables.rows[k])
  {
  }

  lemma BaselineRowsComeFrom(t: Tables, now: int, r: BaselineRequest, profile: Profile, k: nat)
    requires t.state.Some? && Numbered(t) && k in InitializeBaseline(t, now, r, profile).tables.rows
    ensures RowComesFrom(t, BaselineEvent(now, r, profile), k, InitializeBaseline(t, now, r, profile).tables.rows[k])
  {
  }

  lemma BodyRowsComeFrom(t: Tables, e: Event, k: nat)
    requires t.state.Some? && Numbered(t) && k in Body(t, e).tables.rows
    ensures RowComesFrom(t, e, k, Body(t, e).tables.rows[k])
  {
    match e
    case SaveEvent(now, asked, expected, profileMode) => SavedRowsComeFrom(t, now, asked, expected, profileMode, k);
    case ConfirmEvent(now, number, user, nonce) => ConfirmedRowsComeFrom(t, now, number, user, nonce, k);
    case ReportEvent(now, number, event) => ArrivedRowsComeFrom(t, now, number, event, k);
    case PrepareEvent(now, id, number, generation, hash, nonce) =>
      ClaimedRowsComeFrom(t, now, id, number, generation, hash, nonce, k);
    case HostReportEvent(now, p) => HostRowsComeFrom(t, now, p, k);
    case ObserveEvent(now, key, o, readable) => ObservedRowsComeFrom(t, now, key, o, readable, k);
    case FailEvent(now, number, key, hash, generation, detail) =>
      FailedRowsComeFrom(t, now, number, key, hash, generation, detail, k);
    case ReadEvent(now) => ReadRowsComeFrom(t, now, k);
    case BaselineEvent(now, r, profile) => BaselineRowsComeFrom(t, now, r, profile, k);
    case _ =>
  }

  lemma RowsComeFrom(t: Tables, e: Event, k: nat)
    requires Inv(t) && k in Apply(t, e).rows
    ensures RowComesFrom(t, e, k, Apply(t, e).rows[k])
  {
    if !IsOutside(e) && LockState(t).Some? {
      var l := Locked(t, LockState(t).value);
      LockKeeps(t);
      RowsAreNumbered(l);
      if k in Body(l, e).tables.rows { BodyRowsComeFrom(l, e, k); }
    }
  }

  predicate ObservationComesFrom(t: Tables, e: Event, u: Tables) {
    u.state.Some? && u.state.value.observation.Some? ==>
      || Reports(e, u.state.value.observation.value)
      || (t.state.Some? && t.state.value.observation == u.state.value.observation)
  }

  lemma BodyObservation(t: Tables, e: Event)
    requires t.state.Some?
    ensures ObservationComesFrom(t, e, Body(t, e).tables)
  {
  }

  lemma ObservationsComeFrom(t: Tables, e: Event)
    ensures ObservationComesFrom(t, e, Apply(t, e))
  {
    if !IsOutside(e) && LockState(t).Some? { BodyObservation(Locked(t, LockState(t).value), e); }
  }

  lemma {:induction false} EveryRunIsTraced(client: bool, events: seq<Event>)
    ensures Traced(events, Run(EmptyTables(client), events))
  {
    if events != [] {
      var front, e := events[..|events| - 1], events[|events| - 1];
      EveryRunIsTraced(client, front);
      EveryRunIsSafe(client, front);
      StepIsTraced(front, Run(EmptyTables(client), front), e);
      assert events == front + [e];
    }
  }

  lemma StepIsTraced(events: seq<Event>, t: Tables, e: Event)
    requires Inv(t) && Traced(events, t)
    ensures Traced(events + [e], Apply(t, e))
  {
    var u, more := Apply(t, e), events + [e];
    forall k | k in u.rows ensures RowTraced(more, k, u.rows[k]) {
      RowsComeFrom(t, e, k);
      RowStepTraced(events, t, e, k, u.rows[k]);
    }
    ObservationsComeFrom(t, e);
    if u.state.Some? && u.state.value.observation.Some? {
      var o := u.state.value.observation.value;
      if Reports(e, o) {
        assert Reports(more[|events|], o);
      } else {
        var i :| 0 <= i < |events| && Reports(events[i], o);
        assert Reports(more[i], o);
      }
    }
  }

  lemma RowStepTraced(events: seq<Event>, t: Tables, e: Event, k: nat, row: Revision)
    requires RowComesFrom(t, e, k, row) && (k in t.rows ==> RowTraced(events, k, t.rows[k]))
    ensures RowTraced(events + [e], k, row)
  {
    if k in t.rows { TracedLater(events, e, k, t.rows[k]); }
    assert (events + [e])[|events|] == e;
  }

  /** In every run, a capability that is allowed was asked for as the applied revision and as the desired one,
      confirmed by a named user or at installation, and reported effective by the daemon. */
  lemma AllowedWasAskedAndConfirmed(client: bool, events: seq<Event>, f: Feature)
    returns (asked: Settings, wanted: Settings, o: Observation)
    requires CapabilityAllowed(Run(EmptyTables(client), events), f)
    ensures var s := Run(EmptyTables(client), events).state.value;
            && Asked(events, s.applied, asked) && Grants(asked, f) && Confirmation(events, s.applied)
            && Asked(events, s.desired, wanted) && Grants(wanted, f)
            && Reported(events, o) && o.revision == s.applied && o.capabilities.Some?
            && Effective(o.capabilities.value, f)
  {
    var t := Run(EmptyTables(client), events);
    EveryRunIsTraced(client, events);
    EveryRunIsSafe(client, events);
    AllowedOnlyWhenObserved(client, events, f);
    var s := t.state.value;
    assert RowTraced(events, s.applied, t.rows[s.applied]) && RowTraced(events, s.desired, t.rows[s.desired]);
    assert RowOk(s, s.applied, t.rows[s.applied]);
    asked, wanted, o := t.rows[s.applied].target.settings, t.rows[s.desired].target.settings, s.observation.value;
  }
}
