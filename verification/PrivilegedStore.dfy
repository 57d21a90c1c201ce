/** The privileged-delivery procedures as they run: each reads the locked rows into local records,
    checks them one refusal at a time, edits the records and writes them back. Each is proved to be
    exactly one transaction of PrivilegedDelivery. */
module PrivilegedStore {
  import opened Common
  import opened PrivilegedDelivery

  /** supportsActions: every required action occurs in the negotiated list. */
  method AllSupported(known: seq<int>, required: seq<int>) returns (supported: bool)
    ensures supported <==> forall a :: a in required ==> a in known
  {
    for i := 0 to |required|
      invariant forall j :: 0 <= j < i ==> required[j] in known
    {
      var found := false;
      for j := 0 to |known|
        invariant found <==> required[i] in known[..j]
      {
        if known[j] == required[i] {
          found := true;
        }
      }
      assert known[..|known|] == known;
      if !found {
        var missing := required[i];
        assert missing in required && missing !in known;
        return false;
      }
    }
    return true;
  }

  /** The query for the newest operation of a revision. */
  method NewestFor(ops: map<string, Operation>, number: nat) returns (o: Option<Operation>)
    ensures NewestOperation(ops, number, o)
  {
    o := None;
    var todo := ops.Keys;
    ghost var best := "";
    while todo != {}
      invariant todo <= ops.Keys
      invariant o.None? ==> forall x :: ForRevision(ops, number, x) ==> x in todo
      invariant o.Some? ==> ForRevision(ops, number, best) && ops[best] == o.value
      invariant o.Some? ==> forall x :: ForRevision(ops, number, x) && x !in todo ==>
                              ops[x].claim.createdAt <= o.value.claim.createdAt
      decreases todo
    {
      var id :| id in todo;
      if ops[id].claim.revision == number && (o.None? || ops[id].claim.createdAt > o.value.claim.createdAt) {
        o, best := Some(ops[id]), id;
      }
      todo := todo - {id};
    }
    if o.Some? { assert IsNewest(ops, number, best); }
  }

  class DeliveryStore {
    var client: bool
    var site: Site
    var state: Option<NodeState>
    var rows: map<nat, Revision>
    var ops: map<string, Operation>
    var receipts: map<string, Payload>
    var baseline: Option<BaselineRequest>

    ghost function Contents(): Tables
      reads this
    {
      Tables(client, site, state, rows, ops, receipts, baseline)
    }

    constructor (client: bool)
      ensures Contents() == EmptyTables(client)
    {
      this.client, site := client, Site(false, 0, None);
      state, baseline := None, None;
      rows, ops, receipts := map[], map[], map[];
    }

    method LockStateRow() returns (s: Option<NodeState>)
      ensures s == LockState(Contents())
    {
      if !client { return None; }
      if state.Some? { return state; }
      var latest := LatestRevision(rows);
      return Some(NodeState(latest, 0, 0, 1, "", None, 0, "", None));
    }

    method SaveRows(s: NodeState, row: Revision)
      modifies this`state, this`rows
      ensures Contents() == Advance(old(Contents()), s, row)
    {
      var next := s.(sequence := s.sequence + 1);
      var written := row.(sequence := next.sequence);
      rows := rows[row.target.number := written];
      state := Some(next);
    }

    method SupportsRequired(s: NodeState, required: seq<int>) returns (supported: bool)
      ensures supported <==> SupportsActions(s, required)
    {
      if s.supported.None? { return required == []; }
      supported := AllSupported(s.supported.value, required);
    }

    method RequiredHostActions(s: NodeState, row: Revision) returns (actions: seq<int>)
      ensures actions == RequiredActions(s, row)
    {
      actions := [];
      if row.target.toMode != s.mode { actions := actions + [SET_SERVICE_IDENTITY]; }
      var installed := false;
      if s.observation.Some? { installed := s.observation.value.helperInstalled; }
      if row.target.settings.rescue && !installed { actions := actions + [2]; }
      if !row.target.settings.rescue && installed { actions := actions + [3]; }
    }

    method SupersedePending(now: int, sequence: nat)
      modifies this`rows
      ensures rows == SupersedeAll(old(rows), now, sequence)
    {
      rows := map k | k in rows :: Supersede(rows[k], now, sequence);
    }

    method SaveSettings(now: int, settings: Settings, expected: nat, profileMode: int) returns (ok: bool)
      modifies this`state, this`rows
      ensures Step(Contents(), ok) == Transact(old(Contents()), SaveEvent(now, settings, expected, profileMode))
    {
      ok := false;
      var lock := LockStateRow();
      if lock.None? { return; }
      var s := lock.value;
      if expected != s.desired { return; }
      if (settings.webssh || settings.execution) && !settings.remote { return; }
      if settings.mode < 0 || settings.mode > 5 { return; }
      var installed := profileMode;
      if s.version == 2 && s.mode != 0 { installed := s.mode; }
      var resolved := settings;
      if resolved.mode == 0 {
        resolved := resolved.(mode := installed);
        if resolved.mode == 0 { return; }
      }
      if s.desired + 1 in rows { return; }
      var row := NewRevision(s, resolved, installed);
      SupersedePending(now, s.sequence + 1);
      rows := rows[row.target.number := row];
      state := Some(s.(desired := row.target.number, sequence := s.sequence + 1));
      ok := true;
    }

    method ConfirmRevision(now: int, number: nat, user: string, nonce: string) returns (ok: bool)
      modifies this`state, this`rows
      ensures Step(Contents(), ok) == Transact(old(Contents()), ConfirmEvent(now, number, user, nonce))
    {
      ok := false;
      var lock := LockStateRow();
      if lock.None? || number !in rows { return; }
      var s, row := lock.value, rows[number];
      if s.desired != number || row.supersededAt.Some? { return; }
      if Blank(user) { return; }
      if row.status.Delivered? { state := Some(s); return true; }
      if Unexpired(row, now)
         && (row.status.NeedsManualAuthorization? || row.status.AwaitingAgent? || row.status.Applying?) {
        state := Some(s);
        return true;
      }
      if !Confirmable(row.status) { return; }
      if s.version != 2 || s.service == "" { return; }
      var actions := RequiredHostActions(s, row);
      var supported := SupportsRequired(s, actions);
      if !supported { return; }
      var generation := Generation(row) + 1;
      row := row.(status := AwaitingAgent);
      if |actions| > 0 {
        row := row.(status := NeedsManualAuthorization, audit := row.audit.(upgradeClass := ManualPrivileged));
      } else {
        row := row.(audit := row.audit.(upgradeClass := ManualConfirm));
      }
      var target, expires := row.target, Some(now + NONCE_LIFETIME);
      var authorization :=
        Authorization(target.number, target.hash, generation, s.service, target.toMode, nonce, actions);
      row := row.(approval := Some(Approval(generation, now, user, nonce, expires, None, authorization)));
      SaveRows(s, row);
      ok := true;
    }

    method ReportReceived(now: int, number: nat, event: Status) returns (ok: bool)
      modifies this`state, this`rows
      ensures Step(Contents(), ok) == Transact(old(Contents()), ReportEvent(now, number, event))
    {
      ok := false;
      var lock := LockStateRow();
      if lock.None? || number !in rows { return; }
      var s, row := lock.value, rows[number];
      if !event.NeedsConfirmation? && !event.NeedsManualAuthorization? { return; }
      if row.status.Superseded? { return; }
      if row.receivedAt.None? {
        row := row.(receivedAt := Some(now));
        SaveRows(s, row);
      } else {
        state := Some(s);
      }
      ok := true;
    }

    method PrepareOperation(now: int, id: string, number: nat, generation: nat, hash: Digest, nonce: string)
      returns (ok: bool)
      modifies this`state, this`rows, this`ops
      ensures Step(Contents(), ok) == Transact(old(Contents()), PrepareEvent(now, id, number, generation, hash, nonce))
    {
      ok := false;
      if Blank(id) || |id| > 128 { return; }
      var lock := LockStateRow();
      if lock.None? || number !in rows { return; }
      var s, row := lock.value, rows[number];
      if !Current(s, row) { return; }
      if generation != Generation(row) || hash != row.target.hash || nonce == "" || nonce != row.approval.value.nonce {
        return;
      }
      if id in ops {
        var existing := ops[id];
        if existing.claim.revision != number || existing.claim.generation != generation { return; }
        state := Some(s);
        return true;
      }
      var approval := row.approval.value;
      if !row.status.NeedsManualAuthorization? || approval.usedAt.Some? || approval.expires.None?
         || approval.expires.value <= now { return; }
      var supported := SupportsRequired(s, approval.authorization.actions);
      if !supported { return; }
      if approval.authorization.service != s.service { return; }
      var lease := now + LEASE;
      if approval.expires.value < lease { lease := approval.expires.value; }
      var authorization := approval.authorization;
      var claim := Claim(row.target.number, approval.generation, authorization, lease, s.startup, now);
      ops := ops[id := Operation(claim, PREPARED, "", "", "")];
      approval := approval.(usedAt := Some(now));
      row := row.(approval := Some(approval));
      row := row.(status := Applying);
      SaveRows(s, row);
      ok := true;
    }

    method ReportOperation(now: int, p: HostReportMessage) returns (ok: bool)
      modifies this`state, this`rows, this`ops, this`receipts
      ensures Step(Contents(), ok) == Transact(old(Contents()), HostReportEvent(now, p))
    {
      ok := false;
      if |p.error| > 4096 || |p.operator| > 128 || |p.localAuthentication| > 64 { return; }
      var lock := LockStateRow();
      if lock.None? || p.operation !in ops { return; }
      var s, op := lock.value, ops[p.operation];
      var receipt := CheckReceiptRow(p.receipt, p);
      if receipt.Conflict? { return; }
      if receipt.Duplicate? { state := Some(s); return true; }
      if op.claim.revision !in rows { return; }
      var row := rows[op.claim.revision];
      var current := Current(s, row) && Generation(row) == op.claim.generation;
      if p.phase <= 3 && !current { return; }
      if op.phase >= 4 || (op.phase == 3 && p.phase < 4) || p.phase < 2 || p.phase > 5 || p.phase < op.phase { return; }
      if (row.status.Delivered? && p.phase != RESTORED) || (row.status.Failed? && p.phase <= 3) { return; }
      if p.phase <= 3 && op.claim.lease <= now { return; }
      if p.phase == 3 && (Blank(p.operator) || Blank(p.localAuthentication)) { return; }
      receipts := receipts[p.receipt := p];
      op := op.(phase := p.phase, error := p.error);
      op := op.(localAuthentication := p.localAuthentication, operator := p.operator);
      ops := ops[p.operation := op];
      if !current { state := Some(s); return true; }
      if p.phase >= 4 {
        row := row.(status := Failed, audit := row.audit.(finishedAt := Some(now)));
      }
      SaveRows(s, row);
      ok := true;
    }

    method CheckReceiptRow(key: string, payload: Payload) returns (r: Receipt)
      ensures r == CheckReceipt(Contents(), key, payload)
    {
      if Blank(key) || |key| > 128 { return Conflict; }
      if key in receipts {
        if receipts[key] != payload { return Conflict; }
        return Duplicate;
      }
      return Fresh;
    }

    /** The checks of an observation against the approved settings and the installed helper. */
    method ObservationMatches(s: NodeState, row: Revision, o: Observation) returns (matches: bool)
      ensures matches <==> o.capabilities.Some? && o.capabilities.value.mode == o.mode
                           && EffectiveMatches(o.capabilities.value, row.target.settings)
                           && HelperMatches(o, row.target.settings)
    {
      var settings := row.target.settings;
      if o.capabilities.None? || o.capabilities.value.mode != o.mode { return false; }
      var c := o.capabilities.value;
      if c.remote != settings.remote || c.webssh != (settings.remote && settings.webssh)
         || c.execution != (settings.remote && settings.execution) { return false; }
      if !settings.gpu && (c.gpu || c.detailedGpu) { return false; }
      if c.rescue != settings.rescue { return false; }
      if o.helperAuthorized != settings.rescue || o.helperInstalled != settings.rescue
         || (settings.rescue && (!o.helperRunning || !o.helperLeaseReady))
         || (!settings.rescue && (o.helperRunning || o.helperLeaseReady)) { return false; }
      return true;
    }

    /** Either the host operation of this approval is complete, or the approval needs none and is live. */
    method HostStepDone(row: Revision, now: int, o: Observation) returns (done: bool)
      requires row.approval.Some?
      ensures done <==> if row.approval.value.authorization.actions != []
                        then OperationComplete(ops, row, o)
                        else row.target.baseline || Unexpired(row, now)
    {
      var actions := row.approval.value.authorization.actions;
      if |actions| > 0 {
        if o.operation !in ops { return false; }
        var op := ops[o.operation];
        if op.claim.revision != row.target.number || op.claim.generation != Generation(row) || op.phase != 3 {
          return false;
        }
        for i := 0 to |actions|
          invariant forall j :: 0 <= j < i ==> actions[j] == SET_SERVICE_IDENTITY ==> o.startup != op.claim.priorStartup
        {
          if actions[i] == SET_SERVICE_IDENTITY && o.startup == op.claim.priorStartup { return false; }
        }
        return true;
      }
      return row.target.baseline || Unexpired(row, now);
    }

    /** The profile row, if there is one, follows what the daemon applied. */
    method UpdateAppliedProfile(settings: Settings, mode: int)
      modifies this`site
      ensures site == ObservedSite(old(site), settings, mode)
    {
      if site.profile.None? { return; }
      var profile := site.profile.value.(version := 2, remote := settings.remote, gpu := settings.gpu);
      profile := profile.(rescue := settings.rescue, privileged := false);
      if mode == 1 || mode == 3 { profile := profile.(privileged := true); }
      site := site.(profile := Some(profile));
    }

    method ObserveDaemon(now: int, key: string, o: Observation, readable: bool) returns (ok: bool)
      modifies this`state, this`rows, this`receipts, this`site
      ensures Step(Contents(), ok) == Transact(old(Contents()), ObserveEvent(now, key, o, readable))
    {
      ok := false;
      if |o.startup| > 128 || Blank(o.startup) { return; }
      var lock := LockStateRow();
      if lock.None? { return; }
      var s := lock.value;
      var receipt := CheckReceiptRow(key, ObservationPayload(o));
      if receipt.Conflict? || o.revision !in rows { return; }
      var row := rows[o.revision];
      if receipt.Duplicate? { state := Some(s); return true; }
      if !Current(s, row) { return; }
      if !row.status.Applying? && !row.status.AwaitingAgent? && !row.status.Delivered? { return; }
      if o.hash != row.target.hash || o.generation != Generation(row) || o.service != s.service { return; }
      if !TimelyObservation(s, row, now, o) { return; }
      if o.mode != row.target.toMode { return; }
      var done := HostStepDone(row, now, o);
      if !done { return; }
      var matches := ObservationMatches(s, row, o);
      if !matches { return; }
      assert MayDeliver(ops, s, row, now, o);
      if !readable { return; }
      UpdateAppliedProfile(row.target.settings, o.mode);
      receipts := receipts[key := ObservationPayload(o)];
      s := s.(applied := o.revision);
      s := s.(observation := Some(o), mode := o.mode, startup := o.startup);
      row := row.(status := Delivered);
      row := row.(audit := row.audit.(activeMode := o.mode, finishedAt := Some(now)));
      SaveRows(s, row);
      ok := true;
    }

    method FailApplication(now: int, number: nat, key: string, hash: Digest, generation: nat, detail: string)
      returns (ok: bool)
      modifies this`state, this`rows, this`receipts
      ensures Step(Contents(), ok) == Transact(old(Contents()), FailEvent(now, number, key, hash, generation, detail))
    {
      ok := false;
      var lock := LockStateRow();
      if lock.None? { return; }
      var s := lock.value;
      var payload := FailurePayload(number, key, hash, generation, detail);
      var receipt := CheckReceiptRow(key, payload);
      if receipt.Conflict? || number !in rows { return; }
      var row := rows[number];
      if receipt.Duplicate? { state := Some(s); return true; }
      if !Current(s, row) { return; }
      if hash != row.target.hash || generation != Generation(row) { return; }
      if !row.status.AwaitingAgent? && !row.status.Applying? && !row.status.NeedsManualAuthorization? { return; }
      if Blank(detail) { return; }
      receipts := receipts[key := payload];
      row := row.(status := Failed);
      row := row.(audit := row.audit.(finishedAt := Some(now)));
      SaveRows(s, row);
      ok := true;
    }

    method NegotiateProtocol(service: string, startup: string, mode: int, actions: seq<int>) returns (ok: bool)
      modifies this`state
      ensures Step(Contents(), ok) == Transact(old(Contents()), NegotiateEvent(service, startup, mode, actions))
    {
      ok := false;
      if Blank(service) || |service| > 255 || Blank(startup) || |startup| > 128 || mode < 1 || mode > 5 { return; }
      for i := 0 to |actions|
        invariant forall j :: 0 <= j < i ==> 1 <= actions[j] <= 3
      {
        if actions[i] < 1 || actions[i] > 3 {
          assert actions[i] in actions;
          return;
        }
      }
      var lock := LockStateRow();
      if lock.None? { return; }
      var s := lock.value;
      if s.service != "" && s.service != service { return; }
      s := s.(version := 2, service := service, startup := startup);
      s := s.(mode := mode, supported := Some(actions), sequence := s.sequence + 1);
      state := Some(s);
      ok := true;
    }

    /** getStateTransactional: the snapshot shows the tables as the transaction leaves them. */
    method ReadLocked(now: int) returns (ok: bool, snap: Option<Snapshot>)
      modifies this`state, this`rows
      ensures Step(Contents(), ok) == Transact(old(Contents()), ReadEvent(now))
      ensures ok <==> snap.Some?
      ensures ok ==> Shows(Contents(), snap.value)
    {
      ok, snap := false, None;
      var lock := LockStateRow();
      if lock.None? { return; }
      var s := lock.value;
      if s.desired != 0 && s.desired !in rows { return; }
      if s.applied != 0 && s.applied !in rows { return; }
      if s.desired != 0 && ApprovalLapsed(rows[s.desired], now) {
        var row := rows[s.desired];
        row := row.(status := Expired);
        SaveRows(s, row);
      } else {
        state := Some(s);
      }
      ok := true;
      snap := ReadSnapshot();
    }

    method ReadSnapshot() returns (snap: Option<Snapshot>)
      requires state.Some?
      requires state.value.desired != 0 ==> state.value.desired in rows
      requires state.value.applied != 0 ==> state.value.applied in rows
      ensures snap.Some? && Shows(Contents(), snap.value)
    {
      var s := state.value;
      var desired, applied := None, None;
      if s.desired != 0 { desired := Some(rows[s.desired].(sequence := s.sequence)); }
      if s.applied != 0 {
        var row := rows[s.applied];
        if s.applied == s.desired { row := row.(sequence := s.sequence); }
        applied := Some(row);
      }
      var operation := NewestFor(ops, s.desired);
      return Some(Snapshot(s, desired, applied, operation));
    }

    method InstallBaseline(now: int, r: BaselineRequest, profile: Profile) returns (ok: bool)
      modifies this`state, this`rows, this`baseline, this`site
      ensures Step(Contents(), ok) == Transact(old(Contents()), BaselineEvent(now, r, profile))
    {
      ok := false;
      if |r.policyHash| != 64 { return; }
      var lock := LockStateRow();
      if lock.None? { return; }
      var s := lock.value;
      if baseline.Some? {
        if baseline.value != r || 1 !in rows { return; }
        state := Some(s);
        return true;
      }
      if (!site.eligible && !r.preserveRuntime) || rows != map[] || s.desired != 0 || s.applied != 0
         || (!r.preserveRuntime && OrdinaryHistory(site)) {
        state := Some(s);
        return true;
      }
      if s.version != 2 || s.service != r.service || s.mode != r.settings.mode { return; }
      if r.settings.rescue { return; }
      if r.preserveRuntime && (r.settings.remote || r.settings.webssh || r.settings.execution || r.settings.gpu) {
        return;
      }
      if !r.settings.remote && (r.settings.webssh || r.settings.execution) { return; }
      var row := BaselineRow(s, r, now);
      StartProfile(s.mode, r, profile);
      s := s.(desired := 1);
      SaveRows(s, row);
      baseline := Some(r);
      ok := true;
    }

    /** A migration only uses up the eligibility; a first installation also starts the ordinary profile. */
    method StartProfile(mode: int, r: BaselineRequest, template: Profile)
      modifies this`site
      ensures site == BaselineSite(old(site), mode, r, template)
    {
      site := site.(eligible := false);
      if r.preserveRuntime { return; }
      var profile := template.(version := 2, service := r.service, gpu := r.settings.gpu, remote := r.settings.remote);
      if mode == 1 || mode == 3 { profile := profile.(privileged := true); }
      site := site.(profile := Some(profile.(revision := 1, applied := 0)), resetDay := template.monthReset);
    }
  }
}
