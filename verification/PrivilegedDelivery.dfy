/** The tables of one node in privileged delivery and the effect of each database transaction.

    A transaction is a function from committed tables to committed tables: it either commits and
    answers ok, or rolls back and leaves every table as it was. Clock readings, random nonces and
    requests are parameters. PrivilegedStore.dfy has the step-by-step procedures. */
module PrivilegedDelivery {
  import opened Common

  datatype Settings = Settings(
    remote: bool, webssh: bool, execution: bool, gpu: bool, rescue: bool, mode: int)

  /** The settings digest, idealised: two settings have the same digest exactly when they are equal. */
  datatype Digest = SettingsDigest(settings: Settings)

  datatype Status =
    | NeedsConfirmation
    | NeedsManualAuthorization
    | AwaitingAgent
    | Applying
    | Expired
    | Delivered
    | Failed
    | Superseded

  datatype UpgradeClass = ManualConfirm | ManualPrivileged

  /** The immutable part of a revision. */
  datatype Target = Target(
    number: nat, settings: Settings, hash: Digest, baseline: bool, previous: nat, fromMode: int, toMode: int)

  datatype Authorization = Authorization(
    revision: nat, hash: Digest, generation: nat, service: string, mode: int, nonce: string, actions: seq<int>)

  /** What one confirmation writes; renewing replaces it under the next generation. */
  datatype Approval = Approval(
    generation: nat, at: int, approver: string, nonce: string, expires: Option<int>, usedAt: Option<int>,
    authorization: Authorization)

  datatype Audit = Audit(upgradeClass: UpgradeClass, activeMode: int, finishedAt: Option<int>)

  datatype Revision = Revision(
    target: Target, status: Status, approval: Option<Approval>, supersededAt: Option<int>,
    receivedAt: Option<int>, audit: Audit, sequence: nat)

  datatype Capabilities = Capabilities(
    mode: int, remote: bool, webssh: bool, execution: bool, gpu: bool, detailedGpu: bool, rescue: bool)

  datatype Observation = Observation(
    revision: nat, hash: Digest, generation: nat, service: string, startup: string, mode: int,
    observedAt: Option<int>, operation: string, capabilities: Option<Capabilities>,
    helperAuthorized: bool, helperInstalled: bool, helperRunning: bool, helperLeaseReady: bool)

  /** The single state row of the node. */
  datatype NodeState = NodeState(
    desired: nat, applied: nat, sequence: nat, version: nat, service: string,
    supported: Option<seq<int>>, mode: int, startup: string, observation: Option<Observation>)

  /** The immutable part of a host operation. */
  datatype Claim = Claim(
    revision: nat, generation: nat, authorization: Authorization, lease: int, priorStartup: string, createdAt: int)

  datatype Operation = Operation(
    claim: Claim, phase: int, error: string, localAuthentication: string, operator: string)

  /** What a receipt digest is computed from. */
  datatype Payload =
    | HostReportPayload(operation: string, receipt: string, phase: int, error: string,
                        operator: string, localAuthentication: string)
    | ObservationPayload(observation: Observation)
    | FailurePayload(number: nat, receipt: string, hash: Digest, generation: nat, detail: string)

  type HostReportMessage = p: Payload | p.HostReportPayload? witness HostReportPayload("", "", 0, "", "", "")

  datatype BaselineRequest = BaselineRequest(
    service: string, settings: Settings, runtime: string, preserveRuntime: bool, policyHash: string)

  /** The deployment profile, as far as privileged delivery reads or writes it. */
  datatype Profile = Profile(
    version: nat, remote: bool, gpu: bool, rescue: bool, privileged: bool, service: string, monthReset: int,
    revision: nat, applied: nat)

  /** What else a transaction may touch: columns of the client row, and the deployment profile. */
  datatype Site = Site(eligible: bool, resetDay: int, profile: Option<Profile>)

  datatype Tables = Tables(
    client: bool,
    site: Site,
    state: Option<NodeState>,
    rows: map<nat, Revision>,
    ops: map<string, Operation>,
    receipts: map<string, Payload>,
    baseline: Option<BaselineRequest>)

  datatype Step = Step(tables: Tables, ok: bool)

  const NONCE_LIFETIME := 30 * 60
  const LEASE := 10 * 60
  const OBSERVATION_SKEW := 5 * 60
  const PREPARED := 1
  const LOCAL_APPLIED := 3
  const RESTORED := 5
  const SET_SERVICE_IDENTITY := 1

  function EmptyTables(client: bool): Tables {
    Tables(client, Site(false, 0, None), None, map[], map[], map[], None)
  }

  function Refused(t: Tables): Step { Step(t, false) }

  predicate Pending(s: Status) {
    s.NeedsConfirmation? || s.NeedsManualAuthorization? || s.AwaitingAgent? || s.Applying? || s.Expired?
  }

  /******* Locking and saving *******/

  lemma LatestExists(keys: set<nat>, k: nat) returns (m: nat)
    requires k in keys
    ensures m in keys && forall j :: j in keys ==> j <= m
  {
    m := k;
    if larger :| larger in keys && k < larger {
      var rest := keys - {k};
      m := LatestExists(rest, larger);
      forall j | j in keys ensures j <= m {
        if j == k { assert larger in rest; } else { assert j in rest; }
      }
    }
  }

  function LatestRevision(rows: map<nat, Revision>): (r: nat)
    ensures rows == map[] ==> r == 0
    ensures rows != map[] ==> r in rows && forall j :: j in rows ==> j <= r
  {
    if rows == map[] then 0 else
      assert exists k :: k in rows.Keys && forall j :: j in rows.Keys ==> j <= k by {
        var some :| some in rows;
        var last := LatestExists(rows.Keys, some);
      }
      var k :| k in rows.Keys && forall j :: j in rows.Keys ==> j <= k;
      k
  }

  /** The state row, created on first use; None when the client is unknown. */
  function LockState(t: Tables): Option<NodeState> {
    if !t.client then None
    else if t.state.Some? then t.state
    else Some(NodeState(LatestRevision(t.rows), 0, 0, 1, "", None, 0, "", None))
  }

  /** Commits the locked state row without any other change. */
  function Locked(t: Tables, s: NodeState): Tables {
    t.(state := Some(s))
  }

  /** Saves the row and the state under the next sequence number. */
  function Advance(t: Tables, s: NodeState, row: Revision): Tables {
    var next := s.sequence + 1;
    t.(state := Some(s.(sequence := next)), rows := t.rows[row.target.number := row.(sequence := next)])
  }

  function InstalledMode(s: NodeState, profileMode: int): int {
    if s.version == 2 && s.mode != 0 then s.mode else profileMode
  }

  function ForgetNonce(a: Option<Approval>): Option<Approval> {
    if a.Some? then Some(a.value.(nonce := "")) else None
  }

  function Supersede(row: Revision, now: int, sequence: nat): Revision {
    if Pending(row.status)
    then row.(status := Superseded, supersededAt := Some(now), approval := ForgetNonce(row.approval),
              sequence := sequence)
    else row
  }

  function SupersedeAll(rows: map<nat, Revision>, now: int, sequence: nat): map<nat, Revision> {
    map k | k in rows :: Supersede(rows[k], now, sequence)
  }

  predicate ChildrenGuarded(s: Settings) {
    s.webssh || s.execution ==> s.remote
  }

  function Classify(installed: int, settings: Settings): UpgradeClass {
    if settings.mode != installed || settings.rescue then ManualPrivileged else ManualConfirm
  }

  function NewRevision(s: NodeState, settings: Settings, installed: int): Revision {
    Revision(Target(s.desired + 1, settings, SettingsDigest(settings), false, s.applied, installed, settings.mode),
             NeedsConfirmation, None, None, None, Audit(Classify(installed, settings), 0, None), s.sequence + 1)
  }

  function ResolvedSettings(settings: Settings, installed: int): Settings {
    if settings.mode == 0 then settings.(mode := installed) else settings
  }

  /** The commit of a save: everything pending is superseded and the new row becomes the target. */
  function Saved(t: Tables, row: Revision, now: int): Tables
    requires t.state.Some?
  {
    var s := t.state.value;
    t.(rows := SupersedeAll(t.rows, now, s.sequence + 1)[s.desired + 1 := row],
       state := Some(s.(desired := s.desired + 1, sequence := s.sequence + 1)))
  }

  /** SaveWithDB: optimistic concurrency on the desired revision, then supersede every pending row. */
  function Save(t: Tables, now: int, settings: Settings, expected: nat, profileMode: int): Step
    requires t.state.Some?
  {
    var s := t.state.value;
    var installed := InstalledMode(s, profileMode);
    var resolved := ResolvedSettings(settings, installed);
    if expected != s.desired || !ChildrenGuarded(settings) || !(0 <= settings.mode <= 5)
       || resolved.mode == 0 || s.desired + 1 in t.rows
    then Refused(t)
    else Step(Saved(t, NewRevision(s, resolved, installed), now), true)
  }

  /******* Confirmation *******/

  predicate HelperInstalled(s: NodeState) {
    s.observation.Some? && s.observation.value.helperInstalled
  }

  function RequiredActions(s: NodeState, row: Revision): seq<int> {
    (if row.target.toMode != s.mode then [SET_SERVICE_IDENTITY] else [])
    + (if row.target.settings.rescue && !HelperInstalled(s) then [2] else [])
    + (if !row.target.settings.rescue && HelperInstalled(s) then [3] else [])
  }

  predicate SupportsActions(s: NodeState, required: seq<int>) {
    match s.supported
    case None => required == []
    case Some(known) => forall a :: a in required ==> a in known
  }

  predicate Unexpired(row: Revision, now: int) {
    row.approval.Some? && row.approval.value.expires.Some? && now < row.approval.value.expires.value
  }

  predicate StillConfirmed(row: Revision, now: int) {
    || row.status.Delivered?
    || (Unexpired(row, now)
        && (row.status.NeedsManualAuthorization? || row.status.AwaitingAgent? || row.status.Applying?))
  }

  predicate Confirmable(s: Status) {
    s.NeedsConfirmation? || s.Expired? || s.NeedsManualAuthorization? || s.AwaitingAgent?
  }

  function Generation(row: Revision): nat {
    if row.approval.Some? then row.approval.value.generation else 0
  }

  function NewApproval(s: NodeState, row: Revision, now: int, user: string, nonce: string): Approval {
    var generation := Generation(row) + 1;
    Approval(generation, now, user, nonce, Some(now + NONCE_LIFETIME), None,
             Authorization(row.target.number, row.target.hash, generation, s.service, row.target.toMode, nonce,
                           RequiredActions(s, row)))
  }

  function ConfirmedRow(s: NodeState, row: Revision, now: int, user: string, nonce: string): Revision {
    var automatic := RequiredActions(s, row) == [];
    row.(status := if automatic then AwaitingAgent else NeedsManualAuthorization,
         audit := row.audit.(upgradeClass := if automatic then ManualConfirm else ManualPrivileged),
         approval := Some(NewApproval(s, row, now, user, nonce)))
  }

  function Confirm(t: Tables, now: int, number: nat, user: string, nonce: string): Step
    requires t.state.Some?
  {
    var s := t.state.value;
    if number !in t.rows then Refused(t) else
    var row := t.rows[number];
    if s.desired != number || row.supersededAt.Some? || Blank(user) then Refused(t)
    else if StillConfirmed(row, now) then Step(t, true)
    else if !Confirmable(row.status) || s.version != 2 || s.service == ""
            || !SupportsActions(s, RequiredActions(s, row))
    then Refused(t)
    else Step(Advance(t, s, ConfirmedRow(s, row, now, user, nonce)), true)
  }

  /** ReportWithDB: a legacy receipt that can only stamp the arrival time. */
  function Report(t: Tables, now: int, number: nat, event: Status): Step
    requires t.state.Some?
  {
    var s := t.state.value;
    if number !in t.rows || !(event.NeedsConfirmation? || event.NeedsManualAuthorization?)
       || t.rows[number].status.Superseded?
    then Refused(t)
    else if t.rows[number].receivedAt.Some? then Step(t, true)
    else Step(Advance(t, s, t.rows[number].(receivedAt := Some(now))), true)
  }

  /** validateCurrent: the revision is the desired one, live, and approved. */
  predicate Current(s: NodeState, row: Revision) {
    && s.version == 2
    && s.desired == row.target.number && row.supersededAt.None? && !row.status.Superseded?
    && row.approval.Some?
  }

  /******* Host operations *******/

  predicate MayClaim(s: NodeState, row: Revision, now: int) {
    && row.status.NeedsManualAuthorization?
    && Unexpired(row, now)
    && row.approval.value.usedAt.None?
    && SupportsActions(s, row.approval.value.authorization.actions)
    && row.approval.value.authorization.service == s.service
  }

  function NewOperation(s: NodeState, row: Revision, now: int): Operation
    requires row.approval.Some? && row.approval.value.expires.Some?
  {
    var a := row.approval.value;
    var lease := Min(now + LEASE, a.expires.value);
    Operation(Claim(row.target.number, a.generation, a.authorization, lease, s.startup, now), PREPARED, "", "", "")
  }

  function ClaimedRow(row: Revision, now: int): Revision
    requires row.approval.Some?
  {
    row.(status := Applying, approval := Some(row.approval.value.(usedAt := Some(now))))
  }

  function Prepare(t: Tables, now: int, id: string, number: nat, generation: nat, hash: Digest, nonce: string): Step
    requires t.state.Some?
  {
    if Blank(id) || |id| > 128 then Refused(t) else
    var s := t.state.value;
    if number !in t.rows then Refused(t) else
    var row := t.rows[number];
    if !Current(s, row) || generation != Generation(row) || hash != row.target.hash
       || nonce == "" || nonce != row.approval.value.nonce
    then Refused(t)
    else if id in t.ops then
      if t.ops[id].claim.revision == number && t.ops[id].claim.generation == generation
      then Step(t, true) else Refused(t)
    else if !MayClaim(s, row, now) then Refused(t)
    else Step(Advance(t.(ops := t.ops[id := NewOperation(s, row, now)]), s, ClaimedRow(row, now)), true)
  }

  /******* Receipts *******/

  datatype Receipt = Fresh | Duplicate | Conflict

  function CheckReceipt(t: Tables, key: string, payload: Payload): Receipt {
    if Blank(key) || |key| > 128 then Conflict
    else if key !in t.receipts then Fresh
    else if t.receipts[key] == payload then Duplicate
    else Conflict
  }

  predicate LegalTransition(op: Operation, row: Revision, phase: int) {
    && op.phase < 4 && !(op.phase == LOCAL_APPLIED && phase < 4)
    && 2 <= phase <= 5 && op.phase <= phase
    && (row.status.Delivered? ==> phase == RESTORED)
    && (row.status.Failed? ==> phase > 3)
  }

  predicate MayReport(op: Operation, row: Revision, current: bool, now: int, p: HostReportMessage)
  {
    && (p.phase <= 3 ==> current && now < op.claim.lease)
    && LegalTransition(op, row, p.phase)
    && (p.phase == LOCAL_APPLIED ==> !Blank(p.operator) && !Blank(p.localAuthentication))
  }

  function ReportedOperation(op: Operation, p: HostReportMessage): Operation
  {
    op.(phase := p.phase, error := p.error, operator := p.operator, localAuthentication := p.localAuthentication)
  }

  function FailedRow(row: Revision, now: int): Revision {
    row.(status := Failed, audit := row.audit.(finishedAt := Some(now)))
  }

  predicate CurrentOperation(s: NodeState, row: Revision, op: Operation) {
    Current(s, row) && Generation(row) == op.claim.generation
  }

  function RecordReport(t: Tables, p: HostReportMessage): Tables
    requires p.operation in t.ops
  {
    t.(receipts := t.receipts[p.receipt := p],
       ops := t.ops[p.operation := ReportedOperation(t.ops[p.operation], p)])
  }

  /** ReportOperation: a stale operation may still archive a failure, which touches only its own row. */
  function HostReport(t: Tables, now: int, p: Payload): Step
    requires t.state.Some? && p.HostReportPayload?
  {
    if |p.error| > 4096 || |p.operator| > 128 || |p.localAuthentication| > 64 then Refused(t) else
    var s := t.state.value;
    if p.operation !in t.ops then Refused(t) else
    var op := t.ops[p.operation];
    match CheckReceipt(t, p.receipt, p)
    case Conflict => Refused(t)
    case Duplicate => Step(t, true)
    case Fresh =>
      if op.claim.revision !in t.rows then Refused(t) else
      var row := t.rows[op.claim.revision];
      var current := CurrentOperation(s, row, op);
      if !MayReport(op, row, current, now, p) then Refused(t)
      else if !current then Step(RecordReport(t, p), true)
      else Step(Advance(RecordReport(t, p), s, if p.phase >= 4 then FailedRow(row, now) else row), true)
  }

  /******* Observation and failure *******/

  predicate EffectiveMatches(c: Capabilities, s: Settings) {
    && c.remote == s.remote
    && c.webssh == (s.remote && s.webssh)
    && c.execution == (s.remote && s.execution)
    && (!s.gpu ==> !c.gpu && !c.detailedGpu)
    && c.rescue == s.rescue
  }

  predicate HelperMatches(o: Observation, s: Settings) {
    && o.helperAuthorized == s.rescue && o.helperInstalled == s.rescue
    && o.helperRunning == s.rescue && o.helperLeaseReady == s.rescue
  }

  predicate OperationComplete(ops: map<string, Operation>, row: Revision, o: Observation) {
    && row.approval.Some?
    && o.operation in ops
    && var op := ops[o.operation];
    && op.claim.revision == row.target.number && op.claim.generation == Generation(row) && op.phase == LOCAL_APPLIED
    && (SET_SERVICE_IDENTITY in row.approval.value.authorization.actions ==> o.startup != op.claim.priorStartup)
  }

  predicate TimelyObservation(s: NodeState, row: Revision, now: int, o: Observation)
    requires row.approval.Some?
  {
    && o.observedAt.Some?
    && row.approval.value.at <= o.observedAt.value <= now + OBSERVATION_SKEW
    && (s.observation.Some? && s.observation.value.observedAt.Some? ==>
          s.observation.value.observedAt.value <= o.observedAt.value)
  }

  predicate MayDeliver(ops: map<string, Operation>, s: NodeState, row: Revision, now: int, o: Observation) {
    && Current(s, row)
    && (row.status.Applying? || row.status.AwaitingAgent? || row.status.Delivered?)
    && o.hash == row.target.hash && o.generation == Generation(row) && o.service == s.service
    && TimelyObservation(s, row, now, o)
    && o.mode == row.target.toMode
    && (if row.approval.value.authorization.actions != []
        then OperationComplete(ops, row, o)
        else row.target.baseline || Unexpired(row, now))
    && o.capabilities.Some? && o.capabilities.value.mode == o.mode
    && EffectiveMatches(o.capabilities.value, row.target.settings)
    && HelperMatches(o, row.target.settings)
  }

  function DeliveredRow(row: Revision, now: int, o: Observation): Revision {
    row.(status := Delivered, audit := row.audit.(activeMode := o.mode, finishedAt := Some(now)))
  }

  function ObservedState(s: NodeState, o: Observation): NodeState {
    s.(applied := o.revision, observation := Some(o), mode := o.mode, startup := o.startup)
  }

  predicate PrivilegedMode(mode: int) { mode == 1 || mode == 3 }

  /** The profile follows what the daemon applied, if there is one. */
  function ObservedSite(site: Site, settings: Settings, mode: int): Site {
    match site.profile
    case None => site
    case Some(p) =>
      site.(profile := Some(p.(version := 2, remote := settings.remote, gpu := settings.gpu, rescue := settings.rescue,
                               privileged := PrivilegedMode(mode))))
  }

  /** The commit of an observation. */
  function Observed(t: Tables, now: int, key: string, o: Observation): Tables
    requires t.state.Some? && o.revision in t.rows
  {
    Advance(t.(receipts := t.receipts[key := ObservationPayload(o)],
               site := ObservedSite(t.site, t.rows[o.revision].target.settings, o.mode)),
            ObservedState(t.state.value, o), DeliveredRow(t.rows[o.revision], now, o))
  }

  /** Observe; `readable` says whether the stored deployment profile can be read. */
  function Observe(t: Tables, now: int, key: string, o: Observation, readable: bool): Step
    requires t.state.Some?
  {
    if Blank(o.startup) || |o.startup| > 128 then Refused(t) else
    var s := t.state.value;
    match CheckReceipt(t, key, ObservationPayload(o))
    case Conflict => Refused(t)
    case Duplicate => if o.revision in t.rows then Step(t, true) else Refused(t)
    case Fresh =>
      if o.revision !in t.rows || !MayDeliver(t.ops, s, t.rows[o.revision], now, o) || !readable then Refused(t)
      else Step(Observed(t, now, key, o), true)
  }

  predicate MayFail(s: NodeState, row: Revision, hash: Digest, generation: nat, detail: string) {
    && Current(s, row) && hash == row.target.hash && generation == Generation(row)
    && (row.status.AwaitingAgent? || row.status.Applying? || row.status.NeedsManualAuthorization?)
    && !Blank(detail)
  }

  function FailApply(t: Tables, now: int, number: nat, key: string, hash: Digest, generation: nat, detail: string): Step
    requires t.state.Some?
  {
    var payload := FailurePayload(number, key, hash, generation, detail);
    var s := t.state.value;
    match CheckReceipt(t, key, payload)
    case Conflict => Refused(t)
    case Duplicate => if number in t.rows then Step(t, true) else Refused(t)
    case Fresh =>
      if number !in t.rows || !MayFail(s, t.rows[number], hash, generation, detail) then Refused(t)
      else Step(Advance(t.(receipts := t.receipts[key := payload]), s, FailedRow(t.rows[number], now)), true)
  }

  /******* Negotiation, locked read and installation baseline *******/

  function Negotiate(t: Tables, service: string, startup: string, mode: int, actions: seq<int>): Step
    requires t.state.Some?
  {
    if Blank(service) || |service| > 255 || Blank(startup) || |startup| > 128 || !(1 <= mode <= 5)
       || exists a :: a in actions && !(1 <= a <= 3)
    then Refused(t) else
    var s := t.state.value;
    if s.service != "" && s.service != service then Refused(t)
    else Step(t.(state := Some(s.(version := 2, service := service, startup := startup, mode := mode,
                                  supported := Some(actions), sequence := s.sequence + 1))), true)
  }

  predicate ApprovalLapsed(row: Revision, now: int) {
    && row.approval.Some? && row.approval.value.expires.Some? && row.approval.value.expires.value <= now
    && (row.status.NeedsManualAuthorization? || row.status.AwaitingAgent?)
  }

  /** The tables after getStateTransactional: reading may expire a lapsed approval, never renew one. */
  function LockedRead(t: Tables, now: int): Step
    requires t.state.Some?
  {
    var s := t.state.value;
    if (s.desired != 0 && s.desired !in t.rows) || (s.applied != 0 && s.applied !in t.rows) then Refused(t)
    else if s.desired != 0 && ApprovalLapsed(t.rows[s.desired], now)
    then Step(Advance(t, s, t.rows[s.desired].(status := Expired)), true)
    else Step(t, true)
  }

  function BaselineRow(s: NodeState, r: BaselineRequest, now: int): Revision {
    var hash := SettingsDigest(r.settings);
    Revision(Target(1, r.settings, hash, true, 0, s.mode, s.mode), AwaitingAgent,
             Some(Approval(1, now, "local-installation", "", None, None,
                           Authorization(1, hash, 1, r.service, s.mode, "", []))),
             None, None, Audit(ManualConfirm, 0, None), 0)
  }

  predicate OrdinaryHistory(site: Site) {
    site.profile.Some? && (site.profile.value.revision != 0 || site.profile.value.applied != 0)
  }

  /** A first installation also starts the ordinary profile; a migration leaves it alone. */
  function BaselineSite(site: Site, mode: int, r: BaselineRequest, profile: Profile): Site {
    if r.preserveRuntime then site.(eligible := false) else
    Site(false, profile.monthReset,
         Some(profile.(version := 2, service := r.service, gpu := r.settings.gpu, remote := r.settings.remote,
                       privileged := profile.privileged || PrivilegedMode(mode), revision := 1, applied := 0)))
  }

  /** InitializeBaseline: at most once per node and only over an empty privileged history. */
  function InitializeBaseline(t: Tables, now: int, r: BaselineRequest, profile: Profile): Step
    requires t.state.Some?
  {
    if |r.policyHash| != 64 then Refused(t) else
    var s := t.state.value;
    if t.baseline.Some? then
      if t.baseline.value == r && 1 in t.rows then Step(t, true) else Refused(t)
    else if (!t.site.eligible && !r.preserveRuntime) || t.rows != map[] || s.desired != 0 || s.applied != 0
            || (!r.preserveRuntime && OrdinaryHistory(t.site))
    then Step(t, true)
    else if s.version != 2 || s.service != r.service || s.mode != r.settings.mode || r.settings.rescue
            || (r.preserveRuntime && (r.settings.remote || r.settings.webssh || r.settings.execution || r.settings.gpu))
            || !ChildrenGuarded(r.settings)
    then Refused(t)
    else
      Step(Advance(t, s.(desired := 1), BaselineRow(s, r, now)).(
             baseline := Some(r), site := BaselineSite(t.site, s.mode, r, profile)), true)
  }

  /******* What a reader shows *******/

  datatype Snapshot = Snapshot(
    state: NodeState, desired: Option<Revision>, applied: Option<Revision>, operation: Option<Operation>)

  predicate ForRevision(ops: map<string, Operation>, number: nat, id: string) {
    id in ops && ops[id].claim.revision == number
  }

  /** The first operation of the revision in descending creation order, if there is one. */
  predicate IsNewest(ops: map<string, Operation>, number: nat, id: string) {
    && ForRevision(ops, number, id)
    && forall x :: x in ops && ForRevision(ops, number, x) ==> ops[x].claim.createdAt <= ops[id].claim.createdAt
  }

  ghost predicate NewestOperation(ops: map<string, Operation>, number: nat, o: Option<Operation>) {
    match o
    case None => forall x :: !ForRevision(ops, number, x)
    case Some(op) => exists id :: IsNewest(ops, number, id) && ops[id] == op
  }

  /** A revision as a reader shows it: the target carries the cursor of the node. */
  function View(rows: map<nat, Revision>, s: NodeState, number: nat): Option<Revision>
    requires number != 0 ==> number in rows
  {
    if number == 0 then None
    else if number == s.desired then Some(rows[number].(sequence := s.sequence))
    else Some(rows[number])
  }

  /** The snapshot shows exactly these committed tables. */
  ghost predicate Shows(t: Tables, snap: Snapshot) {
    && t.state == Some(snap.state)
    && (snap.state.desired != 0 ==> snap.state.desired in t.rows)
    && (snap.state.applied != 0 ==> snap.state.applied in t.rows)
    && snap.desired == View(t.rows, snap.state, snap.state.desired)
    && snap.applied == View(t.rows, snap.state, snap.state.applied)
    && NewestOperation(t.ops, snap.state.desired, snap.operation)
  }

  /******* Runs *******/

  datatype Event =
    | ClientRow(present: bool, eligible: bool)
    | ProfileEvent(profile: Profile)
    | SaveEvent(now: int, settings: Settings, expected: nat, profileMode: int)
    | ConfirmEvent(now: int, number: nat, user: string, nonce: string)
    | ReportEvent(now: int, number: nat, status: Status)
    | PrepareEvent(now: int, id: string, number: nat, generation: nat, hash: Digest, nonce: string)
    | HostReportEvent(now: int, report: HostReportMessage)
    | ObserveEvent(now: int, key: string, observation: Observation, readable: bool)
    | FailEvent(now: int, number: nat, key: string, hash: Digest, generation: nat, detail: string)
    | NegotiateEvent(service: string, startup: string, mode: int, actions: seq<int>)
    | ReadEvent(now: int)
    | BaselineEvent(now: int, request: BaselineRequest, profile: Profile)

  /** What other parts of the panel do to these tables: add the client, delete it together with its
      baseline and profile, or save an ordinary profile. Revisions and receipts outlive the client. */
  function Outside(t: Tables, e: Event): Tables {
    match e
    case ClientRow(present, eligible) =>
      if present then t.(client := true, site := t.site.(eligible := eligible))
      else t.(client := false, baseline := None, site := t.site.(profile := None))
    case ProfileEvent(profile) => t.(site := t.site.(profile := Some(profile)))
    case _ => t
  }

  predicate IsOutside(e: Event) { e.ClientRow? || e.ProfileEvent? }

  /** The body of the transaction, on tables whose state row is locked. */
  function Body(t: Tables, e: Event): Step
    requires t.state.Some?
  {
    match e
    case ClientRow(_, _) => Step(Outside(t, e), true)
    case ProfileEvent(_) => Step(Outside(t, e), true)
    case SaveEvent(now, settings, expected, profileMode) => Save(t, now, settings, expected, profileMode)
    case ConfirmEvent(now, number, user, nonce) => Confirm(t, now, number, user, nonce)
    case ReportEvent(now, number, status) => Report(t, now, number, status)
    case PrepareEvent(now, id, number, generation, hash, nonce) => Prepare(t, now, id, number, generation, hash, nonce)
    case HostReportEvent(now, report) => HostReport(t, now, report)
    case ObserveEvent(now, key, o, readable) => Observe(t, now, key, o, readable)
    case FailEvent(now, number, key, hash, generation, detail) =>
      FailApply(t, now, number, key, hash, generation, detail)
    case NegotiateEvent(service, startup, mode, actions) => Negotiate(t, service, startup, mode, actions)
    case ReadEvent(now) => LockedRead(t, now)
    case BaselineEvent(now, r, profile) => InitializeBaseline(t, now, r, profile)
  }

  /** One transaction: lock or create the state row, run the body, and roll everything back on error. */
  function Transact(t: Tables, e: Event): Step {
    if IsOutside(e) then Step(Outside(t, e), true) else
    match LockState(t)
    case None => Refused(t)
    case Some(s) =>
      var r := Body(Locked(t, s), e);
      if r.ok then r else Refused(t)
  }

  function Apply(t: Tables, e: Event): Tables {
    Transact(t, e).tables
  }

  /** The tables after a list of transactions. */
  function Run(t: Tables, events: seq<Event>): Tables {
    if events == [] then t else Apply(Run(t, events[..|events| - 1]), events[|events| - 1])
  }
}
