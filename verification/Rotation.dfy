/** Refresh-credential rotation: the credential, consumed-token and policy tables, and the effect of
    each transaction on them.

    Digests are idealised: two visible tokens have the same digest exactly when they have the same
    trimmed text. A request carries the digests of what was presented; minted tokens are random
    letters and digits, which trimming leaves alone. Random tokens and clock readings are parameters,
    and sealing keeps the sealed value. */
module Rotation {
  import opened Common

  datatype Digest = NoDigest | DigestOf(text: string)

  /** The digest of a text without surrounding white space. */
  function Hash(text: string): Digest {
    if text == "" then NoDigest else DigestOf(text)
  }

  /** The digest of a token as presented. */
  function HashToken(token: string): Digest {
    Hash(TrimSpace(token))
  }

  const DAY := 86400
  const ACCESS_LIFETIME := 3600
  const RECOVERY_WINDOW := 60
  const HANDOFF_WINDOW := 60
  const LEGACY_GRACE := 600

  datatype Policy = Policy(revision: nat, idle: int, absolute: int, grace: int, warning: int)

  const DEFAULT_POLICY := Policy(1, 7, 180, 30, 14)

  predicate ValidPolicy(p: Policy) {
    && 1 <= p.idle <= 30 && 30 <= p.absolute <= 365 && p.idle <= p.absolute
    && 1 <= p.grace <= 90 && 1 <= p.warning <= 30
  }

  /** A response that carries tokens. */
  datatype Issued = Issued(
    client: string, access: string, accessExpires: int, refresh: string, refreshExpires: int,
    generation: nat, request: string, scopes: seq<string>)

  datatype Pair = Pair(access: Digest, accessExpires: int, refresh: Digest, refreshExpires: int)
  datatype Prior = Prior(access: Digest, accessUntil: Option<int>, refresh: Digest, refreshUntil: Option<int>)
  datatype Lifecycle = Lifecycle(version: nat, enrollment: Option<int>, grace: Option<int>)
  datatype Recovery = Recovery(request: Digest, sealed: Option<Issued>, until: Option<int>)

  datatype Credential = Credential(
    key: string, scopes: seq<string>, created: Option<int>, generation: nat, protocol: int,
    pair: Pair, prior: Prior, life: Lifecycle, recovery: Recovery, revoked: Option<int>)

  datatype Use = Use(client: string, generation: nat, consumedAt: int, expires: int)

  datatype Tables = Tables(creds: map<string, Credential>, uses: map<Digest, Use>, policy: Option<Policy>)

  datatype Outcome =
    | Granted(issued: Issued)
    | Done
    | Rejected
    | Conflict
    | Reuse
    | Failed

  datatype Reply = Reply(tables: Tables, outcome: Outcome)

  function Refuse(t: Tables, why: Outcome): Reply { Reply(t, why) }

  /** A request whose signature was checked against `key`. */
  datatype Proof = Proof(
    client: string, key: string, digest: Digest, request: string, requestHash: Digest,
    expected: Option<nat>, protocol: int)

  /** The two random tokens a transaction would mint. */
  datatype Mint = Mint(access: string, refresh: string)

  /******* Policy, deadlines and migration *******/

  /** The stored policy, or the default when none is stored; None when the stored one is invalid. */
  function LoadPolicy(t: Tables): Option<Policy> {
    match t.policy
    case None => Some(DEFAULT_POLICY)
    case Some(p) => if ValidPolicy(p) then Some(p) else None
  }

  function IdleDeadline(life: Lifecycle, policy: Policy, now: int): int {
    var idle := now + policy.idle * DAY;
    var extended := if life.grace.Some? then Max(idle, life.grace.value) else idle;
    if life.enrollment.Some? then Min(extended, life.enrollment.value) else extended
  }

  function MigratedLife(r: Credential, policy: Policy, now: int): Lifecycle {
    var started := if r.created.Some? then r.created.value else now;
    var grace := now + policy.grace * DAY;
    Lifecycle(1, Some(Max(started + policy.absolute * DAY, grace)), Some(grace))
  }

  /** The once-only migration of a row from before deadlines existed. */
  function Migrate(r: Credential, policy: Policy, now: int): Credential {
    if r.life.version != 0 then r else
    var life := MigratedLife(r, policy, now);
    var expiry := if r.pair.refreshExpires > now
                  then Min(r.pair.refreshExpires, IdleDeadline(life, policy, now)) else r.pair.refreshExpires;
    r.(life := life, pair := r.pair.(refreshExpires := expiry))
  }

  /** Commits one credential row together with the policy that was loaded. */
  function Stored(t: Tables, policy: Policy, client: string, r: Credential): Tables {
    t.(policy := Some(policy), creds := t.creds[client := r])
  }

  /******* Rotation *******/

  datatype Gate = Closed(why: Outcome) | Open(row: Credential, policy: Policy)

  predicate WellFormed(p: Proof) {
    p.digest.DigestOf? && p.client != "" && p.request != "" && (p.protocol == 1 || p.protocol == 2)
  }

  /** Every check before the token itself is compared. */
  function Admit(t: Tables, now: int, p: Proof): Gate {
    if p.client !in t.creds then Closed(Failed) else
    var cur := t.creds[p.client];
    if cur.revoked.Some? || cur.key != p.key || (cur.protocol >= 2 && p.protocol < 2) then Closed(Rejected) else
    match LoadPolicy(t)
    case None => Closed(Failed)
    case Some(policy) =>
      var row := Migrate(cur, policy, now);
      if row.life.enrollment.None? then Closed(Failed)
      else if now >= row.life.enrollment.value || now >= row.pair.refreshExpires then Closed(Rejected)
      else Open(row, policy)
  }

  predicate InRecovery(r: Credential, digest: Digest, now: int) {
    digest == r.prior.refresh && r.recovery.until.Some? && now < r.recovery.until.value
  }

  /** The sealed response still describes exactly the current pair and this request. */
  predicate Bound(r: Credential, client: string, request: string, i: Issued) {
    && i.client == client && i.generation == r.generation
    && Hash(i.refresh) == r.pair.refresh && Hash(i.access) == r.pair.access
    && i.accessExpires == r.pair.accessExpires && i.refreshExpires == r.pair.refreshExpires
    && i.request == request
  }

  function Recover(t: Tables, row: Credential, policy: Policy, p: Proof): Reply {
    if row.recovery.request != p.requestHash then Refuse(t, Conflict)
    else if row.recovery.sealed.None? || !Bound(row, p.client, p.request, row.recovery.sealed.value)
    then Refuse(t, Failed)
    else if p.expected.Some? && p.expected.value + 1 != row.generation then Refuse(t, Conflict)
    else Reply(Stored(t, policy, p.client, row), Granted(row.recovery.sealed.value))
  }

  function Condemned(r: Credential, now: int): Credential {
    r.(revoked := Some(now), recovery := r.recovery.(sealed := None, until := None))
  }

  /** A token that is neither current nor recoverable: reuse revokes, everything else is refused. */
  function Replay(t: Tables, now: int, row: Credential, policy: Policy, p: Proof): Reply {
    if p.digest !in t.uses || t.uses[p.digest].client != p.client || p.protocol < 2 then Refuse(t, Rejected)
    else Reply(Stored(t, policy, p.client, Condemned(row, now)), Reuse)
  }

  function Successor(r: Credential, policy: Policy, now: int, p: Proof, m: Mint): Issued
    requires r.life.enrollment.Some?
  {
    Issued(p.client, m.access, Min(now + ACCESS_LIFETIME, r.life.enrollment.value), m.refresh,
           IdleDeadline(r.life, policy, now), r.generation + 1, p.request, r.scopes)
  }

  function RotatedRow(r: Credential, now: int, p: Proof, i: Issued): Credential {
    var until := now + (if p.protocol == 1 then LEGACY_GRACE else RECOVERY_WINDOW);
    r.(generation := i.generation, protocol := p.protocol,
       pair := Pair(Hash(i.access), i.accessExpires, Hash(i.refresh), i.refreshExpires),
       prior := Prior(r.pair.access, Some(Min(now + HANDOFF_WINDOW, r.pair.accessExpires)), r.pair.refresh,
                      Some(until)),
       recovery := Recovery(p.requestHash, Some(i), Some(until)))
  }

  /** The commit of a rotation: the consumed token is recorded and the row moves one generation on. */
  function Rotated(t: Tables, now: int, row: Credential, policy: Policy, p: Proof, i: Issued): Tables
    requires row.life.enrollment.Some?
  {
    Stored(t, policy, p.client, RotatedRow(row, now, p, i)).(
      uses := t.uses[row.pair.refresh := Use(p.client, row.generation, now, row.life.enrollment.value)])
  }

  function Exchange(t: Tables, now: int, row: Credential, policy: Policy, p: Proof, m: Mint): Reply
    requires row.life.enrollment.Some?
  {
    if p.expected.Some? && p.expected.value != row.generation then Refuse(t, Conflict)
    else if p.protocol == 2 && row.protocol >= 2 && p.expected.None? then Refuse(t, Conflict)
    else if m.access == "" || m.refresh == "" || row.pair.refresh in t.uses then Refuse(t, Failed)
    else
      var i := Successor(row, policy, now, p, m);
      Reply(Rotated(t, now, row, policy, p, i), Granted(i))
  }

  /** Past the gate: exchange the current token, recover the previous one, or treat it as a replay. */
  function Present(t: Tables, now: int, row: Credential, policy: Policy, p: Proof, m: Mint): Reply
    requires row.life.enrollment.Some?
  {
    if p.digest == row.pair.refresh then Exchange(t, now, row, policy, p, m)
    else if InRecovery(row, p.digest, now) then Recover(t, row, policy, p)
    else Replay(t, now, row, policy, p)
  }

  /** rotateVerifiedDB: one transaction. */
  function Rotate(t: Tables, now: int, p: Proof, m: Mint): Reply {
    if !WellFormed(p) then Refuse(t, Rejected) else
    match Admit(t, now, p)
    case Closed(why) => Refuse(t, why)
    case Open(row, policy) => Present(t, now, row, policy, p, m)
  }

  /******* Issue, revoke, reapprove, clean up *******/

  function FreshPair(m: Mint, policy: Policy, now: int): Pair {
    var absolute := now + policy.absolute * DAY;
    Pair(Hash(m.access), Min(now + ACCESS_LIFETIME, absolute), Hash(m.refresh), Min(now + policy.idle * DAY, absolute))
  }

  function EnrolledRow(existing: Option<Credential>, now: int, key: string, scopes: seq<string>, policy: Policy,
                       m: Mint): Credential {
    var life := Lifecycle(1, Some(now + policy.absolute * DAY), None);
    match existing
    case None =>
      Credential(key, scopes, Some(now), 0, 0, FreshPair(m, policy, now), Prior(NoDigest, None, NoDigest, None), life,
                 Recovery(NoDigest, None, None), None)
    case Some(r) =>
      Credential(key, scopes, r.created, r.generation + 1, 0, FreshPair(m, policy, now),
                 Prior(NoDigest, None, NoDigest, Some(now + LEGACY_GRACE)), life, Recovery(NoDigest, None, None), None)
  }

  function Find(t: Tables, client: string): Option<Credential> {
    if client in t.creds then Some(t.creds[client]) else None
  }

  function Enrolled(t: Tables, now: int, client: string, key: string, scopes: seq<string>, policy: Policy,
                    m: Mint): Tables {
    var uses := if client in t.creds then map d | d in t.uses && t.uses[d].client != client :: t.uses[d] else t.uses;
    Stored(t, policy, client, EnrolledRow(Find(t, client), now, key, scopes, policy, m)).(uses := uses)
  }

  function EnrollmentReply(client: string, m: Mint, pair: Pair, scopes: seq<string>): Issued {
    Issued(client, m.access, pair.accessExpires, m.refresh, pair.refreshExpires, 0, "", scopes)
  }

  /** issueLocked: a new pair on approval of a device, refused for a revoked row under the same key. */
  function Issue(t: Tables, now: int, client: string, key: string, scopes: seq<string>, m: Mint): Reply {
    if m.access == "" || m.refresh == "" then Refuse(t, Failed) else
    match LoadPolicy(t)
    case None => Refuse(t, Failed)
    case Some(policy) =>
      if client in t.creds && t.creds[client].revoked.Some? && t.creds[client].key == key then Refuse(t, Failed)
      else Reply(Enrolled(t, now, client, key, scopes, policy, m),
                 Granted(EnrollmentReply(client, m, FreshPair(m, policy, now), scopes)))
  }

  function RevokedRow(r: Credential, now: int): Credential {
    r.(revoked := Some(now), recovery := Recovery(NoDigest, None, None))
  }

  function Revoke(t: Tables, now: int, client: string): Tables {
    if client in t.creds then t.(creds := t.creds[client := RevokedRow(t.creds[client], now)]) else t
  }

  function CleanedRow(r: Credential, now: int): Credential {
    if r.recovery.until.Some? && r.recovery.until.value <= now && r.recovery.sealed.Some?
    then r.(recovery := r.recovery.(sealed := None, request := NoDigest)) else r
  }

  function Cleanup(t: Tables, now: int): Tables {
    t.(creds := map c | c in t.creds :: CleanedRow(t.creds[c], now),
       uses := map d | d in t.uses && t.uses[d].expires > now :: t.uses[d])
  }

  function ReapprovedRow(r: Credential, policy: Policy, now: int): Credential {
    var absolute := now + policy.absolute * DAY;
    r.(life := Lifecycle(1, Some(absolute), None),
       pair := r.pair.(refreshExpires := Min(now + policy.idle * DAY, absolute)))
  }

  /** reapproveCredentialDB; the key fingerprint is idealised as the key. */
  function Reapprove(t: Tables, now: int, client: string, expected: nat, fingerprint: string): Reply {
    if client !in t.creds then Refuse(t, Failed) else
    var r := t.creds[client];
    if r.generation != expected || r.key != fingerprint then Refuse(t, Conflict)
    else if r.revoked.Some? || (r.recovery.until.Some? && now < r.recovery.until.value) then Refuse(t, Failed)
    else
      match LoadPolicy(t)
      case None => Refuse(t, Failed)
      case Some(policy) => Reply(Stored(t, policy, client, ReapprovedRow(r, policy, now)), Done)
  }

  function Initialize(t: Tables, now: int): Reply {
    match LoadPolicy(t)
    case None => Refuse(t, Failed)
    case Some(policy) =>
      Reply(t.(policy := Some(policy), creds := map c | c in t.creds :: Migrate(t.creds[c], policy, now)), Done)
  }

  /** The default row is stored even when the edit itself loses the race on its revision. */
  function SavePolicy(t: Tables, p: Policy): Reply {
    if !ValidPolicy(p) then Refuse(t, Failed) else
    match LoadPolicy(t)
    case None => Refuse(t, Failed)
    case Some(current) =>
      if current.revision != p.revision then Reply(t.(policy := Some(current)), Conflict)
      else Reply(t.(policy := Some(p.(revision := p.revision + 1))), Done)
  }

  /******* Reading *******/

  predicate MatchesAccess(r: Credential, digest: Digest, now: int) {
    || r.pair.access == digest
    || (r.prior.access == digest && r.prior.accessUntil.Some? && r.prior.accessUntil.value > now)
  }

  predicate AccessLive(r: Credential, now: int) {
    && r.revoked.None?
    && (r.life.enrollment.Some? ==> now < r.life.enrollment.value)
    && (r.life.version > 0 ==> now < r.pair.refreshExpires)
    && now < r.pair.accessExpires
  }

  /** ResolveAccessToken answers this client: some matching row passes every check. */
  predicate Resolves(t: Tables, digest: Digest, now: int, client: string) {
    && digest.DigestOf? && client in t.creds
    && MatchesAccess(t.creds[client], digest, now) && AccessLive(t.creds[client], now)
  }

  /** lookupRefresh may answer this client's row. */
  predicate LookupFinds(t: Tables, digest: Digest, client: string) {
    && digest.DigestOf? && client in t.creds
    && (t.creds[client].pair.refresh == digest || t.creds[client].prior.refresh == digest
        || (digest in t.uses && t.uses[digest].client == client))
  }

  /******* Runs *******/

  datatype Event =
    | IssueEvent(now: int, client: string, key: string, scopes: seq<string>, mint: Mint)
    | RotateEvent(now: int, proof: Proof, mint: Mint)
    | RevokeEvent(now: int, client: string)
    | CleanupEvent(now: int)
    | ReapproveEvent(now: int, client: string, expected: nat, fingerprint: string)
    | InitializeEvent(now: int)
    | PolicyEvent(policy: Policy)

  function Transact(t: Tables, e: Event): Reply {
    match e
    case IssueEvent(now, client, key, scopes, m) => Issue(t, now, client, key, scopes, m)
    case RotateEvent(now, p, m) => Rotate(t, now, p, m)
    case RevokeEvent(now, client) => Reply(Revoke(t, now, client), Done)
    case CleanupEvent(now) => Reply(Cleanup(t, now), Done)
    case ReapproveEvent(now, client, expected, fingerprint) => Reapprove(t, now, client, expected, fingerprint)
    case InitializeEvent(now) => Initialize(t, now)
    case PolicyEvent(policy) => SavePolicy(t, policy)
  }

  /** One successful refresh: who presented which token, and the pair that came back. */
  datatype Grant = Grant(client: string, digest: Digest, issued: Issued)

  /** The tables with the whole past: the owner of every token ever minted and every successful refresh. */
  datatype World = World(tables: Tables, minted: map<Digest, string>, grants: set<Grant>)

  function Owner(e: Event): string {
    match e
    case IssueEvent(_, client, _, _, _) => client
    case RotateEvent(_, p, _) => p.client
    case RevokeEvent(_, client) => client
    case ReapproveEvent(_, client, _, _) => client
    case _ => ""
  }

  function Minted(minted: map<Digest, string>, client: string, access: string, refresh: string): map<Digest, string> {
    minted[Hash(access) := client][Hash(refresh) := client]
  }

  function After(w: World, e: Event): World {
    var r := Transact(w.tables, e);
    if !r.outcome.Granted? then w.(tables := r.tables) else
    World(r.tables,
          Minted(w.minted, Owner(e), r.outcome.issued.access, r.outcome.issued.refresh),
          if e.RotateEvent? then w.grants + {Grant(e.proof.client, e.proof.digest, r.outcome.issued)} else w.grants)
  }

  /** Random tokens, when generation succeeds, are visible, different, and never minted before. */
  predicate FreshMint(minted: map<Digest, string>, m: Mint) {
    && Hash(m.access).DigestOf? && Hash(m.refresh).DigestOf? && Hash(m.access) != Hash(m.refresh)
    && Hash(m.access) !in minted && Hash(m.refresh) !in minted
  }

  predicate Random(w: World, e: Event) {
    match e
    case IssueEvent(_, _, _, _, m) => m.access != "" && m.refresh != "" ==> FreshMint(w.minted, m)
    case RotateEvent(_, _, m) => m.access != "" && m.refresh != "" ==> FreshMint(w.minted, m)
    case _ => true
  }
}
