/** The rotation procedures as they run, each proved to be one transaction of Rotation. */
module RotationStore {
  import opened Common
  import opened Rotation
  import RotationInvariants

  /** One try of a rotation: its clock, its random tokens, whether the database was busy, and whether
      the caller gave up meanwhile. */
  datatype Attempt = Attempt(now: int, mint: Mint, busy: bool, cancelled: bool)

  const ATTEMPTS := 6

  /** Every earlier try found the database busy and nobody cancelled. */
  predicate Reaches(attempts: seq<Attempt>, k: nat)
    requires k <= |attempts|
  {
    forall j :: 0 <= j < k ==> attempts[j].busy && !attempts[j].cancelled
  }

  class CredentialStore {
    var creds: map<string, Credential>
    var uses: map<Digest, Use>
    var policy: Option<Policy>

    ghost function Contents(): Tables
      reads this
    {
      Tables(creds, uses, policy)
    }

    constructor (t: Tables)
      ensures Contents() == t
    {
      creds, uses, policy := t.creds, t.uses, t.policy;
    }

    method LoadPolicyRow() returns (p: Option<Policy>)
      ensures p == LoadPolicy(Contents())
    {
      var stored := if policy.None? then DEFAULT_POLICY else policy.value;
      if !ValidPolicy(stored) { return None; }
      return Some(stored);
    }

    method MigrateRow(r: Credential, p: Policy, now: int) returns (m: Credential)
      ensures m == Migrate(r, p, now)
    {
      if r.life.version != 0 { return r; }
      var started := if r.created.None? then now else r.created.value;
      var grace := now + p.grace * DAY;
      var absolute := started + p.absolute * DAY;
      if absolute < grace { absolute := grace; }
      m := r.(life := Lifecycle(1, Some(absolute), Some(grace)));
      var expiry := m.pair.refreshExpires;
      if expiry > now { expiry := Min(expiry, IdleDeadline(m.life, p, now)); }
      m := m.(pair := m.pair.(refreshExpires := expiry));
    }

    /** The checks before the token is compared. */
    method AdmitRow(now: int, p: Proof) returns (g: Gate)
      ensures g == Admit(Contents(), now, p)
    {
      if p.client !in creds { return Closed(Failed); }
      var cur := creds[p.client];
      if cur.revoked.Some? { return Closed(Rejected); }
      if cur.key != p.key { return Closed(Rejected); }
      if cur.protocol >= 2 && p.protocol < 2 { return Closed(Rejected); }
      var loaded := LoadPolicyRow();
      if loaded.None? { return Closed(Failed); }
      var row := MigrateRow(cur, loaded.value, now);
      if row.life.enrollment.None? { return Closed(Failed); }
      if now >= row.life.enrollment.value { return Closed(Rejected); }
      if now >= row.pair.refreshExpires { return Closed(Rejected); }
      return Open(row, loaded.value);
    }

    /** Writes back one row with the loaded policy. */
    method Write(client: string, row: Credential, p: Policy)
      modifies this`creds, this`policy
      ensures Contents() == Stored(old(Contents()), p, client, row)
    {
      policy := Some(p);
      creds := creds[client := row];
    }

    /** The current token: mint the successor and record the consumed one. */
    method ExchangeToken(now: int, row: Credential, pol: Policy, p: Proof, m: Mint) returns (out: Outcome)
      requires row.life.enrollment.Some?
      modifies this
      ensures Reply(Contents(), out) == Exchange(old(Contents()), now, row, pol, p, m)
    {
      if p.expected.Some? && p.expected.value != row.generation { return Conflict; }
      if p.protocol == 2 && row.protocol >= 2 && p.expected.None? { return Conflict; }
      if m.access == "" || m.refresh == "" { return Failed; }
      var enrollment := row.life.enrollment.value;
      var until := now + RECOVERY_WINDOW;
      if p.protocol == 1 { until := now + LEGACY_GRACE; }
      var previousAccessUntil := now + HANDOFF_WINDOW;
      if row.pair.accessExpires < previousAccessUntil { previousAccessUntil := row.pair.accessExpires; }
      var issued := Issued(p.client, m.access, Min(now + ACCESS_LIFETIME, enrollment), m.refresh,
                           IdleDeadline(row.life, pol, now), row.generation + 1, p.request, row.scopes);
      if row.pair.refresh in uses { return Failed; }
      uses := uses[row.pair.refresh := Use(p.client, row.generation, now, enrollment)];
      var next := row.(generation := issued.generation, protocol := p.protocol);
      next := next.(pair := Pair(Hash(m.access), issued.accessExpires, Hash(m.refresh), issued.refreshExpires));
      next := next.(prior := Prior(row.pair.access, Some(previousAccessUntil), row.pair.refresh, Some(until)));
      next := next.(recovery := Recovery(p.requestHash, Some(issued), Some(until)));
      assert next == RotatedRow(row, now, p, issued);
      Write(p.client, next, pol);
      return Granted(issued);
    }

    method RecoverResponse(row: Credential, pol: Policy, p: Proof) returns (out: Outcome)
      modifies this
      ensures Reply(Contents(), out) == Recover(old(Contents()), row, pol, p)
    {
      if row.recovery.request != p.requestHash { return Conflict; }
      if row.recovery.sealed.None? { return Failed; }
      var issued := row.recovery.sealed.value;
      if issued.client != p.client || issued.generation != row.generation || Hash(issued.refresh) != row.pair.refresh
         || Hash(issued.access) != row.pair.access || issued.accessExpires != row.pair.accessExpires
         || issued.refreshExpires != row.pair.refreshExpires || issued.request != p.request { return Failed; }
      if p.expected.Some? && p.expected.value + 1 != row.generation { return Conflict; }
      Write(p.client, row, pol);
      return Granted(issued);
    }

    method DetectReplay(now: int, row: Credential, pol: Policy, p: Proof) returns (out: Outcome)
      modifies this
      ensures Reply(Contents(), out) == Replay(old(Contents()), now, row, pol, p)
    {
      if p.digest !in uses || uses[p.digest].client != p.client { return Rejected; }
      if p.protocol < 2 { return Rejected; }
      var next := row.(revoked := Some(now));
      next := next.(recovery := next.recovery.(sealed := None, until := None));
      Write(p.client, next, pol);
      return Reuse;
    }

    /** One transaction of rotateVerifiedDB. */
    method RotateOnce(now: int, p: Proof, m: Mint) returns (out: Outcome)
      modifies this
      requires WellFormed(p)
      ensures Reply(Contents(), out) == Rotate(old(Contents()), now, p, m)
    {
      var gate := AdmitRow(now, p);
      match gate {
        case Closed(why) => return why;
        case Open(row, pol) =>
          if p.digest != row.pair.refresh {
            if p.digest == row.prior.refresh && row.recovery.until.Some? && now < row.recovery.until.value {
              out := RecoverResponse(row, pol, p);
            } else {
              out := DetectReplay(now, row, pol, p);
            }
          } else {
            out := ExchangeToken(now, row, pol, p, m);
          }
      }
    }

    /** rotateVerifiedDB with its retries: however often the database is busy, at most one transaction
        takes effect, namely that of the first try that finds it free. */
    method RotateProof(p: Proof, attempts: seq<Attempt>) returns (out: Outcome)
      requires |attempts| == ATTEMPTS
      modifies this
      ensures forall k :: 0 <= k < ATTEMPTS && Reaches(attempts, k) && !attempts[k].busy ==>
                Reply(Contents(), out) == Rotate(old(Contents()), attempts[k].now, p, attempts[k].mint)
      ensures (forall k :: 0 <= k < ATTEMPTS && Reaches(attempts, k) ==> attempts[k].busy) ==>
                Contents() == old(Contents()) && !out.Granted? && !out.Reuse?
    {
      if p.digest.NoDigest? || p.client == "" || p.request == "" || (p.protocol != 1 && p.protocol != 2) {
        return Rejected;
      }
      for attempt := 0 to ATTEMPTS
        invariant Reaches(attempts, attempt)
        invariant Contents() == old(Contents())
      {
        if !attempts[attempt].busy {
          out := RotateOnce(attempts[attempt].now, p, attempts[attempt].mint);
          return;
        }
        if attempts[attempt].cancelled { return Failed; }
      }
      return Conflict;
    }

    /** The same, from the token and request as presented. */
    method RotateVerified(client: string, key: string, token: string, request: string, expected: Option<nat>,
                          protocol: int,
                          attempts: seq<Attempt>)
      returns (out: Outcome, ghost p: Proof)
      requires |attempts| == ATTEMPTS
      modifies this
      ensures p == Proof(client, key, HashToken(token), request, HashToken(request), expected, protocol)
      ensures forall k :: 0 <= k < ATTEMPTS && Reaches(attempts, k) && !attempts[k].busy ==>
                Reply(Contents(), out) == Rotate(old(Contents()), attempts[k].now, p, attempts[k].mint)
    {
      var digest, requestHash := HashToken(token), HashToken(request);
      p := Proof(client, key, digest, request, requestHash, expected, protocol);
      out := RotateProof(Proof(client, key, digest, request, requestHash, expected, protocol), attempts);
    }

    /** issueLocked. */
    method IssueCredential(now: int, client: string, key: string, scopes: seq<string>, m: Mint) returns (out: Outcome)
      modifies this
      ensures Reply(Contents(), out) == Issue(old(Contents()), now, client, key, scopes, m)
    {
      if m.access == "" || m.refresh == "" { return Failed; }
      var loaded := LoadPolicyRow();
      if loaded.None? { return Failed; }
      var p := loaded.value;
      var absolute := now + p.absolute * DAY;
      var accessExpiry := Min(now + ACCESS_LIFETIME, absolute);
      var refreshExpiry := Min(now + p.idle * DAY, absolute);
      var pair := Pair(Hash(m.access), accessExpiry, Hash(m.refresh), refreshExpiry);
      var row: Credential;
      if client in creds {
        var existing := creds[client];
        if existing.revoked.Some? && existing.key == key { return Failed; }
        row := Credential(key, scopes, existing.created, existing.generation + 1, 0, pair,
                          Prior(NoDigest, None, NoDigest, Some(now + LEGACY_GRACE)), Lifecycle(1, Some(absolute), None),
                          Recovery(NoDigest, None, None), None);
        uses := map d | d in uses && uses[d].client != client :: uses[d];
      } else {
        row := Credential(key, scopes, Some(now), 0, 0, pair, Prior(NoDigest, None, NoDigest, None),
                          Lifecycle(1, Some(absolute), None), Recovery(NoDigest, None, None), None);
      }
      Write(client, row, p);
      return Granted(Issued(client, m.access, accessExpiry, m.refresh, refreshExpiry, 0, "", scopes));
    }

    method RevokeCredential(now: int, client: string)
      modifies this`creds
      ensures Contents() == Revoke(old(Contents()), now, client)
    {
      if client in creds {
        var row := creds[client];
        row := row.(revoked := Some(now));
        row := row.(recovery := Recovery(NoDigest, None, None));
        creds := creds[client := row];
      }
    }

    /** reapproveCredentialDB. */
    method ReapproveCredential(now: int, client: string, expected: nat, fingerprint: string) returns (out: Outcome)
      modifies this
      ensures Reply(Contents(), out) == Reapprove(old(Contents()), now, client, expected, fingerprint)
    {
      if client !in creds { return Failed; }
      var row := creds[client];
      if row.generation != expected || row.key != fingerprint { return Conflict; }
      if row.revoked.Some? { return Failed; }
      if row.recovery.until.Some? && now < row.recovery.until.value { return Failed; }
      var loaded := LoadPolicyRow();
      if loaded.None? { return Failed; }
      var absolute := now + loaded.value.absolute * DAY;
      var idle := Min(now + loaded.value.idle * DAY, absolute);
      row := row.(life := Lifecycle(1, Some(absolute), None));
      row := row.(pair := row.pair.(refreshExpires := idle));
      Write(client, row, loaded.value);
      return Done;
    }

    /** initializeLifecycleDB: migrate rows until none from before deadlines is left. */
    method InitializeLifecycle(now: int) returns (out: Outcome)
      modifies this
      ensures Reply(Contents(), out) == Initialize(old(Contents()), now)
    {
      var loaded := LoadPolicyRow();
      if loaded.None? { return Failed; }
      var p := loaded.value;
      policy := Some(p);
      ghost var before := creds;
      ghost var left := creds.Keys;
      while exists c :: c in creds && creds[c].life.version == 0
        invariant Contents() == old(Contents()).(policy := Some(p), creds := creds)
        invariant creds.Keys == before.Keys && left <= creds.Keys
        invariant forall c :: c in creds ==>
                    || (creds[c] == before[c] && c in left)
                    || (creds[c] == Migrate(before[c], p, now) && creds[c].life.version != 0)
        decreases left
      {
        var c :| c in creds && creds[c].life.version == 0;
        var row := MigrateRow(creds[c], p, now);
        creds := creds[c := row];
        left := left - {c};
      }
      assert creds == map c | c in before :: Migrate(before[c], p, now);
      return Done;
    }

    /** cleanupLifecycleDB. What is still recoverable and what can still be recognised as reuse stays:
        only sealed responses past their window and use records past their chain's deadline go. */
    method CleanupLifecycle(now: int)
      modifies this`creds, this`uses
      ensures creds.Keys == old(creds).Keys
      ensures forall c :: c in creds ==>
                && creds[c] == old(creds)[c].(recovery := creds[c].recovery)
                && creds[c].recovery.until == old(creds)[c].recovery.until
                && (creds[c].recovery != old(creds)[c].recovery ==> creds[c].recovery.sealed.None?)
      ensures forall c :: c in creds && creds[c].recovery.sealed.Some? && creds[c].recovery.until.Some? ==>
                now < creds[c].recovery.until.value
      ensures forall c, d, t :: c in creds && t >= now && InRecovery(old(creds)[c], d, t) ==> creds[c] == old(creds)[c]
      ensures forall d :: d in uses <==> d in old(uses) && now < old(uses)[d].expires
      ensures forall d :: d in uses ==> uses[d] == old(uses)[d]
      ensures Contents() == Cleanup(old(Contents()), now)
    {
      creds := map c | c in creds :: ForgetExpired(creds[c], now);
      uses := map d | d in uses && now < uses[d].expires :: uses[d];
    }

    function ForgetExpired(r: Credential, now: int): Credential {
      if r.recovery.until.Some? && r.recovery.until.value <= now && r.recovery.sealed.Some?
      then r.(recovery := Recovery(NoDigest, None, r.recovery.until)) else r
    }

    /** SaveCredentialPolicy. */
    method SaveCredentialPolicy(p: Policy) returns (out: Outcome)
      modifies this`policy
      ensures Reply(Contents(), out) == SavePolicy(old(Contents()), p)
    {
      if !ValidPolicy(p) { return Failed; }
      var loaded := LoadPolicyRow();
      if loaded.None? { return Failed; }
      policy := loaded;
      if loaded.value.revision != p.revision { return Conflict; }
      policy := Some(p.(revision := p.revision + 1));
      return Done;
    }

    /** ResolveAccessToken: any row the query may return first gives the same answer, because at most
        one row matches. */
    method ResolveAccessToken(token: string, now: int, ghost w: World) returns (r: Option<string>)
      requires w.tables == Contents() && RotationInvariants.Inv(w)
      ensures forall c :: r == Some(c) <==> Resolves(Contents(), HashToken(token), now, c)
    {
      var digest := HashToken(token);
      if digest.NoDigest? { return None; }
      if client :| client in creds && MatchesAccess(creds[client], digest, now) {
        forall c | c in creds && MatchesAccess(creds[c], digest, now) ensures c == client {
          MatchesOwner(w, digest, now, c);
          MatchesOwner(w, digest, now, client);
        }
        var row := creds[client];
        if row.revoked.Some? { return None; }
        if (row.life.enrollment.Some? && now >= row.life.enrollment.value)
           || (row.life.version > 0 && now >= row.pair.refreshExpires) { return None; }
        if now >= row.pair.accessExpires { return None; }
        return Some(client);
      }
      return None;
    }
  }

  lemma MatchesOwner(w: World, d: Digest, now: int, c: string)
    requires RotationInvariants.Inv(w) && d.DigestOf? && c in w.tables.creds && MatchesAccess(w.tables.creds[c], d, now)
    ensures RotationInvariants.Owned(w.minted, d, c)
  {
    assert RotationInvariants.RowOk(c, w.tables.creds[c], w);
  }
}
