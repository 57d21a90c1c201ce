/** What each transaction of credential rotation answers and leaves, in the terms of its caller: which
    requests are refused and why, what a response says, and what every column of the row then holds. */
module RotationContracts {
  import opened Common
  import opened Rotation
  import opened RotationInvariants
  import opened RotationTheorems

  /******* The policy and the deadlines *******/

  /** The policy a transaction works under: the stored one if it is in range, or the default of 7, 180, 30 and
      14 days when none is stored. */
  ghost predicate InForce(t: Tables, policy: Policy) {
    match t.policy
    case None => policy == Policy(1, 7, 180, 30, 14)
    case Some(stored) =>
      && policy == stored && 1 <= stored.idle <= 30 && 30 <= stored.absolute <= 365 && stored.idle <= stored.absolute
      && 1 <= stored.grace <= 90 && 1 <= stored.warning <= 30
  }

  lemma PolicyInForce(t: Tables, policy: Policy)
    ensures LoadPolicy(t) == Some(policy) <==> InForce(t, policy)
  {
  }

  /** The idle deadline: so many days from now, not before a migration's grace, never after the enrollment. */
  ghost predicate IdleUntil(life: Lifecycle, policy: Policy, now: int, deadline: int) {
    var idle := now + 86400 * policy.idle;
    var graced := if life.grace.Some? && idle < life.grace.value then life.grace.value else idle;
    deadline == if life.enrollment.Some? && life.enrollment.value < graced then life.enrollment.value else graced
  }

  /** The row with its deadlines. One from before deadlines existed gets the absolute deadline of its age, but
      at least the grace, and keeps its own refresh deadline when that is over or earlier. */
  ghost predicate BroughtForward(a: Credential, b: Credential, policy: Policy, now: int) {
    if a.life.version != 0 then b == a else
    && b == a.(life := b.life, pair := a.pair.(refreshExpires := b.pair.refreshExpires))
    && b.life.version == 1 && b.life.grace == Some(now + 86400 * policy.grace) && b.life.enrollment.Some?
    && var aged := (if a.created.Some? then a.created.value else now) + 86400 * policy.absolute;
    && aged <= b.life.enrollment.value && b.life.grace.value <= b.life.enrollment.value
    && b.life.enrollment.value in {aged, b.life.grace.value}
    && (if a.pair.refreshExpires <= now then b.pair.refreshExpires == a.pair.refreshExpires
        else exists idle :: IdleUntil(b.life, policy, now, idle)
                            && b.pair.refreshExpires <= a.pair.refreshExpires && b.pair.refreshExpires <= idle
                            && b.pair.refreshExpires in {a.pair.refreshExpires, idle})
  }

  lemma MigratedIsForward(r: Credential, policy: Policy, now: int)
    ensures BroughtForward(r, Migrate(r, policy, now), policy, now)
  {
    if r.life.version == 0 {
      var life := MigratedLife(r, policy, now);
      assert IdleUntil(life, policy, now, IdleDeadline(life, policy, now));
    }
  }

  /******* Presenting a refresh token *******/

  predicate Shaped(p: Proof) { p.digest != NoDigest && p.client != "" && p.request != "" && p.protocol in {1, 2} }

  /** The machine is enrolled under this key, not revoked, not upgraded past this protocol, and neither its
      enrollment nor its refresh token has run out. */
  ghost predicate Passes(t: Tables, now: int, p: Proof, row: Credential, policy: Policy) {
    && p.client in t.creds && InForce(t, policy)
    && var stored := t.creds[p.client];
    && stored.revoked.None? && stored.key == p.key && (stored.protocol >= 2 ==> p.protocol >= 2)
    && row == Migrate(stored, policy, now)
    && row.life.enrollment.Some? && now < row.life.enrollment.value && now < row.pair.refreshExpires
  }

  lemma GateIff(t: Tables, now: int, p: Proof, row: Credential, policy: Policy)
    ensures Admit(t, now, p) == Open(row, policy) <==> Passes(t, now, p, row, policy)
  {
    PolicyInForce(t, policy);
  }

  /** Every refusal before the token is looked at, in order, and none of them changes anything. */
  lemma RefusedAtTheGate(t: Tables, now: int, p: Proof, m: Mint)
    ensures var r := Rotate(t, now, p, m);
            && (!Shaped(p) ==> r == Reply(t, Rejected))
            && (Shaped(p) && p.client !in t.creds ==> r == Reply(t, Failed))
            && (Shaped(p) && p.client in t.creds ==>
                  var stored := t.creds[p.client];
                  if stored.revoked.Some? || stored.key != p.key || (stored.protocol >= 2 && p.protocol < 2)
                  then r == Reply(t, Rejected)
                  else if t.policy.Some? && !InForce(t, t.policy.value) then r == Reply(t, Failed)
                  else forall policy :: InForce(t, policy) ==>
                         var row := Migrate(stored, policy, now);
                         && (row.life.enrollment.None? ==> r == Reply(t, Failed))
                         && (row.life.enrollment.Some?
                             && (row.life.enrollment.value <= now || row.pair.refreshExpires <= now) ==>
                               r == Reply(t, Rejected)))
  {
    forall policy | InForce(t, policy) ensures LoadPolicy(t) == Some(policy) { PolicyInForce(t, policy); }
  }

  /** The request names the generation it refreshes; only a row that has not been upgraded may go without. */
  predicate Expects(row: Credential, p: Proof) {
    match p.expected
    case Some(g) => g == row.generation
    case None => p.protocol != 2 || row.protocol < 2
  }

  /** The response of a rotation. */
  ghost predicate Responds(row: Credential, policy: Policy, now: int, p: Proof, m: Mint, i: Issued)
    requires row.life.enrollment.Some?
  {
    && i.client == p.client && i.access == m.access && i.refresh == m.refresh && i.generation == row.generation + 1
    && i.request == p.request && i.scopes == row.scopes
    && i.accessExpires <= now + 3600 && i.accessExpires <= row.life.enrollment.value
    && i.accessExpires in {now + 3600, row.life.enrollment.value}
    && IdleUntil(row.life, policy, now, i.refreshExpires)
  }

  /** The row after a rotation: the new pair, the old refresh token for recovery and the old access token for
      hand-over, both for a minute (a legacy client may recover for ten), and the response sealed. */
  ghost predicate MovedOn(a: Credential, b: Credential, now: int, p: Proof, i: Issued) {
    && b.key == a.key && b.scopes == a.scopes && b.created == a.created && b.life == a.life && b.revoked == a.revoked
    && b.generation == i.generation && b.protocol == p.protocol
    && b.pair == Pair(Hash(i.access), i.accessExpires, Hash(i.refresh), i.refreshExpires)
    && b.prior.access == a.pair.access && b.prior.refresh == a.pair.refresh
    && b.prior.accessUntil.Some? && b.prior.accessUntil.value <= now + 60
    && b.prior.accessUntil.value <= a.pair.accessExpires
    && b.prior.accessUntil.value in {now + 60, a.pair.accessExpires}
    && var until := if p.protocol == 1 then now + 600 else now + 60;
    && b.prior.refreshUntil == Some(until) && b.recovery == Recovery(p.requestHash, Some(i), Some(until))
  }

  /** The current token: exactly the caller who names the current generation gets the next pair, and the consumed
      token is recorded until the end of the enrollment. */
  lemma CurrentToken(t: Tables, now: int, p: Proof, m: Mint, row: Credential, policy: Policy)
    requires Shaped(p) && Passes(t, now, p, row, policy) && p.digest == row.pair.refresh
    ensures var r := Rotate(t, now, p, m);
            if !Expects(row, p) then r == Reply(t, Conflict)
            else if m.access == "" || m.refresh == "" || p.digest in t.uses then r == Reply(t, Failed)
            else && r.outcome.Granted? && Responds(row, policy, now, p, m, r.outcome.issued)
                 && r.tables.policy == Some(policy) && r.tables.creds.Keys == t.creds.Keys
                 && (forall c :: c in t.creds && c != p.client ==> r.tables.creds[c] == t.creds[c])
                 && MovedOn(row, r.tables.creds[p.client], now, p, r.outcome.issued)
                 && r.tables.uses == t.uses[p.digest := Use(p.client, row.generation, now, row.life.enrollment.value)]
  {
    GateIff(t, now, p, row, policy);
  }

  /** The response describes this machine's current pair and this request. */
  predicate Describes(i: Issued, row: Credential, p: Proof) {
    && i.client == p.client && i.generation == row.generation && i.request == p.request
    && row.pair == Pair(Hash(i.access), i.accessExpires, Hash(i.refresh), i.refreshExpires)
  }

  /** The previous token inside its window: the same request gets the sealed response again, any other a
      conflict. */
  lemma PreviousToken(t: Tables, now: int, p: Proof, m: Mint, row: Credential, policy: Policy)
    requires Shaped(p) && Passes(t, now, p, row, policy) && p.digest != row.pair.refresh
    requires p.digest == row.prior.refresh && row.recovery.until.Some? && now < row.recovery.until.value
    ensures var r := Rotate(t, now, p, m);
            if row.recovery.request != p.requestHash then r == Reply(t, Conflict)
            else if row.recovery.sealed.None? || !Describes(row.recovery.sealed.value, row, p)
            then r == Reply(t, Failed)
            else if p.expected.Some? && row.generation != p.expected.value + 1 then r == Reply(t, Conflict)
            else && r.outcome == Granted(row.recovery.sealed.value)
                 && r.tables == t.(policy := Some(policy), creds := t.creds[p.client := row])
  {
    GateIff(t, now, p, row, policy);
  }

  /** Any other token: if it was consumed by this machine, an upgraded client's use of it revokes the chain;
      otherwise it is refused. */
  lemma OtherToken(t: Tables, now: int, p: Proof, m: Mint, row: Credential, policy: Policy)
    requires Shaped(p) && Passes(t, now, p, row, policy) && p.digest != row.pair.refresh
    requires p.digest == row.prior.refresh && row.recovery.until.Some? ==> row.recovery.until.value <= now
    ensures var r := Rotate(t, now, p, m);
            if p.digest in t.uses && t.uses[p.digest].client == p.client && p.protocol == 2
            then && r.outcome == Reuse
                 && r.tables == t.(policy := Some(policy),
                                   creds := t.creds[p.client := row.(revoked := Some(now),
                                                                     recovery := Recovery(row.recovery.request, None,
                                                                                          None))])
            else r == Reply(t, Rejected)
  {
    GateIff(t, now, p, row, policy);
  }

  /******* What the expected generation is for *******/

  lemma GrantPasses(t: Tables, now: int, p: Proof, m: Mint) returns (row: Credential, policy: Policy)
    requires Rotate(t, now, p, m).outcome.Granted?
    ensures Shaped(p) && Passes(t, now, p, row, policy)
    ensures p.digest != row.pair.refresh ==>
              p.digest == row.prior.refresh && row.recovery.until.Some? && now < row.recovery.until.value
    ensures SameTokens(t.creds[p.client], row)
  {
    var g := Admit(t, now, p);
    row, policy := g.row, g.policy;
    GateIff(t, now, p, row, policy);
  }

  /** Whoever names a generation and succeeds, by rotation or by recovery, gets the one after it; an upgraded
      machine cannot rotate without naming one. */
  lemma GrantFollowsExpectation(t: Tables, now: int, p: Proof, m: Mint)
    requires Rotate(t, now, p, m).outcome.Granted?
    ensures p.expected.Some? ==> Rotate(t, now, p, m).outcome.issued.generation == p.expected.value + 1
    ensures p.client in t.creds
    ensures p.protocol == 2 && t.creds[p.client].protocol >= 2 && p.digest == t.creds[p.client].pair.refresh ==>
              p.expected.Some?
  {
    var row, policy := GrantPasses(t, now, p, m);
    if p.digest == row.pair.refresh {
      CurrentToken(t, now, p, m, row, policy);
    } else {
      PreviousToken(t, now, p, m, row, policy);
    }
  }

  /** The current token with another expectation is a conflict and changes nothing. */
  lemma StaleExpectationConflicts(t: Tables, now: int, p: Proof, m: Mint)
    requires Shaped(p) && Admit(t, now, p).Open?
    requires p.digest == t.creds[p.client].pair.refresh
    requires p.expected.Some? && p.expected.value != t.creds[p.client].generation
    ensures Rotate(t, now, p, m) == Reply(t, Conflict)
  {
    var g := Admit(t, now, p);
    GateIff(t, now, p, g.row, g.policy);
    CurrentToken(t, now, p, m, g.row, g.policy);
  }

  /** The event is a successful refresh of the machine that named generation g. */
  predicate Wins(w: World, e: Event, c: string, g: nat) {
    && e.RotateEvent? && e.proof.client == c && e.proof.expected == Some(g)
    && Transact(w.tables, e).outcome.Granted?
  }

  /** Compare and set over whole runs: all the successful refreshes of a machine that named one generation,
      whenever and by whomever they were sent, got the very same response. */
  lemma OneWinnerPerGeneration(w: World, events: seq<Event>, i: nat, j: nat, c: string, g: nat)
    requires Start(w) && RandomRun(w, events) && i < |events| && j < |events|
    requires Wins(Run(w, events[..i]), events[i], c, g) && Wins(Run(w, events[..j]), events[j], c, g)
    ensures Transact(Run(w, events[..i]).tables, events[i]).outcome
         == Transact(Run(w, events[..j]).tables, events[j]).outcome
  {
    var first := WinnerIsRecorded(w, events, i, c, g);
    var second := WinnerIsRecorded(w, events, j, c, g);
    EveryRunIsLinear(w, events, first, second);
  }

  lemma WinnerIsRecorded(w: World, events: seq<Event>, i: nat, c: string, g: nat) returns (grant: Grant)
    requires i < |events| && Wins(Run(w, events[..i]), events[i], c, g)
    ensures grant in Run(w, events).grants && grant.client == c && grant.issued.generation == g + 1
    ensures Transact(Run(w, events[..i]).tables, events[i]).outcome == Granted(grant.issued)
  {
    var before, e := Run(w, events[..i]), events[i];
    var issued := Transact(before.tables, e).outcome.issued;
    grant := Grant(c, e.proof.digest, issued);
    GrantFollowsExpectation(before.tables, e.now, e.proof, e.mint);
    assert events[..i + 1][..i] == events[..i];
    GenerationsOnlyGrow(w, events, i + 1, c);
  }

  /** A response that was lost can be had again: right after a rotation the same request gets the same response
      for a minute (a legacy client for ten), as long as the machine's deadlines allow, and nothing moves. */
  lemma LostResponseRecovers(w: World, e: Event, now: int, m: Mint)
    requires Inv(w) && Random(w, e) && e.RotateEvent? && Transact(w.tables, e).outcome.Granted?
    requires e.proof.digest == w.tables.creds[e.proof.client].pair.refresh
    requires now < e.now + (if e.proof.protocol == 1 then 600 else 60)
    requires var i, u := Transact(w.tables, e).outcome.issued, After(w, e).tables;
             now < i.refreshExpires && e.proof.client in u.creds
             && (u.creds[e.proof.client].life.enrollment.Some? ==> now < u.creds[e.proof.client].life.enrollment.value)
    ensures Rotate(After(w, e).tables, now, e.proof, m) == Reply(After(w, e).tables, Transact(w.tables, e).outcome)
  {
    var p, u := e.proof, After(w, e).tables;
    var row, policy := GrantPasses(w.tables, e.now, p, e.mint);
    CurrentToken(w.tables, e.now, p, e.mint, row, policy);
    AdmitGives(w, e.now, p);
    GateIff(w.tables, e.now, p, row, policy);
    PolicyInForce(w.tables, policy);
    FreshRefresh(w, e, row);
    SealedResponseReturns(u, now, p, m, policy, row, Transact(w.tables, e).outcome.issued, e.now);
  }

  /** The row right after a rotation answers its own request with the response sealed in it. */
  lemma SealedResponseReturns(u: Tables, now: int, p: Proof, m: Mint, policy: Policy, before: Credential, i: Issued,
                              rotated: int)
    requires Shaped(p) && p.client in u.creds && u.policy == Some(policy) && InForce(u, policy)
    requires MovedOn(before, u.creds[p.client], rotated, p, i) && before.revoked.None? && before.key == p.key
    requires before.life.version != 0 && before.life.enrollment.Some? && now < before.life.enrollment.value
    requires now < i.refreshExpires && now < rotated + (if p.protocol == 1 then 600 else 60)
    requires i.client == p.client && i.request == p.request && p.digest == before.pair.refresh
    requires Hash(i.refresh) != p.digest && (p.expected.Some? ==> i.generation == p.expected.value + 1)
    ensures Rotate(u, now, p, m) == Reply(u, Granted(i))
  {
    var moved := u.creds[p.client];
    assert moved == Migrate(moved, policy, now);
    PreviousToken(u, now, p, m, moved, policy);
    assert u.creds[p.client := moved] == u.creds;
  }

  /** The minted token is not the one it replaces. */
  lemma FreshRefresh(w: World, e: Event, row: Credential)
    requires Inv(w) && Random(w, e) && e.RotateEvent? && e.proof.client in w.tables.creds
    requires SameTokens(w.tables.creds[e.proof.client], row) && e.mint.access != "" && e.mint.refresh != ""
    ensures Hash(e.mint.refresh) != row.pair.refresh
  {
    assert RotationInvariants.RowOk(e.proof.client, w.tables.creds[e.proof.client], w);
  }

  /******* Enrollment and the administrator's transactions *******/

  /** A fresh pair for an hour and for the idle days, both inside the absolute deadline. */
  ghost predicate FreshTokens(pair: Pair, m: Mint, policy: Policy, now: int) {
    var absolute := now + 86400 * policy.absolute;
    && pair.access == Hash(m.access) && pair.refresh == Hash(m.refresh)
    && pair.accessExpires <= now + 3600 && pair.accessExpires <= absolute
    && pair.accessExpires in {now + 3600, absolute}
    && pair.refreshExpires <= now + 86400 * policy.idle && pair.refreshExpires <= absolute
    && pair.refreshExpires in {now + 86400 * policy.idle, absolute}
  }

  /** The row of an enrollment: nothing of the old chain but its age and generation, and no way to recover. */
  ghost predicate EnrolledAs(was: Option<Credential>, b: Credential, now: int, key: string, scopes: seq<string>,
                             policy: Policy, m: Mint) {
    && b.key == key && b.scopes == scopes && b.revoked.None? && b.protocol == 0 && FreshTokens(b.pair, m, policy, now)
    && b.life == Lifecycle(1, Some(now + 86400 * policy.absolute), None)
    && b.recovery == Recovery(NoDigest, None, None)
    && b.prior.access == NoDigest && b.prior.accessUntil.None? && b.prior.refresh == NoDigest
    && (was.None? ==> b.created == Some(now) && b.generation == 0 && b.prior.refreshUntil.None?)
    && (was.Some? ==> b.created == was.value.created && b.generation == was.value.generation + 1
                      && b.prior.refreshUntil == Some(now + 600))
  }

  /** Enrollment is refused exactly when random generation or the policy failed, or to a revoked key. */
  lemma EnrollmentAnswers(t: Tables, now: int, client: string, key: string, scopes: seq<string>, m: Mint,
                          policy: Policy)
    ensures var r := Issue(t, now, client, key, scopes, m);
            && (r.outcome.Granted? <==>
                  && m.access != "" && m.refresh != "" && LoadPolicy(t).Some?
                  && !(client in t.creds && t.creds[client].revoked.Some? && t.creds[client].key == key))
            && (!r.outcome.Granted? ==> r == Reply(t, Failed))
            && (r.outcome.Granted? && InForce(t, policy) ==>
                  && client in r.tables.creds
                  && EnrolledAs(if client in t.creds then Some(t.creds[client]) else None, r.tables.creds[client], now,
                                key, scopes, policy, m)
                  && var pair := r.tables.creds[client].pair;
                  && r.outcome.issued == Issued(client, m.access, pair.accessExpires, m.refresh, pair.refreshExpires, 0,
                                                "", scopes)
                  && r.tables.policy == Some(policy) && r.tables.creds.Keys == t.creds.Keys + {client}
                  && (forall c :: c in t.creds && c != client ==> r.tables.creds[c] == t.creds[c])
                  && (client !in t.creds ==> r.tables.uses == t.uses)
                  && forall d :: d in t.uses && t.uses[d].client != client ==>
                       d in r.tables.uses && r.tables.uses[d] == t.uses[d])
            && (forall d :: d in r.tables.uses ==> d in t.uses && r.tables.uses[d] == t.uses[d])
  {
    if LoadPolicy(t).Some? { PolicyInForce(t, LoadPolicy(t).value); }
  }

  /** Revoking ends recovery at once and touches nothing else. */
  lemma RevocationLeaves(t: Tables, now: int, client: string)
    ensures var u := Revoke(t, now, client);
            && (client !in t.creds ==> u == t)
            && (client in t.creds ==>
                  u == t.(creds := t.creds[client := t.creds[client].(revoked := Some(now),
                                                                     recovery := Recovery(NoDigest, None, None))]))
  {
  }

  /** A cleanup drops exactly the sealed responses whose window is over, with the request they answer, and the use
      records past their expiry. */
  lemma CleanupLeaves(t: Tables, now: int)
    ensures var u := Cleanup(t, now);
            && u.policy == t.policy && u.creds.Keys == t.creds.Keys
            && (forall c :: c in t.creds ==>
                  var r := t.creds[c].recovery;
                  u.creds[c] == if r.sealed.Some? && r.until.Some? && r.until.value <= now
                                then t.creds[c].(recovery := Recovery(NoDigest, None, r.until))
                                else t.creds[c])
            && (forall d :: d in u.uses <==> d in t.uses && now < t.uses[d].expires)
            && forall d :: d in u.uses ==> u.uses[d] == t.uses[d]
  {
  }

  /** Reapproval answers the administrator who saw this generation and this key, and only outside a recovery;
      it moves both deadlines and keeps every token. */
  lemma ReapprovalAnswers(t: Tables, now: int, client: string, expected: nat, fingerprint: string, policy: Policy)
    ensures var r := Reapprove(t, now, client, expected, fingerprint);
            && (client !in t.creds ==> r == Reply(t, Failed))
            && (client in t.creds ==>
                  var a := t.creds[client];
                  if a.generation != expected || a.key != fingerprint then r == Reply(t, Conflict)
                  else if a.revoked.Some? || (a.recovery.until.Some? && now < a.recovery.until.value)
                       || LoadPolicy(t).None?
                  then r == Reply(t, Failed)
                  else && r.outcome == Done
                       && (InForce(t, policy) ==>
                             var absolute, idle := now + 86400 * policy.absolute, now + 86400 * policy.idle;
                             var until := if idle < absolute then idle else absolute;
                             r.tables == t.(policy := Some(policy),
                                            creds := t.creds[client := a.(life := Lifecycle(1, Some(absolute), None),
                                                                          pair := a.pair.(refreshExpires := until))])))
  {
    if LoadPolicy(t).Some? { PolicyInForce(t, LoadPolicy(t).value); }
  }

  /** Startup brings every row forward and touches no token. */
  lemma InitializationLeaves(t: Tables, now: int, policy: Policy)
    requires InForce(t, policy)
    ensures var r := Initialize(t, now);
            && r.outcome == Done && r.tables.uses == t.uses && r.tables.policy == Some(policy)
            && r.tables.creds.Keys == t.creds.Keys
            && forall c :: c in t.creds ==> BroughtForward(t.creds[c], r.tables.creds[c], policy, now)
  {
    PolicyInForce(t, policy);
    forall c | c in t.creds ensures BroughtForward(t.creds[c], Migrate(t.creds[c], policy, now), policy, now) {
      MigratedIsForward(t.creds[c], policy, now);
    }
  }

  /** A policy is saved exactly by the administrator who saw the current revision, and only in range. */
  lemma PolicyAnswers(t: Tables, p: Policy, current: Policy)
    requires InForce(t, current)
    ensures var r := SavePolicy(t, p);
            && r.tables.creds == t.creds && r.tables.uses == t.uses
            && (if !InForce(Tables(map[], map[], Some(p)), p) then r == Reply(t, Failed)
                else if p.revision != current.revision then r.outcome == Conflict && r.tables.policy == Some(current)
                else && r.outcome == Done
                     && r.tables.policy == Some(Policy(current.revision + 1, p.idle, p.absolute, p.grace, p.warning)))
  {
    PolicyInForce(t, current);
    PolicyInForce(Tables(map[], map[], Some(p)), p);
  }

  /** An access token resolves exactly while it is current or being handed over, its machine is not revoked, and
      no deadline has passed; and the current one expires with its own deadline in either case. */
  lemma AccessResolvesIff(t: Tables, digest: Digest, now: int, c: string)
    ensures Resolves(t, digest, now, c) <==>
              && digest != NoDigest && c in t.creds
              && var r := t.creds[c];
              && (|| digest == r.pair.access
                  || (digest == r.prior.access && r.prior.accessUntil.Some? && now < r.prior.accessUntil.value))
              && r.revoked.None? && now < r.pair.accessExpires
              && (r.life.enrollment.Some? ==> now < r.life.enrollment.value)
              && (r.life.version != 0 ==> now < r.pair.refreshExpires)
  {
  }

  /** The access token that a rotation replaces resolves for at most a minute more. */
  lemma HandOverEnds(w: World, e: Event, later: int)
    requires Inv(w) && Random(w, e) && e.RotateEvent? && Transact(w.tables, e).outcome.Granted?
    requires e.proof.digest == w.tables.creds[e.proof.client].pair.refresh
    ensures e.now + 60 <= later ==>
              !Resolves(After(w, e).tables, w.tables.creds[e.proof.client].pair.access, later, e.proof.client)
  {
    var row, policy := GrantPasses(w.tables, e.now, e.proof, e.mint);
    CurrentToken(w.tables, e.now, e.proof, e.mint, row, policy);
    assert RotationInvariants.RowOk(e.proof.client, w.tables.creds[e.proof.client], w);
  }

  /** A refresh token names a machine while it is current, was the one before, or is on record as consumed. */
  lemma LookupFindsIff(t: Tables, digest: Digest, c: string)
    ensures LookupFinds(t, digest, c) <==>
              && digest != NoDigest && c in t.creds
              && (|| digest in {t.creds[c].pair.refresh, t.creds[c].prior.refresh}
                  || (digest in t.uses && t.uses[digest].client == c))
  {
  }

  /** Digests tell texts apart, up to the white space around them. */
  lemma DigestsTellApart(a: string, b: string)
    ensures HashToken(a) == HashToken(b) <==> TrimSpace(a) == TrimSpace(b)
    ensures HashToken(a) == NoDigest <==> Blank(a)
  {
    BlankTrimsToNothing(a);
  }
}
