/** Rotation over whole runs, from any set of rows written before deadlines existed. */
module RotationTheorems {
  import opened Common
  import opened Rotation
  import opened RotationInvariants

  function Run(w: World, events: seq<Event>): World {
    if events == [] then w else After(Run(w, events[..|events| - 1]), events[|events| - 1])
  }

  /** Every token minted along the run is fresh when it is minted. */
  predicate RandomRun(w: World, events: seq<Event>) {
    events == [] ||
      (var front := events[..|events| - 1]; RandomRun(w, front) && Random(Run(w, front), events[|events| - 1]))
  }

  lemma StartIsSafe(w: World)
    requires Start(w)
    ensures Inv(w)
  {
  }

  lemma {:induction false} RunKeeps(w: World, events: seq<Event>)
    requires Inv(w) && RandomRun(w, events)
    ensures Inv(Run(w, events))
  {
    if events != [] {
      RunKeeps(w, events[..|events| - 1]);
      AfterKeeps(Run(w, events[..|events| - 1]), events[|events| - 1]);
    }
  }

  /** One linear chain per machine: any two successful refreshes, of any machine and at any time, that
      presented the same token, or that returned the same generation to one machine, got the very
      same response; and no successfully presented token is current again. */
  lemma EveryRunIsLinear(w: World, events: seq<Event>, g: Grant, h: Grant)
    requires Start(w) && RandomRun(w, events)
    requires g in Run(w, events).grants && h in Run(w, events).grants
    ensures g.digest == h.digest || (g.client == h.client && g.issued.generation == h.issued.generation) ==> g == h
    ensures forall c :: c in Run(w, events).tables.creds ==> Run(w, events).tables.creds[c].pair.refresh != g.digest
  {
    StartIsSafe(w);
    RunKeeps(w, events);
    var u := Run(w, events);
    assert Linear(u.grants);
    if Meet(g, h) { assert g == h; }
    forall c | c in u.tables.creds ensures u.tables.creds[c].pair.refresh != g.digest {
      assert RowOk(c, u.tables.creds[c], u) && GrantOk(g, u.tables.creds, u.minted);
    }
  }

  /******* One step, one machine *******/

  /** What any transaction does to a row: it stays, and its generation never goes back. */
  predicate Onward(t: Tables, u: Tables, c: string) {
    c in t.creds ==> c in u.creds && t.creds[c].generation <= u.creds[c].generation
  }

  lemma RotateOnward(t: Tables, now: int, p: Proof, m: Mint, c: string)
    ensures Onward(t, Rotate(t, now, p, m).tables, c)
  {
  }

  lemma StepOnward(t: Tables, e: Event, c: string)
    ensures Onward(t, Transact(t, e).tables, c)
  {
    if e.RotateEvent? { RotateOnward(t, e.now, e.proof, e.mint, c); }
  }

  /** Between any two points of a run generations only grow and no success is forgotten. */
  lemma {:induction false} GenerationsOnlyGrow(w: World, events: seq<Event>, i: nat, c: string)
    requires i <= |events|
    ensures Onward(Run(w, events[..i]).tables, Run(w, events).tables, c)
    ensures Run(w, events[..i]).grants <= Run(w, events).grants
  {
    if i == |events| {
      assert events[..i] == events;
    } else {
      var front := events[..|events| - 1];
      assert front[..i] == events[..i];
      GenerationsOnlyGrow(w, front, i, c);
      StepOnward(Run(w, front).tables, events[|events| - 1], c);
    }
  }

  /******* Rotation and recovery *******/

  /** A success describes exactly the pair now stored, bounded by the deadline now stored; it is
      either a rotation that consumed the current token and moved one generation on, or a recovery
      that changed nothing at all and repeats an earlier response. */
  lemma SuccessIsRotationOrRecovery(w: World, e: Event)
    requires Inv(w) && Random(w, e) && e.RotateEvent? && Transact(w.tables, e).outcome.Granted?
    ensures var i, u := Transact(w.tables, e).outcome.issued, Transact(w.tables, e).tables; var c := e.proof.client;
            && c in w.tables.creds && c in u.creds
            && Hash(i.access) == u.creds[c].pair.access && Hash(i.refresh) == u.creds[c].pair.refresh
            && i.generation == u.creds[c].generation
            && u.creds[c].life.enrollment.Some?
            && i.accessExpires <= u.creds[c].life.enrollment.value
            && i.refreshExpires <= u.creds[c].life.enrollment.value
            && (if e.proof.digest == w.tables.creds[c].pair.refresh
                then i.generation == w.tables.creds[c].generation + 1
                else u == w.tables && Grant(c, e.proof.digest, i) in w.grants)
  {
    AdmitGives(w, e.now, e.proof);
    var g := Admit(w.tables, e.now, e.proof);
    SuccessorBounded(g.row, g.policy, e.now, e.proof, e.mint);
    if e.proof.digest != g.row.pair.refresh {
      RecoveryIsIdle(w, g.row, g.policy, e.now, e.proof, e.proof.digest);
      SealedIsSettled(w, g.row, g.policy, e.now, e.proof);
      assert LifeOk(g.row, Some(g.policy));
    }
  }

  /** Presenting a consumed token revokes the chain exactly when the request passes the gate under
      protocol 2, its use record is still kept, and it is outside the recovery window. */
  lemma ReuseRevokesExactly(w: World, now: int, p: Proof, m: Mint)
    requires Inv(w)
    ensures Rotate(w.tables, now, p, m).outcome.Reuse? <==>
              && WellFormed(p) && Admit(w.tables, now, p).Open? && p.protocol == 2
              && p.digest in w.tables.uses && w.tables.uses[p.digest].client == p.client
              && !InRecovery(w.tables.creds[p.client], p.digest, now)
    ensures Rotate(w.tables, now, p, m).outcome.Reuse? ==>
              p.client in Rotate(w.tables, now, p, m).tables.creds
              && Rotate(w.tables, now, p, m).tables.creds[p.client].revoked == Some(now)
              && Rotate(w.tables, now, p, m).tables.creds[p.client].key == p.key
  {
    if WellFormed(p) && Admit(w.tables, now, p).Open? {
      AdmitGives(w, now, p);
      if p.digest in w.tables.uses && w.tables.uses[p.digest].client == p.client {
        assert Consumed(w.grants, p.digest, p.client);
        var g :| g in w.grants && g.digest == p.digest && g.client == p.client;
        assert GrantOk(g, w.tables.creds, w.minted);
      }
    }
  }

  /** A use record survives everything but enrollment of the same machine and cleanup at its expiry. */
  predicate KeepsUse(e: Event, use: Use) {
    && !(e.IssueEvent? && e.client == use.client)
    && !(e.CleanupEvent? && e.now >= use.expires)
  }

  lemma StepKeepsUse(t: Tables, e: Event, d: Digest)
    requires d in t.uses && KeepsUse(e, t.uses[d])
    ensures var u := Transact(t, e).tables; d in u.uses && u.uses[d] == t.uses[d]
  {
  }

  lemma {:induction false} RunKeepsUse(w: World, events: seq<Event>, d: Digest)
    requires d in w.tables.uses && forall i :: 0 <= i < |events| ==> KeepsUse(events[i], w.tables.uses[d])
    ensures d in Run(w, events).tables.uses && Run(w, events).tables.uses[d] == w.tables.uses[d]
  {
    if events != [] {
      var front := events[..|events| - 1];
      assert forall i :: 0 <= i < |front| ==> front[i] == events[i];
      RunKeepsUse(w, front, d);
      StepKeepsUse(Run(w, front).tables, events[|events| - 1], d);
    }
  }

  lemma RotationRecordsUse(w: World, e: Event)
    requires Inv(w) && e.RotateEvent? && Transact(w.tables, e).outcome.Granted?
    requires e.proof.digest == w.tables.creds[e.proof.client].pair.refresh
    ensures var u := After(w, e).tables;
            && e.proof.digest in u.uses && u.uses[e.proof.digest].client == e.proof.client
            && u.creds[e.proof.client].life.enrollment == Some(u.uses[e.proof.digest].expires)
  {
    AdmitGives(w, e.now, e.proof);
  }

  /** The whole reuse story: a rotation consumes a token, anything may happen except enrollment of
      that machine or cleanup past the deadline of the chain, and then a replay of the consumed token
      under protocol 2 that passes the gate outside the recovery window revokes the chain. */
  lemma ReplayOfConsumedTokenRevokes(w: World, e: Event, events: seq<Event>, now: int, p: Proof, m: Mint)
    requires Inv(w) && Random(w, e) && e.RotateEvent? && Transact(w.tables, e).outcome.Granted?
    requires e.proof.digest == w.tables.creds[e.proof.client].pair.refresh
    requires e.proof.digest in After(w, e).tables.uses
    requires forall i :: 0 <= i < |events| ==> KeepsUse(events[i], After(w, e).tables.uses[e.proof.digest])
    requires RandomRun(After(w, e), events)
    requires p.client == e.proof.client && p.digest == e.proof.digest && p.protocol == 2 && WellFormed(p)
    requires var t := Run(After(w, e), events).tables;
             Admit(t, now, p).Open? && !InRecovery(t.creds[p.client], p.digest, now)
    ensures var r := Rotate(Run(After(w, e), events).tables, now, p, m);
            r.outcome.Reuse? && p.client in r.tables.creds && r.tables.creds[p.client].revoked == Some(now)
  {
    AfterKeeps(w, e);
    RotationRecordsUse(w, e);
    RunKeepsUse(After(w, e), events, p.digest);
    RunKeeps(After(w, e), events);
    ReuseRevokesExactly(Run(After(w, e), events), now, p, m);
  }

  /******* After revocation *******/

  predicate Dead(t: Tables, c: string, key: string) {
    c in t.creds && t.creds[c].revoked.Some? && t.creds[c].key == key
  }

  lemma StepKeepsDead(t: Tables, e: Event, c: string, key: string)
    requires Dead(t, c, key) && !(e.IssueEvent? && e.client == c && e.key != key)
    ensures var u := Transact(t, e).tables; Dead(u, c, key) && u.creds[c].generation == t.creds[c].generation
  {
    if e.RotateEvent? { RotateKeepsDead(t, e.now, e.proof, e.mint, c, key); }
  }

  lemma RotateKeepsDead(t: Tables, now: int, p: Proof, m: Mint, c: string, key: string)
    requires Dead(t, c, key)
    ensures Dead(Rotate(t, now, p, m).tables, c, key)
    ensures Rotate(t, now, p, m).tables.creds[c].generation == t.creds[c].generation
    ensures p.client == c ==> !Rotate(t, now, p, m).outcome.Granted?
  {
  }

  /** Once revoked, a machine stays revoked, no refresh of it succeeds and none of the tokens ever
      minted for it resolves, until it is enrolled under a different key. */
  lemma {:induction false} RevokedUntilNewKey(w: World, events: seq<Event>, c: string, key: string)
    requires Inv(w) && RandomRun(w, events) && Dead(w.tables, c, key)
    requires forall i :: 0 <= i < |events| ==> !(events[i].IssueEvent? && events[i].client == c && events[i].key != key)
    ensures Dead(Run(w, events).tables, c, key)
    ensures Run(w, events).tables.creds[c].generation == w.tables.creds[c].generation
    ensures forall now, p: Proof, m :: p.client == c ==> !Rotate(Run(w, events).tables, now, p, m).outcome.Granted?
    ensures forall d, now :: Owned(w.minted, d, c) ==> NothingResolves(Run(w, events).tables, d, now)
  {
    var u := Run(w, events);
    RunKeeps(w, events);
    if events != [] {
      var front := events[..|events| - 1];
      assert forall i :: 0 <= i < |front| ==> front[i] == events[i];
      RevokedUntilNewKey(w, front, c, key);
      StepKeepsDead(Run(w, front).tables, events[|events| - 1], c, key);
    }
    forall now, p: Proof, m | p.client == c ensures !Rotate(u.tables, now, p, m).outcome.Granted? {
      RotateKeepsDead(u.tables, now, p, m, c, key);
    }
    forall d, now | Owned(w.minted, d, c) ensures NothingResolves(u.tables, d, now) {
      OwnershipLasts(w, events, d, c);
      DeadNeverResolves(u, d, now, c, key);
    }
  }

  ghost predicate NothingResolves(t: Tables, d: Digest, now: int) {
    forall x :: !Resolves(t, d, now, x)
  }

  lemma DeadNeverResolves(w: World, d: Digest, now: int, c: string, key: string)
    requires Inv(w) && Dead(w.tables, c, key) && Owned(w.minted, d, c)
    ensures NothingResolves(w.tables, d, now)
  {
    forall x ensures !Resolves(w.tables, d, now, x) {
      if Resolves(w.tables, d, now, x) { ResolvesToOwner(w, d, now, x); }
    }
  }

  lemma StepKeepsOwner(w: World, e: Event, d: Digest, c: string)
    requires Inv(w) && Random(w, e) && Owned(w.minted, d, c)
    ensures Owned(After(w, e).minted, d, c)
  {
    var r := Transact(w.tables, e);
    if r.outcome.Granted? && e.RotateEvent? {
      AdmitGives(w, e.now, e.proof);
      var g := Admit(w.tables, e.now, e.proof);
      if e.proof.digest == g.row.pair.refresh {
        MintedKeeps(w.minted, e.proof.client, e.mint.access, e.mint.refresh, d, c);
      } else {
        RecoveryIsIdle(w, g.row, g.policy, e.now, e.proof, e.proof.digest);
      }
    } else if r.outcome.Granted? {
      MintedKeeps(w.minted, e.client, e.mint.access, e.mint.refresh, d, c);
    }
  }

  lemma {:induction false} OwnershipLasts(w: World, events: seq<Event>, d: Digest, c: string)
    requires Inv(w) && RandomRun(w, events) && Owned(w.minted, d, c)
    ensures Owned(Run(w, events).minted, d, c)
  {
    if events != [] {
      OwnershipLasts(w, events[..|events| - 1], d, c);
      RunKeeps(w, events[..|events| - 1]);
      StepKeepsOwner(Run(w, events[..|events| - 1]), events[|events| - 1], d, c);
    }
  }

  /** An access token resolves only to the machine it was minted for, so never to two, and only
      before every deadline of that machine; a lookup by refresh token finds the same machine. */
  lemma ResolvesToOwner(w: World, d: Digest, now: int, c: string)
    requires Inv(w)
    ensures Resolves(w.tables, d, now, c) ==>
              && Owned(w.minted, d, c) && w.tables.creds[c].revoked.None?
              && (w.tables.creds[c].life.version != 0 ==>
                    w.tables.creds[c].life.enrollment.Some? && now < w.tables.creds[c].life.enrollment.value
                    && now < w.tables.creds[c].pair.refreshExpires)
    ensures LookupFinds(w.tables, d, c) ==> Owned(w.minted, d, c)
  {
    if c in w.tables.creds {
      assert RowOk(c, w.tables.creds[c], w);
      if d in w.tables.uses && w.tables.uses[d].client == c {
        var g :| g in w.grants && g.digest == d && g.client == c;
        assert GrantOk(g, w.tables.creds, w.minted);
      }
    }
  }

  /******* Deadlines *******/

  /** Nothing but enrollment or reapproval of this machine. */
  predicate LeavesApproval(e: Event, c: string) {
    !((e.IssueEvent? || e.ReapproveEvent?) && e.client == c)
  }

  predicate ApprovedUntil(t: Tables, c: string, deadline: int) {
    c in t.creds && t.creds[c].life.version != 0 && t.creds[c].life.enrollment == Some(deadline)
  }

  lemma StepKeepsDeadline(t: Tables, e: Event, c: string, deadline: int)
    requires ApprovedUntil(t, c, deadline) && LeavesApproval(e, c)
    ensures ApprovedUntil(Transact(t, e).tables, c, deadline)
  {
    if e.RotateEvent? { RotateKeepsDeadline(t, e.now, e.proof, e.mint, c, deadline); }
  }

  lemma RotateKeepsDeadline(t: Tables, now: int, p: Proof, m: Mint, c: string, deadline: int)
    requires ApprovedUntil(t, c, deadline)
    ensures ApprovedUntil(Rotate(t, now, p, m).tables, c, deadline)
  {
  }

  /** However often a machine is refreshed and however the policy is edited, its absolute deadline
      stays where the last approval or migration put it, and every response granted meanwhile ends
      by then. */
  lemma {:induction false} RefreshingNeverMovesDeadline(w: World, events: seq<Event>, c: string, deadline: int)
    requires Inv(w) && RandomRun(w, events) && ApprovedUntil(w.tables, c, deadline)
    requires forall i :: 0 <= i < |events| ==> LeavesApproval(events[i], c)
    ensures ApprovedUntil(Run(w, events).tables, c, deadline)
    ensures Run(w, events).tables.creds[c].pair.refreshExpires <= deadline
    ensures forall g :: g in Run(w, events).grants - w.grants && g.client == c ==>
              g.issued.accessExpires <= deadline && g.issued.refreshExpires <= deadline
  {
    RunKeeps(w, events);
    if events != [] {
      var front, e := events[..|events| - 1], events[|events| - 1];
      assert forall i :: 0 <= i < |front| ==> front[i] == events[i];
      RefreshingNeverMovesDeadline(w, front, c, deadline);
      RunKeeps(w, front);
      StepKeepsDeadline(Run(w, front).tables, e, c, deadline);
      StepGrantsWithin(Run(w, front), e, c, deadline);
    }
    assert RowOk(c, Run(w, events).tables.creds[c], Run(w, events));
  }

  lemma StepGrantsWithin(w: World, e: Event, c: string, deadline: int)
    requires Inv(w) && Random(w, e) && LeavesApproval(e, c) && ApprovedUntil(w.tables, c, deadline)
    ensures forall g :: g in After(w, e).grants - w.grants && g.client == c ==>
              g.issued.accessExpires <= deadline && g.issued.refreshExpires <= deadline
  {
    if e.RotateEvent? && e.proof.client == c && Transact(w.tables, e).outcome.Granted? {
      SuccessIsRotationOrRecovery(w, e);
      StepKeepsDeadline(w.tables, e, c, deadline);
    }
  }

  /** Enrollment itself is bounded the same way, and is refused to a revoked machine under its old key. */
  lemma EnrollmentBounded(w: World, e: Event)
    requires Inv(w) && e.IssueEvent?
    ensures var r := Transact(w.tables, e);
            r.outcome.Granted? ==>
              && !Dead(w.tables, e.client, e.key)
              && e.client in r.tables.creds && r.tables.creds[e.client].life.enrollment.Some?
              && r.outcome.issued.accessExpires <= r.tables.creds[e.client].life.enrollment.value
              && r.outcome.issued.refreshExpires <= r.tables.creds[e.client].life.enrollment.value
              && (forall d :: d in r.tables.uses ==> r.tables.uses[d].client != e.client)
  {
    LoadedPolicy(w.tables);
    if e.client !in w.tables.creds {
      forall d | d in w.tables.uses ensures w.tables.uses[d].client != e.client {
        var g :| g in w.grants && g.digest == d && g.client == w.tables.uses[d].client;
        assert GrantOk(g, w.tables.creds, w.minted);
      }
    }
  }

  /******* Cleanup *******/

  /** The gate of the one request whose answer a cleanup changes: it passes every check under protocol 2, is
      outside the recovery window, and its token has a use record of this machine that the cleanup drops. */
  predicate LateReplay(t: Tables, cleaned: int, now: int, p: Proof) {
    && WellFormed(p) && Admit(t, now, p).Open? && p.protocol == 2
    && p.digest in t.uses && t.uses[p.digest].client == p.client && t.uses[p.digest].expires <= cleaned
    && !InRecovery(t.creds[p.client], p.digest, now)
  }

  lemma CleanedMigrates(r: Credential, policy: Policy, cleaned: int, now: int)
    ensures Migrate(CleanedRow(r, cleaned), policy, now) == CleanedRow(Migrate(r, policy, now), cleaned)
  {
  }

  lemma CleanedAdmits(t: Tables, cleaned: int, now: int, p: Proof)
    ensures var before, after := Admit(t, now, p), Admit(Cleanup(t, cleaned), now, p);
            && (before.Open? <==> after.Open?) && (before.Closed? ==> after == before)
            && (before.Open? ==> after == Open(CleanedRow(before.row, cleaned), before.policy))
  {
    var policy := LoadPolicy(t);
    assert LoadPolicy(Cleanup(t, cleaned)) == policy;
    if p.client in t.creds && policy.Some? {
      var cur := t.creds[p.client];
      assert Cleanup(t, cleaned).creds[p.client] == CleanedRow(cur, cleaned);
      CleanedMigrates(cur, policy.value, cleaned, now);
    }
  }

  /** A request that comes at or after a cleanup gets the same answer as without it, with one exception,
      exactly the late replay: it revokes without the cleanup and is rejected after it. */
  lemma CleanupIsInvisible(w: World, cleaned: int, now: int, p: Proof, m: Mint)
    requires Inv(w) && cleaned <= now
    ensures var t := w.tables;
            var without, cleanedUp := Rotate(t, now, p, m).outcome, Rotate(Cleanup(t, cleaned), now, p, m).outcome;
            if LateReplay(t, cleaned, now, p) then without == Reuse && cleanedUp == Rejected else cleanedUp == without
  {
    CleanedAdmits(w.tables, cleaned, now, p);
    ReuseRevokesExactly(w, now, p, m);
    if WellFormed(p) && Admit(w.tables, now, p).Open? {
      AdmitGives(w, now, p);
      var g := Admit(w.tables, now, p);
      CleanedPresents(w, g.row, g.policy, cleaned, now, p, m);
    }
  }

  /******* When no replay is late *******/

  /** Every use record of the machine expires exactly at its absolute deadline. */
  predicate UsesAtDeadline(t: Tables, c: string) {
    forall d :: d in t.uses && t.uses[d].client == c ==>
      c in t.creds && t.creds[c].life.version != 0 && t.creds[c].life.enrollment == Some(t.uses[d].expires)
  }

  predicate Reapproves(e: Event, c: string) { e.ReapproveEvent? && e.client == c }

  lemma PresentKeepsUsesAtDeadline(t: Tables, now: int, row: Credential, policy: Policy, p: Proof, m: Mint, c: string)
    requires UsesAtDeadline(t, c) && p.client in t.creds && row.life.enrollment.Some? && row.life.version != 0
    requires t.creds[p.client].life.version != 0 ==> row.life == t.creds[p.client].life
    ensures UsesAtDeadline(Present(t, now, row, policy, p, m).tables, c)
  {
  }

  lemma RotateKeepsUsesAtDeadline(t: Tables, now: int, p: Proof, m: Mint, c: string)
    requires UsesAtDeadline(t, c)
    ensures UsesAtDeadline(Rotate(t, now, p, m).tables, c)
  {
    if WellFormed(p) && Admit(t, now, p).Open? {
      var g := Admit(t, now, p);
      PresentKeepsUsesAtDeadline(t, now, g.row, g.policy, p, m, c);
    }
  }

  lemma StepKeepsUsesAtDeadline(t: Tables, e: Event, c: string)
    requires UsesAtDeadline(t, c) && !Reapproves(e, c) && (forall d :: d in t.uses ==> t.uses[d].client in t.creds)
    ensures UsesAtDeadline(Transact(t, e).tables, c)
  {
    if e.RotateEvent? { RotateKeepsUsesAtDeadline(t, e.now, e.proof, e.mint, c); }
  }

  lemma UsesHaveRows(w: World)
    requires Inv(w)
    ensures forall d :: d in w.tables.uses ==> w.tables.uses[d].client in w.tables.creds
  {
    forall d | d in w.tables.uses ensures w.tables.uses[d].client in w.tables.creds {
      assert Consumed(w.grants, d, w.tables.uses[d].client);
      var g :| g in w.grants && g.digest == d && g.client == w.tables.uses[d].client;
      assert GrantOk(g, w.tables.creds, w.minted);
    }
  }

  lemma {:induction false} RunKeepsUsesAtDeadline(w: World, events: seq<Event>, c: string)
    requires Start(w) && RandomRun(w, events) && forall i :: 0 <= i < |events| ==> !Reapproves(events[i], c)
    ensures UsesAtDeadline(Run(w, events).tables, c)
  {
    if events != [] {
      var front := events[..|events| - 1];
      assert forall i :: 0 <= i < |front| ==> front[i] == events[i];
      RunKeepsUsesAtDeadline(w, front, c);
      StartIsSafe(w);
      RunKeeps(w, front);
      UsesHaveRows(Run(w, front));
      StepKeepsUsesAtDeadline(Run(w, front).tables, events[|events| - 1], c);
    }
  }

  /** In every run in which the machine is never reapproved, cleanup is invisible: no later request of it can
      tell whether a cleanup happened. */
  lemma CleanupInvisibleWithoutReapproval(w: World, events: seq<Event>, cleaned: int, now: int, p: Proof, m: Mint)
    requires Start(w) && RandomRun(w, events) && cleaned <= now
    requires forall i :: 0 <= i < |events| ==> !Reapproves(events[i], p.client)
    ensures var t := Run(w, events).tables;
            Rotate(Cleanup(t, cleaned), now, p, m).outcome == Rotate(t, now, p, m).outcome
  {
    StartIsSafe(w);
    RunKeeps(w, events);
    RunKeepsUsesAtDeadline(w, events, p.client);
    NoLateReplay(Run(w, events).tables, cleaned, now, p);
    CleanupIsInvisible(Run(w, events), cleaned, now, p, m);
  }

  lemma NoLateReplay(t: Tables, cleaned: int, now: int, p: Proof)
    requires UsesAtDeadline(t, p.client) && cleaned <= now
    ensures !LateReplay(t, cleaned, now, p)
  {
  }

  lemma CurrentIsUnused(w: World, client: string)
    requires Inv(w) && client in w.tables.creds
    ensures w.tables.creds[client].pair.refresh !in w.tables.uses
  {
    var d := w.tables.creds[client].pair.refresh;
    assert RowOk(client, w.tables.creds[client], w);
    forall g | g in w.grants ensures g.digest != d { assert GrantOk(g, w.tables.creds, w.minted); }
  }

  lemma CleanedPresents(w: World, row: Credential, policy: Policy, cleaned: int, now: int, p: Proof, m: Mint)
    requires Inv(w) && Admitted(w, row, policy, now, p) && cleaned <= now
    ensures var without := Present(w.tables, now, row, policy, p, m).outcome;
            Present(Cleanup(w.tables, cleaned), now, CleanedRow(row, cleaned), policy, p, m).outcome ==
              if without.Reuse? && p.digest in w.tables.uses && w.tables.uses[p.digest].expires <= cleaned
              then Rejected else without
  {
    CurrentIsUnused(w, p.client);
  }

  /******* The run in which one is *******/

  const EMPTY := World(Tables(map[], map[], None), map[], {})
  const FIRST := Mint("a", "r")
  const SECOND := Mint("b", "s")
  const PROOF := Proof("c", "k", DigestOf("r"), "q", DigestOf("q"), None, 2)

  /** A machine is enrolled, refreshes once, and is reapproved after its first deadline. */
  const LATE_RUN := [
    IssueEvent(0, "c", "k", [], FIRST), RotateEvent(1, PROOF, SECOND), ReapproveEvent(181 * DAY, "c", 1, "k")]

  lemma DifferentTokens()
    ensures "a" != "r" && "a" != "b" && "a" != "s" && "r" != "b" && "r" != "s" && "b" != "s"
  {
    assert "a"[0] == 'a' && "r"[0] == 'r' && "b"[0] == 'b' && "s"[0] == 's';
  }

  /** The row after enrollment. */
  const ENROLLED := Credential(
    "k", [], Some(0), 0, 0, Pair(DigestOf("a"), ACCESS_LIFETIME, DigestOf("r"), 7 * DAY),
    Prior(NoDigest, None, NoDigest, None), Lifecycle(1, Some(180 * DAY), None), Recovery(NoDigest, None, None), None)

  lemma FirstStep() returns (w: World)
    ensures w == After(EMPTY, LATE_RUN[0]) && Random(EMPTY, LATE_RUN[0])
    ensures w.tables == Tables(map["c" := ENROLLED], map[], Some(DEFAULT_POLICY))
    ensures w.minted == map[DigestOf("a") := "c", DigestOf("r") := "c"]
  {
    DifferentTokens();
    w := After(EMPTY, LATE_RUN[0]);
    assert w.tables.creds == map["c" := ENROLLED];
  }

  lemma SecondStep(w: World) returns (u: World)
    requires w.tables == Tables(map["c" := ENROLLED], map[], Some(DEFAULT_POLICY))
    requires w.minted == map[DigestOf("a") := "c", DigestOf("r") := "c"]
    ensures u == After(w, LATE_RUN[1]) && Random(w, LATE_RUN[1])
    ensures u.tables.policy == Some(DEFAULT_POLICY) && u.tables.creds.Keys == {"c"}
    ensures u.tables.uses == map[DigestOf("r") := Use("c", 0, 1, 180 * DAY)]
    ensures var r := u.tables.creds["c"];
            && r.key == "k" && r.generation == 1 && r.protocol == 2 && r.revoked.None?
            && r.pair.refresh == DigestOf("s") && r.life.version == 1 && r.recovery.until == Some(61)
  {
    DifferentTokens();
    u := After(w, LATE_RUN[1]);
    assert Admit(w.tables, 1, PROOF) == Open(ENROLLED, DEFAULT_POLICY);
  }

  lemma ThirdStep(w: World) returns (u: World)
    requires w.tables.policy == Some(DEFAULT_POLICY) && w.tables.creds.Keys == {"c"}
    requires w.tables.uses == map[DigestOf("r") := Use("c", 0, 1, 180 * DAY)]
    requires var r := w.tables.creds["c"];
             && r.key == "k" && r.generation == 1 && r.protocol == 2 && r.revoked.None?
             && r.pair.refresh == DigestOf("s") && r.life.version == 1 && r.recovery.until == Some(61)
    ensures u == After(w, LATE_RUN[2]) && Random(w, LATE_RUN[2])
    ensures LateReplay(u.tables, 182 * DAY, 182 * DAY, PROOF)
  {
    u := After(w, LATE_RUN[2]);
  }

  lemma RunOneMore(w: World, events: seq<Event>, e: Event)
    ensures Run(w, events + [e]) == After(Run(w, events), e)
    ensures RandomRun(w, events + [e]) <==> RandomRun(w, events) && Random(Run(w, events), e)
  {
    assert (events + [e])[..|events|] == events;
  }

  lemma RunOfThree(w: World, a: Event, b: Event, c: Event, u: World, v: World)
    requires u == After(w, a) && v == After(u, b) && Random(w, a) && Random(u, b) && Random(v, c)
    ensures Run(w, [a, b, c]) == After(v, c) && RandomRun(w, [a, b, c])
  {
    RunOneMore(w, [], a);
    RunOneMore(w, [a], b);
    RunOneMore(w, [a, b], c);
    assert [] + [a] == [a] && [a] + [b] == [a, b] && [a, b] + [c] == [a, b, c];
  }

  lemma LateRunReaches() returns (w: World)
    ensures RandomRun(EMPTY, LATE_RUN) && w == Run(EMPTY, LATE_RUN)
    ensures LateReplay(w.tables, 182 * DAY, 182 * DAY, PROOF)
  {
    var first := FirstStep();
    var second := SecondStep(first);
    w := ThirdStep(second);
    RunOfThree(EMPTY, LATE_RUN[0], LATE_RUN[1], LATE_RUN[2], first, second);
    assert LATE_RUN == [LATE_RUN[0], LATE_RUN[1], LATE_RUN[2]];
  }

  /** The failing run: replaying the consumed token on day 182 revokes the chain, but is merely rejected
      when a cleanup has run before it, because reapproval does not extend the use record. */
  lemma ReapprovedReplayIsForgotten(m: Mint) returns (w: World)
    ensures Start(EMPTY) && RandomRun(EMPTY, LATE_RUN) && w == Run(EMPTY, LATE_RUN)
    ensures LateReplay(w.tables, 182 * DAY, 182 * DAY, PROOF)
    ensures Rotate(w.tables, 182 * DAY, PROOF, m).outcome == Reuse
    ensures Rotate(Cleanup(w.tables, 182 * DAY), 182 * DAY, PROOF, m).outcome == Rejected
  {
    w := LateRunReaches();
    StartIsSafe(EMPTY);
    RunKeeps(EMPTY, LATE_RUN);
    CleanupIsInvisible(w, 182 * DAY, 182 * DAY, PROOF, m);
  }
}
