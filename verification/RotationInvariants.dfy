/** What every run of the rotation transactions keeps: one linear chain per machine, reuse that
    revokes, and deadlines that refreshing cannot move. */
module RotationInvariants {
  import opened Common
  import opened Rotation

  predicate Owned(minted: map<Digest, string>, d: Digest, client: string) {
    d in minted && minted[d] == client
  }

  predicate OwnedOrNone(minted: map<Digest, string>, d: Digest, client: string) {
    d.NoDigest? || Owned(minted, d, client)
  }

  /** Every token a row names was minted for its machine. */
  predicate TokensOk(client: string, r: Credential, minted: map<Digest, string>) {
    && Owned(minted, r.pair.access, client) && Owned(minted, r.pair.refresh, client)
    && OwnedOrNone(minted, r.prior.access, client) && OwnedOrNone(minted, r.prior.refresh, client)
  }

  /** A migrated row has an absolute deadline that bounds its refresh deadline, and a sealed response
      only exists in a migrated row whose access deadline is bounded too. */
  predicate LifeOk(r: Credential, policy: Option<Policy>) {
    && (r.life.version != 0 ==> r.life.enrollment.Some? && r.pair.refreshExpires <= r.life.enrollment.value)
    && (r.recovery.sealed.Some? ==>
          && policy.Some? && r.life.version != 0 && r.recovery.until.Some?
          && r.pair.accessExpires <= r.life.enrollment.value
          && r.pair.accessExpires <= r.recovery.until.value + ACCESS_LIFETIME)
  }

  /** A sealed response is one that was already granted for the previous token. */
  predicate SealOk(client: string, r: Credential, grants: set<Grant>) {
    r.recovery.sealed.Some? ==> Grant(client, r.prior.refresh, r.recovery.sealed.value) in grants
  }

  predicate RowOk(client: string, r: Credential, w: World) {
    TokensOk(client, r, w.minted) && LifeOk(r, w.tables.policy) && SealOk(client, r, w.grants)
  }

  /** A consumed token belongs to its machine, is no longer current, and its successor is not in the future. */
  predicate GrantOk(g: Grant, creds: map<string, Credential>, minted: map<Digest, string>) {
    && g.client in creds && Owned(minted, g.digest, g.client)
    && g.digest != creds[g.client].pair.refresh
    && g.issued.client == g.client && g.issued.generation <= creds[g.client].generation
  }

  predicate Meet(g: Grant, h: Grant) {
    g.digest == h.digest || (g.client == h.client && g.issued.generation == h.issued.generation)
  }

  /** The chain is linear: a token, or a generation of a machine, determines the whole response. */
  predicate Linear(grants: set<Grant>) {
    forall g, h :: g in grants && h in grants && Meet(g, h) ==> g == h
  }

  predicate Consumed(grants: set<Grant>, d: Digest, client: string) {
    exists g :: g in grants && g.digest == d && g.client == client
  }

  predicate RowsOk(w: World) {
    forall c :: c in w.tables.creds ==> RowOk(c, w.tables.creds[c], w)
  }

  predicate GrantsOk(w: World) {
    forall g :: g in w.grants ==> GrantOk(g, w.tables.creds, w.minted)
  }

  predicate UsesOk(w: World) {
    forall d :: d in w.tables.uses ==> Consumed(w.grants, d, w.tables.uses[d].client)
  }

  predicate PolicyOk(t: Tables) {
    t.policy.Some? ==> ValidPolicy(t.policy.value)
  }

  predicate Inv(w: World) {
    && NoDigest !in w.minted
    && RowsOk(w) && GrantsOk(w) && UsesOk(w) && Linear(w.grants) && PolicyOk(w.tables)
  }

  /** Any set of rows written before deadlines existed, each with its own tokens. */
  predicate Start(w: World) {
    && w.tables.uses == map[] && w.tables.policy.None? && w.grants == {} && NoDigest !in w.minted
    && forall c :: c in w.tables.creds ==>
         && TokensOk(c, w.tables.creds[c], w.minted)
         && w.tables.creds[c].life == Lifecycle(0, None, None) && w.tables.creds[c].recovery.sealed.None?
  }

  /******* Replacing one row without minting *******/

  /** Rows may change freely as long as tokens stay and generations do not go back. */
  predicate SameTokens(a: Credential, b: Credential) {
    && b.pair.refresh == a.pair.refresh && b.pair.access == a.pair.access
    && b.prior == a.prior && b.generation == a.generation
  }

  lemma ReplaceRow(w: World, u: World, client: string, r: Credential)
    requires Inv(w) && client in w.tables.creds && SameTokens(w.tables.creds[client], r)
    requires u.minted == w.minted && u.grants == w.grants && u.tables.creds == w.tables.creds[client := r]
    requires u.tables.uses == w.tables.uses && PolicyOk(u.tables)
    requires w.tables.policy.Some? ==> u.tables.policy.Some?
    requires LifeOk(r, u.tables.policy) && SealOk(client, r, w.grants)
    ensures Inv(u)
  {
    assert RowOk(client, w.tables.creds[client], w);
    forall c | c in u.tables.creds ensures RowOk(c, u.tables.creds[c], u) {
      if c != client { assert RowOk(c, w.tables.creds[c], w); }
    }
    forall g | g in u.grants ensures GrantOk(g, u.tables.creds, u.minted) {
      assert GrantOk(g, w.tables.creds, w.minted);
    }
  }

  /** A loaded policy is valid, and storing it keeps whatever was stored. */
  lemma LoadedPolicy(t: Tables)
    requires PolicyOk(t)
    ensures LoadPolicy(t).Some? && ValidPolicy(LoadPolicy(t).value)
    ensures t.policy.Some? ==> LoadPolicy(t) == t.policy
  {
  }

  /** Migration sets the absolute deadline once and never lengthens the refresh deadline. */
  lemma MigrationNeverLengthens(r: Credential, policy: Policy, now: int)
    requires ValidPolicy(policy)
    ensures var m := Migrate(r, policy, now);
            && m.pair.refreshExpires <= r.pair.refreshExpires
            && (r.life.version == 0 ==> m.life.enrollment.Some? && m.pair.refreshExpires <= m.life.enrollment.value)
            && (r.life.version != 0 ==> m == r)
            && SameTokens(r, m) && m.recovery == r.recovery && m.revoked == r.revoked && m.key == r.key
  {
  }

  lemma MigratedOk(client: string, r: Credential, w: World, policy: Policy, now: int)
    requires RowOk(client, r, w) && ValidPolicy(policy)
    ensures LifeOk(Migrate(r, policy, now), Some(policy)) && SealOk(client, Migrate(r, policy, now), w.grants)
  {
    MigrationNeverLengthens(r, policy, now);
  }

  /******* Rotation *******/

  /** The row that passed the gate: migrated, live and before both deadlines. */
  predicate Admitted(w: World, row: Credential, policy: Policy, now: int, p: Proof) {
    && p.client in w.tables.creds && ValidPolicy(policy)
    && (w.tables.policy.Some? ==> w.tables.policy == Some(policy))
    && SameTokens(w.tables.creds[p.client], row)
    && row.recovery == w.tables.creds[p.client].recovery && row.revoked.None?
    && row.key == w.tables.creds[p.client].key == p.key
    && (w.tables.creds[p.client].life.version != 0 ==> row == w.tables.creds[p.client])
    && row.life.version != 0
    && LifeOk(row, Some(policy)) && row.life.enrollment.Some?
    && now < row.life.enrollment.value && now < row.pair.refreshExpires
  }

  lemma AdmitGives(w: World, now: int, p: Proof)
    requires Inv(w) && Admit(w.tables, now, p).Open?
    ensures var g := Admit(w.tables, now, p); Admitted(w, g.row, g.policy, now, p)
  {
    LoadedPolicy(w.tables);
    var r := w.tables.creds[p.client];
    assert RowOk(p.client, r, w);
    var policy := LoadPolicy(w.tables).value;
    MigrationNeverLengthens(r, policy, now);
    MigratedOk(p.client, r, w, policy, now);
  }

  lemma CondemnKeeps(w: World, row: Credential, policy: Policy, now: int, p: Proof)
    requires Inv(w) && Admitted(w, row, policy, now, p)
    ensures Inv(w.(tables := Stored(w.tables, policy, p.client, Condemned(row, now))))
  {
    ReplaceRow(w, w.(tables := Stored(w.tables, policy, p.client, Condemned(row, now))), p.client, Condemned(row, now));
  }

  lemma MintedAgain(minted: map<Digest, string>, client: string, access: string, refresh: string)
    requires Owned(minted, Hash(access), client) && Owned(minted, Hash(refresh), client)
    ensures Minted(minted, client, access, refresh) == minted
  {
  }

  lemma StoredAgain(t: Tables, policy: Policy, client: string)
    requires client in t.creds && t.policy == Some(policy)
    ensures Stored(t, policy, client, t.creds[client]) == t
  {
    assert t.creds[client := t.creds[client]] == t.creds;
  }

  /** A sealed response only exists where there is nothing left to migrate or to store. */
  lemma SealedIsSettled(w: World, row: Credential, policy: Policy, now: int, p: Proof)
    requires Inv(w) && Admitted(w, row, policy, now, p) && row.recovery.sealed.Some?
    ensures row == w.tables.creds[p.client] && w.tables.policy == Some(policy)
    ensures Grant(p.client, row.prior.refresh, row.recovery.sealed.value) in w.grants
    ensures TokensOk(p.client, row, w.minted)
  {
    assert RowOk(p.client, w.tables.creds[p.client], w);
  }

  /** Recovery answers with a response that was already granted, from tables it leaves as they were. */
  lemma RecoveryIsIdle(w: World, row: Credential, policy: Policy, now: int, p: Proof, digest: Digest)
    requires Inv(w) && Admitted(w, row, policy, now, p)
    requires InRecovery(row, digest, now) && Recover(w.tables, row, policy, p).outcome.Granted?
    ensures var r := Recover(w.tables, row, policy, p);
            && r.tables == w.tables
            && Grant(p.client, digest, r.outcome.issued) in w.grants
            && Minted(w.minted, p.client, r.outcome.issued.access, r.outcome.issued.refresh) == w.minted
  {
    SealedIsSettled(w, row, policy, now, p);
    StoredAgain(w.tables, policy, p.client);
    MintedAgain(w.minted, p.client, row.recovery.sealed.value.access, row.recovery.sealed.value.refresh);
  }

  /** The world after a rotation. */
  function RotatedWorld(w: World, row: Credential, policy: Policy, now: int, p: Proof, i: Issued): World
    requires row.life.enrollment.Some?
  {
    World(Rotated(w.tables, now, row, policy, p, i), Minted(w.minted, p.client, i.access, i.refresh),
          w.grants + {Grant(p.client, row.pair.refresh, i)})
  }

  predicate FreshSuccessor(w: World, row: Credential, i: Issued, client: string) {
    && FreshMint(w.minted, Mint(i.access, i.refresh))
    && i.client == client && i.generation == row.generation + 1
  }

  lemma MintedKeeps(minted: map<Digest, string>, client: string, access: string, refresh: string, d: Digest, c: string)
    requires FreshMint(minted, Mint(access, refresh))
    ensures Owned(minted, d, c) ==> Owned(Minted(minted, client, access, refresh), d, c)
    ensures Owned(minted, d, c) ==> d != Hash(access) && d != Hash(refresh)
    ensures Owned(Minted(minted, client, access, refresh), Hash(access), client)
    ensures Owned(Minted(minted, client, access, refresh), Hash(refresh), client)
  {
  }

  lemma MintedRows(w: World, client: string, access: string, refresh: string, c: string, r: Credential)
    requires TokensOk(c, r, w.minted) && FreshMint(w.minted, Mint(access, refresh))
    ensures TokensOk(c, r, Minted(w.minted, client, access, refresh))
  {
    MintedKeeps(w.minted, client, access, refresh, r.pair.access, c);
    MintedKeeps(w.minted, client, access, refresh, r.pair.refresh, c);
    MintedKeeps(w.minted, client, access, refresh, r.prior.access, c);
    MintedKeeps(w.minted, client, access, refresh, r.prior.refresh, c);
  }

  /** The consumed token had never been granted before, so the new grant extends the chain at its end. */
  lemma ChainGrows(w: World, row: Credential, client: string, i: Issued)
    requires GrantsOk(w) && Linear(w.grants) && client in w.tables.creds && SameTokens(w.tables.creds[client], row)
    requires Owned(w.minted, row.pair.refresh, client) && i.generation == row.generation + 1
    ensures Linear(w.grants + {Grant(client, row.pair.refresh, i)})
  {
    forall g | g in w.grants
      ensures g.digest != row.pair.refresh && (g.client == client ==> g.issued.generation < i.generation)
    {
      assert GrantOk(g, w.tables.creds, w.minted);
    }
  }

  lemma RotatedRowOk(w: World, row: Credential, policy: Policy, now: int, p: Proof, i: Issued)
    requires Inv(w) && Admitted(w, row, policy, now, p) && FreshSuccessor(w, row, i, p.client)
    requires i.accessExpires <= row.life.enrollment.value && i.refreshExpires <= row.life.enrollment.value
    requires i.accessExpires <= now + ACCESS_LIFETIME
    ensures RowOk(p.client, RotatedRow(row, now, p, i), RotatedWorld(w, row, policy, now, p, i))
  {
    assert RowOk(p.client, w.tables.creds[p.client], w);
    MintedKeeps(w.minted, p.client, i.access, i.refresh, row.pair.access, p.client);
    MintedKeeps(w.minted, p.client, i.access, i.refresh, row.pair.refresh, p.client);
    var r := RotatedRow(row, now, p, i);
    assert TokensOk(p.client, r, Minted(w.minted, p.client, i.access, i.refresh));
    assert LifeOk(r, Some(policy));
  }

  lemma RotatedGrantsOk(w: World, row: Credential, policy: Policy, now: int, p: Proof, i: Issued)
    requires Inv(w) && Admitted(w, row, policy, now, p) && FreshSuccessor(w, row, i, p.client)
    ensures GrantsOk(RotatedWorld(w, row, policy, now, p, i))
  {
    var u := RotatedWorld(w, row, policy, now, p, i);
    assert RowOk(p.client, w.tables.creds[p.client], w);
    forall g | g in u.grants ensures GrantOk(g, u.tables.creds, u.minted) {
      MintedKeeps(w.minted, p.client, i.access, i.refresh, g.digest, g.client);
      if g in w.grants { assert GrantOk(g, w.tables.creds, w.minted); }
    }
  }

  lemma RotatedRowsOk(w: World, row: Credential, policy: Policy, now: int, p: Proof, i: Issued)
    requires Inv(w) && Admitted(w, row, policy, now, p) && FreshSuccessor(w, row, i, p.client)
    requires RowOk(p.client, RotatedRow(row, now, p, i), RotatedWorld(w, row, policy, now, p, i))
    ensures RowsOk(RotatedWorld(w, row, policy, now, p, i))
  {
    var u := RotatedWorld(w, row, policy, now, p, i);
    forall c | c in u.tables.creds ensures RowOk(c, u.tables.creds[c], u) {
      if c != p.client {
        assert RowOk(c, w.tables.creds[c], w);
        MintedRows(w, p.client, i.access, i.refresh, c, w.tables.creds[c]);
      }
    }
  }

  lemma RotatedUsesOk(w: World, row: Credential, policy: Policy, now: int, p: Proof, i: Issued)
    requires UsesOk(w) && row.life.enrollment.Some?
    ensures UsesOk(RotatedWorld(w, row, policy, now, p, i))
  {
    var u := RotatedWorld(w, row, policy, now, p, i);
    forall d | d in u.tables.uses ensures Consumed(u.grants, d, u.tables.uses[d].client) {
      if d == row.pair.refresh {
        assert Grant(p.client, row.pair.refresh, i) in u.grants;
      } else {
        var g :| g in w.grants && g.digest == d && g.client == w.tables.uses[d].client;
        assert g in u.grants;
      }
    }
  }

  lemma RotatedKeeps(w: World, row: Credential, policy: Policy, now: int, p: Proof, i: Issued)
    requires Inv(w) && Admitted(w, row, policy, now, p) && FreshSuccessor(w, row, i, p.client)
    requires i.accessExpires <= row.life.enrollment.value && i.refreshExpires <= row.life.enrollment.value
    requires i.accessExpires <= now + ACCESS_LIFETIME
    ensures Inv(RotatedWorld(w, row, policy, now, p, i))
  {
    assert RowOk(p.client, w.tables.creds[p.client], w);
    RotatedRowOk(w, row, policy, now, p, i);
    RotatedRowsOk(w, row, policy, now, p, i);
    RotatedGrantsOk(w, row, policy, now, p, i);
    RotatedUsesOk(w, row, policy, now, p, i);
    ChainGrows(w, row, p.client, i);
  }

  lemma SuccessorBounded(row: Credential, policy: Policy, now: int, p: Proof, m: Mint)
    requires row.life.enrollment.Some?
    ensures var i := Successor(row, policy, now, p, m);
            && i.accessExpires <= row.life.enrollment.value && i.refreshExpires <= row.life.enrollment.value
            && i.accessExpires <= now + ACCESS_LIFETIME
  {
  }

  lemma RotateKeeps(w: World, now: int, p: Proof, m: Mint)
    requires Inv(w) && Random(w, RotateEvent(now, p, m))
    ensures Inv(After(w, RotateEvent(now, p, m)))
  {
    if WellFormed(p) && Admit(w.tables, now, p).Open? {
      var g := Admit(w.tables, now, p);
      AdmitGives(w, now, p);
      PresentKeeps(w, g.row, g.policy, now, p, m);
    }
  }

  function PresentWorld(w: World, row: Credential, policy: Policy, now: int, p: Proof, m: Mint): World
    requires row.life.enrollment.Some?
  {
    var r := Present(w.tables, now, row, policy, p, m);
    if !r.outcome.Granted? then w.(tables := r.tables) else
    World(r.tables, Minted(w.minted, p.client, r.outcome.issued.access, r.outcome.issued.refresh),
          w.grants + {Grant(p.client, p.digest, r.outcome.issued)})
  }

  lemma PresentKeeps(w: World, row: Credential, policy: Policy, now: int, p: Proof, m: Mint)
    requires Inv(w) && Admitted(w, row, policy, now, p)
    requires m.access != "" && m.refresh != "" ==> FreshMint(w.minted, m)
    ensures Inv(PresentWorld(w, row, policy, now, p, m))
  {
    var r := Present(w.tables, now, row, policy, p, m);
    if p.digest == row.pair.refresh {
      if r.outcome.Granted? {
        SuccessorBounded(row, policy, now, p, m);
        RotatedKeeps(w, row, policy, now, p, Successor(row, policy, now, p, m));
      }
    } else if InRecovery(row, p.digest, now) {
      if r.outcome.Granted? {
        RecoveryIsIdle(w, row, policy, now, p, p.digest);
        assert w.grants + {Grant(p.client, p.digest, r.outcome.issued)} == w.grants;
      }
    } else {
      CondemnKeeps(w, row, policy, now, p);
    }
  }

  /******* The other transactions *******/

  function EnrolledWorld(w: World, now: int, client: string, key: string, scopes: seq<string>, policy: Policy,
                         m: Mint): World {
    w.(tables := Enrolled(w.tables, now, client, key, scopes, policy, m),
       minted := Minted(w.minted, client, m.access, m.refresh))
  }

  lemma EnrolledRowsOk(w: World, now: int, client: string, key: string, scopes: seq<string>, policy: Policy, m: Mint)
    requires Inv(w) && ValidPolicy(policy) && FreshMint(w.minted, m)
    ensures RowsOk(EnrolledWorld(w, now, client, key, scopes, policy, m))
  {
    var u := EnrolledWorld(w, now, client, key, scopes, policy, m);
    forall c | c in u.tables.creds ensures RowOk(c, u.tables.creds[c], u) {
      if c != client {
        assert RowOk(c, w.tables.creds[c], w);
        MintedRows(w, client, m.access, m.refresh, c, w.tables.creds[c]);
      }
    }
  }

  lemma EnrolledGrantsOk(w: World, now: int, client: string, key: string, scopes: seq<string>, policy: Policy, m: Mint)
    requires Inv(w) && FreshMint(w.minted, m)
    ensures GrantsOk(EnrolledWorld(w, now, client, key, scopes, policy, m))
  {
    var u := EnrolledWorld(w, now, client, key, scopes, policy, m);
    forall g | g in u.grants ensures GrantOk(g, u.tables.creds, u.minted) {
      MintedKeeps(w.minted, client, m.access, m.refresh, g.digest, g.client);
      assert GrantOk(g, w.tables.creds, w.minted);
    }
  }

  lemma IssueKeeps(w: World, e: Event)
    requires Inv(w) && Random(w, e) && e.IssueEvent?
    ensures Inv(After(w, e))
  {
    LoadedPolicy(w.tables);
    if Transact(w.tables, e).outcome.Granted? {
      var policy := LoadPolicy(w.tables).value;
      var u := EnrolledWorld(w, e.now, e.client, e.key, e.scopes, policy, e.mint);
      EnrolledRowsOk(w, e.now, e.client, e.key, e.scopes, policy, e.mint);
      EnrolledGrantsOk(w, e.now, e.client, e.key, e.scopes, policy, e.mint);
      assert UsesOk(u) by {
        forall d | d in u.tables.uses ensures Consumed(u.grants, d, u.tables.uses[d].client) {
          assert Consumed(w.grants, d, w.tables.uses[d].client);
        }
      }
      assert After(w, e) == u;
    }
  }

  lemma RevokeKeeps(w: World, now: int, client: string)
    requires Inv(w)
    ensures Inv(w.(tables := Revoke(w.tables, now, client)))
  {
    if client in w.tables.creds {
      assert RowOk(client, w.tables.creds[client], w);
      ReplaceRow(w, w.(tables := Revoke(w.tables, now, client)), client, RevokedRow(w.tables.creds[client], now));
    }
  }

  lemma CleanupKeeps(w: World, now: int)
    requires Inv(w)
    ensures Inv(w.(tables := Cleanup(w.tables, now)))
  {
    var u := w.(tables := Cleanup(w.tables, now));
    forall c | c in u.tables.creds ensures RowOk(c, u.tables.creds[c], u) { assert RowOk(c, w.tables.creds[c], w); }
    forall g | g in u.grants ensures GrantOk(g, u.tables.creds, u.minted) {
      assert GrantOk(g, w.tables.creds, w.minted);
    }
    forall d | d in u.tables.uses ensures Consumed(u.grants, d, u.tables.uses[d].client) {
      assert Consumed(w.grants, d, w.tables.uses[d].client);
    }
  }

  lemma ReapproveKeeps(w: World, now: int, client: string, expected: nat, fingerprint: string)
    requires Inv(w)
    ensures Inv(w.(tables := Reapprove(w.tables, now, client, expected, fingerprint).tables))
  {
    LoadedPolicy(w.tables);
    var r := Reapprove(w.tables, now, client, expected, fingerprint);
    if r.outcome.Done? {
      assert RowOk(client, w.tables.creds[client], w);
      var policy := LoadPolicy(w.tables).value;
      ReplaceRow(w, w.(tables := r.tables), client, ReapprovedRow(w.tables.creds[client], policy, now));
    }
  }

  lemma InitializeKeeps(w: World, now: int)
    requires Inv(w)
    ensures Inv(w.(tables := Initialize(w.tables, now).tables))
  {
    LoadedPolicy(w.tables);
    var policy := LoadPolicy(w.tables).value;
    var u := w.(tables := Initialize(w.tables, now).tables);
    forall c | c in u.tables.creds ensures RowOk(c, u.tables.creds[c], u) {
      assert RowOk(c, w.tables.creds[c], w);
      MigratedOk(c, w.tables.creds[c], w, policy, now);
    }
    forall g | g in u.grants ensures GrantOk(g, u.tables.creds, u.minted) {
      assert GrantOk(g, w.tables.creds, w.minted);
    }
  }

  lemma PolicyKeeps(w: World, p: Policy)
    requires Inv(w)
    ensures Inv(w.(tables := SavePolicy(w.tables, p).tables))
  {
    LoadedPolicy(w.tables);
    var u := w.(tables := SavePolicy(w.tables, p).tables);
    forall c | c in u.tables.creds ensures RowOk(c, u.tables.creds[c], u) { assert RowOk(c, w.tables.creds[c], w); }
  }

  /** Every transaction keeps the invariant. */
  lemma AfterKeeps(w: World, e: Event)
    requires Inv(w) && Random(w, e)
    ensures Inv(After(w, e))
  {
    match e
    case IssueEvent(_, _, _, _, _) => IssueKeeps(w, e);
    case RotateEvent(now, p, m) => RotateKeeps(w, now, p, m);
    case RevokeEvent(now, client) => RevokeKeeps(w, now, client);
    case CleanupEvent(now) => CleanupKeeps(w, now);
    case ReapproveEvent(now, client, expected, fingerprint) => ReapproveKeeps(w, now, client, expected, fingerprint);
    case InitializeEvent(now) => InitializeKeeps(w, now);
    case PolicyEvent(policy) => PolicyKeeps(w, policy);
  }
}
