/** Authorization codes over whole runs: used at most once, and only under the registration and
  * the tenant they were issued under. */
module CodeRuns {
  import opened Schema
  import opened RefreshSession
  import opened Organizations
  import opened Users
  import opened PlatformRoles
  import opened Oidc
  import opened AccountProofs
  import opened World

  predicate PendingCode(o: OidcTables, c: Code) {
    c in o.codes && o.codes[c].consumed.None?
  }

  /** The code's client is active, registered as it was at issue, and its tenant is active. */
  ghost predicate UnderIssueTerms(t: Tenancy, o: OidcTables, issuedUnder: map<Code, ClientBoundary>, c: Code)
    requires c in o.codes
  {
    var code := o.codes[c];
    && code.client in o.clients
    && o.clients[code.client].active
    && o.clients[code.client].organization == code.organization
    && c in issuedUnder
    && o.clients[code.client].boundary == issuedUnder[c]
    && (code.organization.Some? ==>
          && code.organization.value in t.organizations
          && t.organizations[code.organization.value].status == OrgActive)
  }

  /** What holds of one code in every state of a run. */
  ghost predicate CodeSafe(t: Tenancy, o: OidcTables, issuedUnder: map<Code, ClientBoundary>, c: Code) {
    PendingCode(o, c) ==> UnderIssueTerms(t, o, issuedUnder, c)
  }

  /** What is known of one code in every state of a run: it was generated before it was stored, it
    * is stored after its issue is through, and the client an issue found keeps its tenant. */
  ghost predicate CodeKnown(o: OidcTables, h: History, c: Code) {
    && (c in o.codes ==> c in h.secrets && c !in h.inFlight.issuing)
    && (c in h.inFlight.issuing ==>
          && c in h.secrets
          && c in h.issuedUnder
          && h.inFlight.issuing[c].client in o.clients
          && o.clients[h.inFlight.issuing[c].client].organization == h.inFlight.issuing[c].organization)
  }

  ghost predicate KnownIn(w: World, c: Code) {
    CodeKnown(w.db.oidc, w.hist, c)
  }

  ghost predicate SafeIn(w: World, c: Code) {
    CodeSafe(w.db.tenancy, w.db.oidc, w.hist.issuedUnder, c)
  }

  /** The issue of `c` is through: nothing stores it again. */
  ghost predicate Settled(w: World, c: Code) {
    c in w.hist.secrets && c !in w.hist.inFlight.issuing
  }

  /** No client disappears or changes its tenant. */
  ghost predicate ClientsKept(before: map<ClientId, OidcClient>, after: map<ClientId, OidcClient>) {
    forall id | id in before :: id in after && after[id].organization == before[id].organization
  }

  /** A code keeps its terms, is consumed once, and does not come back once gone. */
  ghost predicate CodeAdvances(before: map<Code, AuthorizationCode>, after: map<Code, AuthorizationCode>, c: Code) {
    c in after ==>
      && c in before
      && after[c].client == before[c].client
      && after[c].organization == before[c].organization
      && after[c].user == before[c].user
      && after[c].redirectUri == before[c].redirectUri
      && after[c].scopes == before[c].scopes
      && (before[c].consumed.Some? ==> after[c].consumed == before[c].consumed)
  }

  lemma UpdateClientKeeps(t: Tenancy, o: OidcTables, issuedUnder: map<Code, ClientBoundary>, id: ClientId,
                          scope: ClientScope, u: ClientUpdate, c: Code)
    requires CodeSafe(t, o, issuedUnder, c)
    ensures var after := UpdateClient(t, o, id, scope, u).0;
            CodeSafe(t, after, issuedUnder, c) && CodeAdvances(o.codes, after.codes, c)
  {
    hide ScopeError;
  }

  lemma ClientAndUseKeep(t: Tenancy, o: OidcTables, issuedUnder: map<Code, ClientBoundary>, now: Time, op: CodeOp,
                         c: Code)
    requires !op.NewCode?
    ensures var after := ApplyCode(t, o, now, op);
            && CodeAdvances(o.codes, after.codes, c)
            && (CodeSafe(t, o, issuedUnder, c) ==> CodeSafe(t, after, issuedUnder, c))
            && ClientsKept(o.clients, after.clients)
  {
    hide ScopeError, ClientUserContext;
  }

  /** The grant's client is active and registered as its issue found it, and its tenant is active. */
  ghost predicate GrantStands(db: DB, g: CodeGrant, boundary: ClientBoundary) {
    && g.client in db.oidc.clients
    && db.oidc.clients[g.client].active
    && db.oidc.clients[g.client].boundary == boundary
    && (g.organization.Some? ==>
          && g.organization.value in db.tenancy.organizations
          && db.tenancy.organizations[g.organization.value].status == OrgActive)
  }

  /** If the step stores `c`, the terms that its issue found still stand. */
  ghost predicate InsertStands(w: World, op: Op, c: Code) {
    match op
    case OnCode(NewCode(code, g)) =>
      code == c && c in w.hist.issuedUnder && InsertCode(w.db.tenancy, w.db.oidc, code, g).1.Ok?
      ==> GrantStands(w.db, g, w.hist.issuedUnder[c])
    case _ => true
  }

  lemma InsertKeeps(w: World, now: Time, code: Code, g: CodeGrant, c: Code)
    requires KnownIn(w, c) && Enabled(w, now, OnCode(NewCode(code, g)))
    ensures var o := ApplyCode(w.db.tenancy, w.db.oidc, now, NewCode(code, g));
            && (code != c ==> CodeAdvances(w.db.oidc.codes, o.codes, c))
            && (SafeIn(w, c) ==>
                  (CodeSafe(w.db.tenancy, o, w.hist.issuedUnder, c) <==> InsertStands(w, OnCode(NewCode(code, g)), c)))
            && (c in o.codes ==> c in w.hist.secrets && (c == code || c !in w.hist.inFlight.issuing))
            && o.clients == w.db.oidc.clients
  {
    hide MayBeChosen, SessionEnabled;
  }

  /** Leaving 'active' drops the tenant's pending codes; no other change of status meets one. */
  lemma StatusKeeps(db: DB, now: Time, issuedUnder: map<Code, ClientBoundary>, id: OrganizationId,
                    status: OrganizationStatus, c: Code)
    ensures var after := SetStatus(db, now, id, status).0;
            && CodeAdvances(db.oidc.codes, after.oidc.codes, c)
            && (CodeSafe(db.tenancy, db.oidc, issuedUnder, c) ==> CodeSafe(after.tenancy, after.oidc, issuedUnder, c))
            && after.oidc.clients == db.oidc.clients
  {
    hide RevokeWhere;
  }

  lemma MembershipKeeps(db: DB, now: Time, issuedUnder: map<Code, ClientBoundary>, p: MembershipParams, c: Code)
    ensures var after := UpsertMembership(db, now, p).0;
            && CodeAdvances(db.oidc.codes, after.oidc.codes, c)
            && (CodeSafe(db.tenancy, db.oidc, issuedUnder, c) ==> CodeSafe(after.tenancy, after.oidc, issuedUnder, c))
            && after.oidc.clients == db.oidc.clients
  {
    hide MembershipError, EndMemberSessions;
  }

  lemma TenantOpKeeps(db: DB, now: Time, issuedUnder: map<Code, ClientBoundary>, op: TenantOp, c: Code)
    ensures var after := ApplyTenant(db, now, op);
            && CodeAdvances(db.oidc.codes, after.oidc.codes, c)
            && (CodeSafe(db.tenancy, db.oidc, issuedUnder, c) ==> CodeSafe(after.tenancy, after.oidc, issuedUnder, c))
            && after.oidc.clients == db.oidc.clients
  {
    hide SetStatus, UpsertMembership, LockManagerContext, ManagerWriteError, EndMemberSessions, HasPlatformRole;
    match op
    case ChangeStatus(id, status) => StatusKeeps(db, now, issuedUnder, id, status, c);
    case PutMembership(p) => MembershipKeeps(db, now, issuedUnder, p, c);
    case _ =>
  }

  lemma UserOpKeeps(db: DB, now: Time, issuedUnder: map<Code, ClientBoundary>, op: UserOp, c: Code)
    ensures var after := ApplyUser(db, now, op);
            && CodeAdvances(db.oidc.codes, after.oidc.codes, c)
            && (CodeSafe(db.tenancy, db.oidc, issuedUnder, c) ==> CodeSafe(after.tenancy, after.oidc, issuedUnder, c))
            && after.oidc.clients == db.oidc.clients
  {
    hide RevokeUserSessions, WithoutPrincipalSessions, WithoutProofsOf, NameOrEmailTaken,
         ProofsAfterUpdate, SessionsAfterUpdate, HasPlatformRole;
  }

  lemma ProofOpKeeps(db: DB, now: Time, issuedUnder: map<Code, ClientBoundary>, op: ProofOp, c: Code)
    ensures var after := ApplyProof(db, now, op);
            && CodeAdvances(db.oidc.codes, after.oidc.codes, c)
            && (CodeSafe(db.tenancy, db.oidc, issuedUnder, c) ==> CodeSafe(after.tenancy, after.oidc, issuedUnder, c))
            && after.oidc.clients == db.oidc.clients
  {
    hide RevokeUserSessions, RevokePendingProofs, RevokeIfPending;
  }

  lemma RoleOpKeeps(db: DB, issuedUnder: map<Code, ClientBoundary>, op: RoleOp, c: Code)
    ensures var after := ApplyRole(db, op);
            && CodeAdvances(db.oidc.codes, after.oidc.codes, c)
            && (CodeSafe(db.tenancy, db.oidc, issuedUnder, c) ==> CodeSafe(after.tenancy, after.oidc, issuedUnder, c))
            && after.oidc.clients == db.oidc.clients
  {
    hide FirstRoleError, Bind;
  }

  /** Every step but the one that stores `c`. */
  lemma ElsewhereKeeps(w: World, now: Time, op: Op, c: Code)
    requires !(op.OnCode? && op.code.NewCode?)
    ensures var after := Apply(w, now, op);
            && CodeAdvances(w.db.oidc.codes, after.oidc.codes, c)
            && (SafeIn(w, c) ==> CodeSafe(after.tenancy, after.oidc, w.hist.issuedUnder, c))
            && ClientsKept(w.db.oidc.clients, after.oidc.clients)
  {
    hide CodeSafe, CodeAdvances, ApplySession, ApplyTenant, ApplyUser, ApplyRole, ApplyCode, ApplyProof;
    match op
    case OnSession(_) => Unchanged(w.db.oidc.codes, c);
    case OnTenant(o) => TenantOpKeeps(w.db, now, w.hist.issuedUnder, o, c);
    case OnUser(o) => UserOpKeeps(w.db, now, w.hist.issuedUnder, o, c);
    case OnRole(o) => RoleOpKeeps(w.db, w.hist.issuedUnder, o, c);
    case OnCode(o) => ClientAndUseKeep(w.db.tenancy, w.db.oidc, w.hist.issuedUnder, now, o, c);
    case OnProof(o) => ProofOpKeeps(w.db, now, w.hist.issuedUnder, o, c);
  }

  lemma Unchanged(codes: map<Code, AuthorizationCode>, c: Code)
    ensures CodeAdvances(codes, codes, c)
  {
  }

  /** What a step does to the record of issues. */
  lemma RecordStep(w: World, now: Time, op: Op, c: Code)
    requires KnownIn(w, c) && Enabled(w, now, op)
    ensures var h := NextHistory(w, now, op);
            && (c in w.hist.secrets ==> c in h.secrets)
            && (c in w.hist.secrets && c in w.hist.issuedUnder ==>
                  c in h.issuedUnder && h.issuedUnder[c] == w.hist.issuedUnder[c])
            && (c in h.inFlight.issuing ==>
                  && c in h.secrets
                  && c in h.issuedUnder
                  && (if c in w.hist.inFlight.issuing then h.inFlight.issuing[c] == w.hist.inFlight.issuing[c]
                      else && c !in w.hist.secrets
                           && h.inFlight.issuing[c].client in w.db.oidc.clients
                           && w.db.oidc.clients[h.inFlight.issuing[c].client].organization
                              == h.inFlight.issuing[c].organization))
            && (c in w.hist.inFlight.issuing && c !in h.inFlight.issuing ==>
                  op.OnCode? && op.code.NewCode? && op.code.code == c)
            && (op.OnCode? && op.code.NewCode? && op.code.code == c ==> c !in h.inFlight.issuing)
  {
    hide RotationsAfter, HandlersAfter, MayBeChosen, SessionEnabled, SyncRows;
  }

  lemma KnownStep(w: World, now: Time, op: Op, c: Code)
    requires KnownIn(w, c) && Enabled(w, now, op)
    ensures KnownIn(Next(w, now, op), c)
  {
    hide Apply, NextHistory, Enabled;
    RecordStep(w, now, op, c);
    if op.OnCode? && op.code.NewCode? {
      InsertKeeps(w, now, op.code.code, op.code.grant, c);
      AppliedCode(w, now, op.code);
    } else {
      ElsewhereKeeps(w, now, op, c);
    }
  }

  lemma AppliedCode(w: World, now: Time, op: CodeOp)
    ensures Apply(w, now, OnCode(op)) == w.db.(oidc := ApplyCode(w.db.tenancy, w.db.oidc, now, op))
  {
    hide ApplyCode;
  }

  /** A step keeps the terms of a code exactly when, if it is the one that stores it, they still
    * stand at that moment. */
  lemma SafeStep(w: World, now: Time, op: Op, c: Code)
    requires KnownIn(w, c) && SafeIn(w, c) && Enabled(w, now, op)
    ensures SafeIn(Next(w, now, op), c) <==> InsertStands(w, op, c)
  {
    hide Apply, NextHistory, Enabled;
    RecordStep(w, now, op, c);
    if op.OnCode? && op.code.NewCode? {
      InsertKeeps(w, now, op.code.code, op.code.grant, c);
      AppliedCode(w, now, op.code);
    } else {
      ElsewhereKeeps(w, now, op, c);
    }
  }

  lemma SettledStep(w: World, now: Time, op: Op, c: Code)
    requires KnownIn(w, c) && Settled(w, c) && Enabled(w, now, op)
    ensures Settled(Next(w, now, op), c)
    ensures CodeAdvances(w.db.oidc.codes, Apply(w, now, op).oidc.codes, c)
  {
    hide Apply, NextHistory;
    RecordStep(w, now, op, c);
    if op.OnCode? && op.code.NewCode? {
      InsertKeeps(w, now, op.code.code, op.code.grant, c);
      AppliedCode(w, now, op.code);
    } else {
      ElsewhereKeeps(w, now, op, c);
    }
  }

  lemma {:induction false} KnownInvariant(states: seq<World>, steps: seq<Step>, i: nat, c: Code)
    requires IsRun(states, steps) && i < |states|
    ensures KnownIn(states[i], c)
  {
    hide Apply, NextHistory, Enabled;
    if i > 0 {
      KnownInvariant(states, steps, i - 1, c);
      KnownStep(states[i - 1], steps[i - 1].now, steps[i - 1].op, c);
    }
  }

  /** Over a whole run a pending code stands, in every state, under the terms that its issue found,
    * exactly when those terms still stood at the moment it was stored. */
  lemma {:induction false} SafeIffInsertStood(states: seq<World>, steps: seq<Step>, n: nat, c: Code)
    requires IsRun(states, steps) && n < |states|
    ensures (forall i | 0 <= i <= n :: SafeIn(states[i], c))
            <==> (forall i | 0 <= i < n :: InsertStands(states[i], steps[i].op, c))
  {
    hide Apply, NextHistory, Enabled, KnownIn, InsertStands, CodeSafe;
    if n == 0 {
      NoCodesYet(c);
    } else {
      SafeIffInsertStood(states, steps, n - 1, c);
      KnownInvariant(states, steps, n - 1, c);
      if SafeIn(states[n - 1], c) {
        SafeStep(states[n - 1], steps[n - 1].now, steps[n - 1].op, c);
      }
      assert (forall i | 0 <= i <= n :: SafeIn(states[i], c))
             <==> (forall i | 0 <= i <= n - 1 :: SafeIn(states[i], c)) && SafeIn(states[n], c);
      assert (forall i | 0 <= i < n :: InsertStands(states[i], steps[i].op, c))
             <==> (forall i | 0 <= i < n - 1 :: InsertStands(states[i], steps[i].op, c))
                  && InsertStands(states[n - 1], steps[n - 1].op, c);
    }
  }

  lemma NoCodesYet(c: Code)
    ensures CodeSafe(EMPTY_DB.tenancy, EMPTY_DB.oidc, NO_HISTORY.issuedUnder, c)
  {
  }

  /** The step exchanges `c` for tokens. */
  ghost predicate RedeemsCode(w: World, now: Time, op: Op, c: Code) {
    match op
    case OnCode(RedeemCode(code)) => code == c && ConsumeCode(w.db.oidc, now, code).1.Some?
    case OnCode(RedeemCodeForClient(code, client, organization)) =>
      code == c && ConsumeCodeForClient(w.db.tenancy, w.db.oidc, now, code, client, organization).1.Some?
    case _ => false
  }

  lemma RedemptionNeedsPending(w: World, now: Time, op: Op, c: Code)
    requires RedeemsCode(w, now, op, c)
    ensures PendingCode(w.db.oidc, c)
    ensures c in Apply(w, now, op).oidc.codes && !PendingCode(Apply(w, now, op).oidc, c)
  {
    hide ClientUserContext, ApplySession, ApplyTenant, ApplyUser, ApplyRole, ApplyProof;
  }

  /** Once its issue is through, a code keeps its terms, is consumed once, and stays gone once gone. */
  lemma {:induction false} CodesEvolve(states: seq<World>, steps: seq<Step>, i: nat, j: nat, c: Code)
    requires IsRun(states, steps) && i <= j < |states| && Settled(states[i], c)
    ensures Settled(states[j], c) && CodeAdvances(states[i].db.oidc.codes, states[j].db.oidc.codes, c)
    decreases j
  {
    hide Apply, NextHistory, Enabled, KnownIn, Settled;
    if i < j {
      CodesEvolve(states, steps, i, j - 1, c);
      KnownInvariant(states, steps, j - 1, c);
      SettledStep(states[j - 1], steps[j - 1].now, steps[j - 1].op, c);
    }
  }

  /** A code is exchanged for tokens at most once in a run. */
  lemma CodeRedeemedAtMostOnce(states: seq<World>, steps: seq<Step>, i: nat, j: nat, c: Code)
    requires IsRun(states, steps) && i < j < |steps| && RedeemsCode(states[i], steps[i].now, steps[i].op, c)
    ensures !RedeemsCode(states[j], steps[j].now, steps[j].op, c)
  {
    hide Apply, NextHistory, Enabled, RedeemsCode;
    RedemptionNeedsPending(states[i], steps[i].now, steps[i].op, c);
    KnownInvariant(states, steps, i + 1, c);
    CodesEvolve(states, steps, i + 1, j, c);
    if RedeemsCode(states[j], steps[j].now, steps[j].op, c) {
      RedemptionNeedsPending(states[j], steps[j].now, steps[j].op, c);
    }
  }

  /** The code stands for this grant. */
  predicate Carries(code: AuthorizationCode, g: CodeGrant) {
    && code.client == g.client
    && code.organization == g.organization
    && code.user == g.user
    && code.redirectUri == g.redirectUri
    && code.scopes == g.scopes
  }

  /** The step's SELECT finds the context of the grant. */
  ghost predicate FindsContext(w: World, op: Op, c: Code, g: CodeGrant) {
    && op == OnCode(ReadContext(c, g))
    && ClientUserContext(w.db.tenancy, w.db.oidc, g.client, g.organization, g.user)
  }

  /** The step stores the code of the grant. */
  ghost predicate Stores(w: World, op: Op, c: Code, g: CodeGrant) {
    op == OnCode(NewCode(c, g)) && InsertCode(w.db.tenancy, w.db.oidc, c, g).1.Ok?
  }

  lemma ContextRecords(w: World, now: Time, c: Code, g: CodeGrant)
    requires FindsContext(w, OnCode(ReadContext(c, g)), c, g)
    ensures var h := NextHistory(w, now, OnCode(ReadContext(c, g)));
            && g.client in w.db.oidc.clients
            && c in h.secrets
            && c in h.issuedUnder
            && h.issuedUnder[c] == w.db.oidc.clients[g.client].boundary
            && GrantStands(w.db, g, h.issuedUnder[c])
  {
    hide RotationsAfter, HandlersAfter;
  }

  lemma StoringSettles(w: World, now: Time, c: Code, g: CodeGrant)
    requires Stores(w, OnCode(NewCode(c, g)), c, g)
    ensures var after := Next(w, now, OnCode(NewCode(c, g)));
            && c in after.db.oidc.codes
            && Carries(after.db.oidc.codes[c], g)
            && c !in after.hist.inFlight.issuing
            && after.db.oidc.clients == w.db.oidc.clients
            && after.db.tenancy == w.db.tenancy
  {
    hide ApplySession, ApplyTenant, ApplyUser, ApplyRole, ApplyProof, RotationsAfter, HandlersAfter, RoleReadsAfter;
  }

  lemma {:induction false} RecordStands(states: seq<World>, steps: seq<Step>, i: nat, j: nat, c: Code)
    requires IsRun(states, steps) && i <= j < |states|
    requires c in states[i].hist.secrets && c in states[i].hist.issuedUnder
    ensures c in states[j].hist.secrets && c in states[j].hist.issuedUnder
    ensures states[j].hist.issuedUnder[c] == states[i].hist.issuedUnder[c]
    decreases j
  {
    hide Apply, NextHistory, Enabled, KnownIn;
    if i < j {
      RecordStands(states, steps, i, j - 1, c);
      KnownInvariant(states, steps, j - 1, c);
      RecordStep(states[j - 1], steps[j - 1].now, steps[j - 1].op, c);
    }
  }

  lemma {:induction false} SafeFrom(states: seq<World>, steps: seq<Step>, i: nat, k: nat, c: Code)
    requires IsRun(states, steps) && i <= k < |states| && Settled(states[i], c) && SafeIn(states[i], c)
    ensures SafeIn(states[k], c)
    decreases k
  {
    hide Apply, NextHistory, KnownIn, CodeSafe;
    if i < k {
      SafeFrom(states, steps, i, k - 1, c);
      CodesEvolve(states, steps, i, k - 1, c);
      KnownInvariant(states, steps, k - 1, c);
      SafeStep(states[k - 1], steps[k - 1].now, steps[k - 1].op, c);
    }
  }

  /** No code survives a reconfiguration of its client, or a disable and re-enable of its client or
    * tenant, once it is stored. For a code whose issue found its context at step `h`, that was
    * stored at step `i` and is redeemed at step `j`, the client is active and registered as found,
    * and the tenant active, at every moment from `i` to `j` exactly when they were at `i`. The code
    * carries its grant in any case. */
  lemma RedeemedUnderUnbrokenTerms(states: seq<World>, steps: seq<Step>, h: nat, i: nat, j: nat, c: Code, g: CodeGrant)
    requires IsRun(states, steps) && h < i < j < |steps|
    requires FindsContext(states[h], steps[h].op, c, g) && Stores(states[i], steps[i].op, c, g)
    requires RedeemsCode(states[j], steps[j].now, steps[j].op, c)
    ensures c in states[j].db.oidc.codes && Carries(states[j].db.oidc.codes[c], g)
    ensures g.client in states[h].db.oidc.clients
    ensures var boundary := states[h].db.oidc.clients[g.client].boundary;
            GrantStands(states[i].db, g, boundary)
            <==> (forall k | i <= k <= j :: GrantStands(states[k].db, g, boundary))
  {
    hide Next, Enabled, RedeemsCode, InsertCode, ClientUserContext, GrantStands, CodeSafe;
    ContextRecords(states[h], steps[h].now, c, g);
    StoringSettles(states[i], steps[i].now, c, g);
    var boundary := states[h].db.oidc.clients[g.client].boundary;
    StoredAndKnown(states, steps, h, i, c, g);
    RedemptionNeedsPending(states[j], steps[j].now, steps[j].op, c);
    CodesEvolve(states, steps, i + 1, j, c);
    if GrantStands(states[i].db, g, boundary) {
      forall k | i <= k <= j
        ensures GrantStands(states[k].db, g, boundary)
      {
        if i < k {
          StandsUntilRedeemed(states, steps, h, i, k, j, c, g);
        }
      }
    }
  }

  lemma StoredAndKnown(states: seq<World>, steps: seq<Step>, h: nat, i: nat, c: Code, g: CodeGrant)
    requires IsRun(states, steps) && h < i < |steps|
    requires FindsContext(states[h], steps[h].op, c, g) && Stores(states[i], steps[i].op, c, g)
    ensures Settled(states[i + 1], c) && g.client in states[h].db.oidc.clients
    ensures c in states[i + 1].hist.issuedUnder
    ensures states[i + 1].hist.issuedUnder[c] == states[h].db.oidc.clients[g.client].boundary
    ensures c in states[i].hist.issuedUnder && states[i].hist.issuedUnder[c] == states[i + 1].hist.issuedUnder[c]
    ensures c in states[i + 1].db.oidc.codes && Carries(states[i + 1].db.oidc.codes[c], g)
  {
    hide Apply, NextHistory, Enabled, ClientUserContext, InsertCode;
    ContextRecords(states[h], steps[h].now, c, g);
    StoringSettles(states[i], steps[i].now, c, g);
    RecordStands(states, steps, h + 1, i, c);
    RecordStands(states, steps, h + 1, i + 1, c);
  }

  lemma StandsUntilRedeemed(states: seq<World>, steps: seq<Step>, h: nat, i: nat, k: nat, j: nat, c: Code, g: CodeGrant)
    requires IsRun(states, steps) && h < i < k <= j < |steps|
    requires FindsContext(states[h], steps[h].op, c, g) && Stores(states[i], steps[i].op, c, g)
    requires PendingCode(states[j].db.oidc, c)
    requires g.client in states[h].db.oidc.clients
    requires GrantStands(states[i].db, g, states[h].db.oidc.clients[g.client].boundary)
    ensures GrantStands(states[k].db, g, states[h].db.oidc.clients[g.client].boundary)
  {
    hide Apply, NextHistory, FindsContext;
    StoredAndKnown(states, steps, h, i, c, g);
    KnownInvariant(states, steps, i, c);
    NotYetStored(states[i], steps[i].now, c, g);
    SafeStep(states[i], steps[i].now, steps[i].op, c);
    SafeFrom(states, steps, i + 1, k, c);
    CodesEvolve(states, steps, i + 1, k, c);
    CodesEvolve(states, steps, k, j, c);
    RecordStands(states, steps, i + 1, k, c);
  }

  lemma NotYetStored(w: World, now: Time, c: Code, g: CodeGrant)
    requires KnownIn(w, c) && Enabled(w, now, OnCode(NewCode(c, g)))
    ensures SafeIn(w, c)
  {
  }

  /** The account of the code can act: active itself, with an active principal and, in a tenant,
    * an active membership. */
  predicate LiveUser(t: Tenancy, organization: Option<OrganizationId>, user: UserId) {
    && user in t.users
    && t.users[user].active
    && UserPrincipal(user) in t.principals
    && t.principals[UserPrincipal(user)].active
    && (organization.Some? ==>
          && (organization.value, UserPrincipal(user)) in t.memberships
          && t.memberships[(organization.value, UserPrincipal(user))].status == MemberActive)
  }

  /** If the grant of a code still stood when it was stored, then in every later state a client redeems
    * it exactly when it is pending, unexpired and its own, and its account can act: the conditions on
    * client and tenant cannot fail. */
  lemma PendingCodeRedeems(states: seq<World>, steps: seq<Step>, i: nat, now: Time, c: Code, client: ClientId,
                           organization: Option<OrganizationId>)
    requires IsRun(states, steps) && i < |states|
    requires forall k | 0 <= k < i :: InsertStands(states[k], steps[k].op, c)
    ensures var t, o := states[i].db.tenancy, states[i].db.oidc;
            ConsumeCodeForClient(t, o, now, c, client, organization).1.Some?
            <==> (&& PendingCode(o, c)
                  && o.codes[c].expires > now
                  && o.codes[c].client == client
                  && o.codes[c].organization == organization
                  && LiveUser(t, organization, o.codes[c].user))
  {
    hide Next, Enabled, InsertStands;
    SafeIffInsertStood(states, steps, i, c);
  }
}
