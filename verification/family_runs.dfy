/** Token families over whole runs: shape, write-once revocation, replay. */
module FamilyRuns {
  import opened Schema
  import opened RefreshSession
  import opened World
  import opened SessionFamilies
  import opened TenantSafety

  /** The family invariant of a run. */
  ghost predicate Families(w: World) {
    && FamilyShape(w.db.refresh, w.hist.rotations)
    && w.db.refresh.sessions.Keys <= w.hist.sessionIds
    && w.db.refresh.tokens.Keys <= w.hist.secrets
  }

  /** Rows known before a step that are still there after it have only evolved; a known row
    * that was gone does not come back. */
  ghost predicate Evolves(h: History, before: RefreshTables, after: RefreshTables) {
    && (forall sid | sid in after.sessions && sid in h.sessionIds ::
          sid in before.sessions && SessionEvolves(before.sessions[sid], after.sessions[sid]))
    && (forall x | x in after.tokens && x in h.secrets ::
          x in before.tokens && TokenEvolves(before.tokens[x], after.tokens[x]))
  }

  lemma OnlyRevokedEvolves(h: History, before: RefreshTables, after: RefreshTables)
    requires OnlyRevoked(before, after)
    ensures Evolves(h, before, after)
  {
  }

  lemma CreateEvolves(h: History, t: Tenancy, r: RefreshTables, p: CreateParams)
    requires p.token !in h.secrets && p.session !in h.sessionIds
    ensures Evolves(h, r, Create(t, r, p).0)
  {
  }

  lemma RotateEvolves(h: History, t: Tenancy, r: RefreshTables, now: Time, p: RotateParams)
    requires p.newToken !in h.secrets && TokensHaveSessions(r)
    ensures Evolves(h, r, Rotate(t, r, now, p).0)
  {
    hide ContextActive, TokenIdTaken;
    if !RotateAnswer(t, r, now, p).Consumed? {
      RefusalOnlyRevokes(t, r, now, p);
      OnlyRevokedEvolves(h, r, Rotate(t, r, now, p).0);
    }
  }

  lemma StepEvolves(w: World, now: Time, op: Op)
    requires Families(w) && Enabled(w, now, op)
    ensures Evolves(w.hist, w.db.refresh, Apply(w, now, op).refresh)
  {
    hide FamilyShape, Evolves, OnlyRevoked, TokensHaveSessions, Create, Rotate,
         ApplyTenant, ApplyUser, ApplyRole, ApplyCode, ApplyProof;
    ShapeHasSessions(w.db.refresh, w.hist.rotations);
    if !CreatesOrRotates(op) {
      StepOnlyRevokes(w, now, op);
      OnlyRevokedEvolves(w.hist, w.db.refresh, Apply(w, now, op).refresh);
    } else if op.session.RotateSession? {
      RotateEvolves(w.hist, w.db.tenancy, w.db.refresh, now, op.session.rotate);
    } else {
      CreateEvolves(w.hist, w.db.tenancy, w.db.refresh, op.session.create);
    }
  }

  lemma ShapeStep(w: World, now: Time, op: Op)
    requires Families(w) && Enabled(w, now, op)
    ensures FamilyShape(Apply(w, now, op).refresh, NextHistory(w, now, op).rotations)
  {
    hide FamilyShape, OnlyRevoked, TokensHaveSessions, Create, Rotate, RotateAnswer, HandlersAfter,
         ApplyTenant, ApplyUser, ApplyRole, ApplyCode, ApplyProof;
    var r, rotations := w.db.refresh, w.hist.rotations;
    ShapeHasSessions(r, rotations);
    if !CreatesOrRotates(op) {
      StepOnlyRevokes(w, now, op);
      OnlyRevokedKeepsShape(r, Apply(w, now, op).refresh, rotations);
    } else if op.session.RotateSession? {
      RotationShapeStep(w.db.tenancy, r, rotations, now, op.session.rotate);
    } else {
      CreationShapeStep(w.db.tenancy, r, rotations, op.session.create);
    }
  }

  lemma CreationShapeStep(t: Tenancy, r: RefreshTables, rotations: map<SessionId, nat>, p: CreateParams)
    requires FamilyShape(r, rotations)
    ensures FamilyShape(Create(t, r, p).0, if Create(t, r, p).1.Ok? then rotations[p.session := 0] else rotations)
  {
    hide FamilyShape, ContextActive, CreateConflict;
    if Create(t, r, p).1.Ok? {
      CreateKeepsShape(t, r, rotations, p);
    }
  }

  lemma RotationShapeStep(t: Tenancy, r: RefreshTables, rotations: map<SessionId, nat>, now: Time, p: RotateParams)
    requires FamilyShape(r, rotations) && p.token != p.newToken
    ensures var answer := RotateAnswer(t, r, now, p);
            var after := Rotate(t, r, now, p).0;
            && (answer.Consumed? ==>
                  && answer.session in rotations
                  && FamilyShape(after, rotations[answer.session := rotations[answer.session] + 1]))
            && (!answer.Consumed? ==> FamilyShape(after, rotations))
  {
    hide FamilyShape, RotateAnswer, Rotate;
    if RotateAnswer(t, r, now, p).Consumed? {
      RotateKeepsShape(t, r, rotations, now, p);
    } else {
      ShapeHasSessions(r, rotations);
      RefusalOnlyRevokes(t, r, now, p);
      OnlyRevokedKeepsShape(r, Rotate(t, r, now, p).0, rotations);
    }
  }

  /** Only creation adds a session and only creation and rotation add a token, under ids and
    * secrets that the history records. */
  lemma KeysStep(w: World, now: Time, op: Op)
    requires Families(w)
    ensures var r, h := Apply(w, now, op).refresh, NextHistory(w, now, op);
            r.sessions.Keys <= h.sessionIds && r.tokens.Keys <= h.secrets
  {
    hide FamilyShape, Create, Rotate, RotationsAfter, HandlersAfter, OnlyRevoked,
         ApplyTenant, ApplyUser, ApplyRole, ApplyCode, ApplyProof;
    HistoryGrows(w, now, op);
    ShapeHasSessions(w.db.refresh, w.hist.rotations);
    if !CreatesOrRotates(op) {
      StepOnlyRevokes(w, now, op);
      OnlyRevokedKeys(w.db.refresh, Apply(w, now, op).refresh);
    } else if op.session.RotateSession? {
      RotateKeys(w.db.tenancy, w.db.refresh, now, op.session.rotate);
    } else {
      CreateKeys(w.db.tenancy, w.db.refresh, op.session.create);
    }
  }

  lemma OnlyRevokedKeys(before: RefreshTables, after: RefreshTables)
    requires OnlyRevoked(before, after)
    ensures after.sessions.Keys <= before.sessions.Keys && after.tokens.Keys <= before.tokens.Keys
  {
    forall sid | sid in after.sessions.Keys
      ensures sid in before.sessions.Keys
    {
      assert SessionEvolves(before.sessions[sid], after.sessions[sid]);
    }
    forall x | x in after.tokens.Keys
      ensures x in before.tokens.Keys
    {
      assert TokenEvolves(before.tokens[x], after.tokens[x]);
    }
  }

  lemma CreateKeys(t: Tenancy, r: RefreshTables, p: CreateParams)
    ensures Create(t, r, p).0.sessions.Keys <= r.sessions.Keys + {p.session}
    ensures Create(t, r, p).0.tokens.Keys <= r.tokens.Keys + {p.token}
  {
  }

  lemma RotateKeys(t: Tenancy, r: RefreshTables, now: Time, p: RotateParams)
    ensures Rotate(t, r, now, p).0.sessions.Keys <= r.sessions.Keys
    ensures Rotate(t, r, now, p).0.tokens.Keys <= r.tokens.Keys + {p.newToken}
  {
    hide ContextActive, TokenIdTaken;
  }

  lemma FamiliesStep(w: World, now: Time, op: Op)
    requires Families(w) && Enabled(w, now, op)
    ensures Families(Next(w, now, op))
  {
    hide FamilyShape, Apply, NextHistory;
    ShapeStep(w, now, op);
    KeysStep(w, now, op);
  }

  /** In every state of every run, every session has exactly one unconsumed token, its current
    * one, one more token than it has been rotated, and one expiry throughout
    * (`ExactlyOneUnconsumed`). */
  lemma {:induction false} FamilyInvariant(states: seq<World>, steps: seq<Step>, i: nat)
    requires IsRun(states, steps) && i < |states|
    ensures Families(states[i])
  {
    hide Apply, NextHistory;
    if i > 0 {
      FamilyInvariant(states, steps, i - 1);
      FamiliesStep(states[i - 1], steps[i - 1].now, steps[i - 1].op);
    }
  }

  lemma EvolvesTransitive(h: History, a: RefreshTables, g: History, b: RefreshTables, c: RefreshTables)
    requires Evolves(h, a, b) && Evolves(g, b, c)
    requires h.secrets <= g.secrets && h.sessionIds <= g.sessionIds
    ensures Evolves(h, a, c)
  {
    forall sid | sid in c.sessions && sid in h.sessionIds
      ensures sid in a.sessions && SessionEvolves(a.sessions[sid], c.sessions[sid])
    {
      assert SessionEvolves(b.sessions[sid], c.sessions[sid]);
    }
    forall x | x in c.tokens && x in h.secrets
      ensures x in a.tokens && TokenEvolves(a.tokens[x], c.tokens[x])
    {
      assert TokenEvolves(b.tokens[x], c.tokens[x]);
    }
  }

  /** Between any two moments of a run, a session keeps its owner, scope and expiry and a token
    * its session and expiry; what was revoked or consumed stays so with the same time and reason;
    * and a row that was gone does not return. */
  lemma {:induction false} FamiliesEvolve(states: seq<World>, steps: seq<Step>, i: nat, j: nat)
    requires IsRun(states, steps) && i <= j < |states|
    ensures Evolves(states[i].hist, states[i].db.refresh, states[j].db.refresh)
    ensures states[i].hist.secrets <= states[j].hist.secrets
    ensures states[i].hist.sessionIds <= states[j].hist.sessionIds
    decreases j
  {
    hide Apply, NextHistory, Enabled, Evolves, FamilyShape;
    if i == j {
      FamilyInvariant(states, steps, i);
      EvolvesReflexive(states[i]);
    } else {
      var before, step := states[j - 1], steps[j - 1];
      FamiliesEvolve(states, steps, i, j - 1);
      FamilyInvariant(states, steps, j - 1);
      StepEvolves(before, step.now, step.op);
      HistoryGrows(before, step.now, step.op);
      EvolvesTransitive(states[i].hist, states[i].db.refresh, before.hist, before.db.refresh, states[j].db.refresh);
    }
  }

  lemma EvolvesReflexive(w: World)
    ensures Evolves(w.hist, w.db.refresh, w.db.refresh)
  {
  }

  /** No token of a revoked session, its newest included, is redeemed at any later step. */
  lemma RevokedIsFinal(states: seq<World>, steps: seq<Step>, i: nat, j: nat, sid: SessionId)
    requires IsRun(states, steps) && i <= j < |steps| && steps[j].op.OnSession?
    requires sid in states[i].db.refresh.sessions && states[i].db.refresh.sessions[sid].revoked.Some?
    ensures match Rotated(states[j], steps[j].now, steps[j].op.session)
            case Some(Consumed(s, _, _, _, _)) => s != sid
            case _ => true
  {
    hide Next, Enabled, FamilyShape, ContextActive;
    FamilyInvariant(states, steps, i);
    FamiliesEvolve(states, steps, i, j);
  }

  /** The presented token is unexpired, of the right scope and backed by an active context. */
  ghost predicate Presentable(w: World, now: Time, p: RotateParams, sid: SessionId) {
    var r := w.db.refresh;
    && p.token in r.tokens
    && r.tokens[p.token].session == sid
    && sid in r.sessions
    && r.sessions[sid].organization == p.expectedOrganization
    && (p.expectedOrganization.Some? ==>
          ContextActive(w.db.tenancy, p.expectedOrganization.value, r.sessions[sid].principal))
    && r.sessions[sid].expires > now
  }

  /** Replay kills the family: presenting a consumed or revoked token revokes its session, and
    * no token of that session, the newest included, is redeemed at any later step. */
  lemma ReplayKillsFamily(states: seq<World>, steps: seq<Step>, i: nat, j: nat, p: RotateParams, sid: SessionId)
    requires IsRun(states, steps) && i < j < |steps| && steps[j].op.OnSession?
    requires steps[i].op == OnSession(RotateSession(p)) && Presentable(states[i], steps[i].now, p, sid)
    requires Spent(states[i].db.refresh.tokens[p.token], states[i].db.refresh.sessions[sid])
    ensures Rotated(states[i], steps[i].now, steps[i].op.session) == Some(Replayed(sid))
    ensures sid in states[i + 1].db.refresh.sessions && states[i + 1].db.refresh.sessions[sid].revoked.Some?
    ensures match Rotated(states[j], steps[j].now, steps[j].op.session)
            case Some(Consumed(s, _, _, _, _)) => s != sid
            case _ => true
  {
    hide FamilyShape, ContextActive, Enabled, NextHistory;
    FamilyInvariant(states, steps, i);
    TokenExpiresWithSession(states[i], p.token);
    assert states[i + 1].db.refresh == Rotate(states[i].db.tenancy, states[i].db.refresh, steps[i].now, p).0;
    RevokedIsFinal(states, steps, i + 1, j, sid);
  }

  lemma TokenExpiresWithSession(w: World, x: Token)
    requires Families(w) && x in w.db.refresh.tokens
    ensures TokenShape(w.db.refresh, x)
  {
  }

  /** A token of another scope is turned away without changing any row. */
  lemma ScopeMismatchIsInert(w: World, now: Time, p: RotateParams)
    requires Families(w) && p.token in w.db.refresh.tokens
    requires w.db.refresh.sessions[w.db.refresh.tokens[p.token].session].organization != p.expectedOrganization
    ensures Rotated(w, now, RotateSession(p)) == Some(OrganizationScopeMismatch)
    ensures Apply(w, now, OnSession(RotateSession(p))) == w.db
  {
    hide FamilyShape, ContextActive;
    TokenExpiresWithSession(w, p.token);
  }

  /** Rotation never extends a session's life or moves its scope: what it hands back at any later
    * step is the owner, client, organization and expiry the session had before. */
  lemma RotationKeepsScope(states: seq<World>, steps: seq<Step>, i: nat, j: nat, sid: SessionId)
    requires IsRun(states, steps) && i <= j < |steps| && steps[j].op.OnSession?
    requires sid in states[i].db.refresh.sessions
    ensures match Rotated(states[j], steps[j].now, steps[j].op.session)
            case Some(Consumed(s, principal, client, organization, expires)) =>
              s == sid ==>
                var first := states[i].db.refresh.sessions[sid];
                && principal == first.principal
                && client == first.client
                && organization == first.organization
                && ToTimestamp(expires) == first.expires
            case _ => true
  {
    hide Next, Enabled, ContextActive;
    FamilyInvariant(states, steps, i);
    FamiliesEvolve(states, steps, i, j);
    assert SessionShape(states[i].db.refresh, states[i].hist.rotations, sid);
  }

  lemma CreateStores(t: Tenancy, r: RefreshTables, p: CreateParams)
    requires Create(t, r, p).1.Ok?
    ensures var after := Create(t, r, p).0;
            && p.session in after.sessions
            && after.sessions[p.session].principal == p.principal
            && after.sessions[p.session].client == p.client
            && after.sessions[p.session].organization == p.organization
            && after.sessions[p.session].expires == ToTimestamp(p.expires)
            && IsCurrent(after, p.session, p.token)
  {
    hide ContextActive, CreateConflict;
  }

  /** Whatever happens in between, a session hands back on every rotation the owner, client,
    * organization and expiry second that it was created with. */
  lemma CreatedScopeIsKept(states: seq<World>, steps: seq<Step>, i: nat, j: nat, p: CreateParams)
    requires IsRun(states, steps) && i < j < |steps| && steps[j].op.OnSession?
    requires steps[i].op == OnSession(CreateSession(p)) || steps[i].op == OnSession(ManagementSession(p))
    requires Create(states[i].db.tenancy, states[i].db.refresh, p).1.Ok?
    ensures match Rotated(states[j], steps[j].now, steps[j].op.session)
            case Some(Consumed(sid, principal, client, organization, expires)) =>
              sid == p.session ==>
                principal == p.principal && client == p.client && organization == p.organization && expires == p.expires
            case _ => true
  {
    hide Create, RotateAnswer, Enabled, NextHistory;
    CreateStores(states[i].db.tenancy, states[i].db.refresh, p);
    assert states[i + 1].db.refresh == Create(states[i].db.tenancy, states[i].db.refresh, p).0;
    RotationKeepsScope(states, steps, i + 1, j, p.session);
  }

  /** Only the newest token of a session is ever redeemed, and the token handed out for it is the
    * newest from then on. */
  lemma OnlyNewestIsRedeemed(w: World, now: Time, p: RotateParams)
    requires Families(w) && RotateAnswer(w.db.tenancy, w.db.refresh, now, p).Consumed? && p.token != p.newToken
    ensures var sid := RotateAnswer(w.db.tenancy, w.db.refresh, now, p).session;
            && IsCurrent(w.db.refresh, sid, p.token)
            && IsCurrent(Rotate(w.db.tenancy, w.db.refresh, now, p).0, sid, p.newToken)
            && !IsCurrent(Rotate(w.db.tenancy, w.db.refresh, now, p).0, sid, p.token)
  {
    hide FamilyShape, ContextActive, TokenIdTaken;
    TokenExpiresWithSession(w, p.token);
  }

  /** The account and its principal are fit for the tenant: the two checks that no invariant
    * settles, since the principal's flag is a separate copy and a class change revokes nothing. */
  predicate FitForTenant(t: Tenancy, organization: OrganizationId, principal: PrincipalId)
    requires organization in t.organizations && principal in t.principals && principal.refId in t.users
  {
    && t.principals[principal].active
    && (t.users[principal.refId].userClass == ExternalCustomer ==> t.organizations[organization].kind == CustomerOrg)
  }

  /** In every state of every run the current token of a live session, presented with the
    * session's own scope, is redeemed unless the account is unfit for the tenant. */
  lemma LiveSessionRefreshes(states: seq<World>, steps: seq<Step>, i: nat, p: RotateParams, sid: SessionId)
    requires IsRun(states, steps) && i < |states|
    requires IsCurrent(states[i].db.refresh, sid, p.token)
    requires var s := states[i].db.refresh.sessions[sid];
             Live(s, states[i].clock) && s.organization == p.expectedOrganization
    requires p.newToken !in states[i].db.refresh.tokens && !TokenIdTaken(states[i].db.refresh.tokens, p.newTokenId)
    ensures var w := states[i];
            var s := w.db.refresh.sessions[sid];
            && Backed(w.db.tenancy, s)
            && s.principal in w.db.tenancy.principals
            && (RotateAnswer(w.db.tenancy, w.db.refresh, w.clock, p).Consumed?
                <==> (s.organization.None? || FitForTenant(w.db.tenancy, s.organization.value, s.principal)))
  {
    hide Next, Enabled, FamilyShape, TokenIdTaken;
    FamilyInvariant(states, steps, i);
    TokenExpiresWithSession(states[i], p.token);
    TenantInvariant(states, steps, i);
  }
}
