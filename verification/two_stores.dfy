/** One token string, two tables: no token is redeemed twice across `refresh_sessions` and the
  * older `refresh_tokens`, and none after a logout. */
module TwoStores {
  import opened Schema
  import opened RefreshSession
  import opened LegacyTokens
  import opened World
  import opened SessionFamilies
  import opened FamilyRuns

  /** The step hands out a new token or an access token in exchange for `x`. */
  predicate Redeems(w: World, now: Time, op: Op, x: Token) {
    match op
    case OnSession(RotateSession(p)) => p.token == x && RotateAnswer(w.db.tenancy, w.db.refresh, now, p).Consumed?
    case OnSession(LegacyConsume(token)) => token == x && ConsumeLegacy(w.db.refresh, now, token).1.Some?
    case _ => false
  }

  /** The step completes a logout with `x`: it revoked the session, or it found none earlier and
    * has now revoked the older row. */
  predicate LogsOut(w: World, op: Op, x: Token) {
    match op
    case OnSession(RevokeToken(token, _)) => token == x && x in w.db.refresh.tokens
    case OnSession(LegacyRevokeToken(token)) => token == x
    case _ => false
  }

  /** The session behind `x` belongs to a client, so no cascade ever removes it. */
  predicate ClientOwned(r: RefreshTables, x: Token) {
    && x in r.tokens
    && r.tokens[x].session in r.sessions
    && r.sessions[r.tokens[x].session].principal.kind == ClientKind
  }

  /** How the two tables and the requests in flight stand to each other on `x`. */
  ghost predicate Agree(r: RefreshTables, secrets: set<Text>, h: Handlers, clock: Time, x: Token) {
    && (x in r.legacy || x in h.managementPending || x in h.fallback || x in h.logoutPending ==> x in secrets)
    && (x in h.managementPending ==> x !in r.legacy && x !in h.fallback && x !in h.logoutPending)
    && (x in r.tokens && x in r.legacy ==> ClientOwned(r, x) && r.tokens[x].expires == r.legacy[x].expires)
    && (x in r.tokens && x in h.managementPending ==>
          ClientOwned(r, x) && r.tokens[x].expires == h.managementPending[x])
    && (x in r.tokens && x in h.fallback ==> r.tokens[x].expires <= clock)
    && (x in h.logoutPending ==> x !in r.tokens)
  }

  ghost predicate AgreeIn(w: World, x: Token) {
    Agree(w.db.refresh, w.hist.secrets, w.hist.handlers, w.clock, x)
  }

  /** What a step may do to the session rows behind a known token. */
  ghost predicate Advances(before: RefreshTables, after: RefreshTables, x: Token) {
    && (x in after.tokens ==> x in before.tokens && after.tokens[x].expires == before.tokens[x].expires)
    && (ClientOwned(before, x) ==> ClientOwned(after, x))
    && (x in after.tokens && x in before.tokens && before.tokens[x].session in before.sessions
        && Spent(before.tokens[x], before.sessions[before.tokens[x].session]) ==>
          after.tokens[x].session in after.sessions
          && Spent(after.tokens[x], after.sessions[after.tokens[x].session]))
  }

  lemma OnlyRevokedAdvances(before: RefreshTables, after: RefreshTables, x: Token)
    requires TokensHaveSessions(before) && OnlyRevoked(before, after)
    ensures Advances(before, after, x)
  {
  }

  lemma CreateAdvances(t: Tenancy, r: RefreshTables, p: CreateParams, x: Token)
    requires x != p.token
    ensures Advances(r, Create(t, r, p).0, x)
    ensures Create(t, r, p).0.legacy == r.legacy
  {
    hide ContextActive, TokenIdTaken;
  }

  lemma RotateAdvances(t: Tenancy, r: RefreshTables, now: Time, p: RotateParams, x: Token)
    requires x != p.newToken && TokensHaveSessions(r)
    ensures Advances(r, Rotate(t, r, now, p).0, x)
    ensures Rotate(t, r, now, p).0.legacy == r.legacy
  {
    hide ContextActive, TokenIdTaken;
  }

  /** Every step advances the rows of every token already known. */
  lemma StepAdvances(w: World, now: Time, op: Op, x: Token)
    requires Families(w) && Enabled(w, now, op) && x in w.hist.secrets
    ensures Advances(w.db.refresh, Apply(w, now, op).refresh, x)
  {
    hide FamilyShape, Advances, OnlyRevoked, TokensHaveSessions, Create, Rotate,
         ApplyTenant, ApplyUser, ApplyRole, ApplyCode, ApplyProof;
    ShapeHasSessions(w.db.refresh, w.hist.rotations);
    if !CreatesOrRotates(op) {
      StepOnlyRevokes(w, now, op);
      OnlyRevokedAdvances(w.db.refresh, Apply(w, now, op).refresh, x);
    } else if op.session.RotateSession? {
      RotateAdvances(w.db.tenancy, w.db.refresh, now, op.session.rotate, x);
    } else {
      CreateAdvances(w.db.tenancy, w.db.refresh, op.session.create, x);
    }
  }

  /** Steps that leave the older table and the requests in flight alone. */
  lemma AdvancingAgrees(before: RefreshTables, after: RefreshTables, secrets: set<Text>, more: set<Text>, h: Handlers,
                        clock: Time, now: Time, x: Token)
    requires Agree(before, secrets, h, clock, x) && clock <= now && secrets <= more
    requires x in secrets ==> Advances(before, after, x)
    requires after.legacy == before.legacy
    ensures Agree(after, more, h, now, x)
  {
  }

  /** A refresh goes on to the older table only when the session row is missing or expired, and
    * both rows expire together. */
  lemma NotFoundMeansExpired(w: World, now: Time, p: RotateParams)
    requires Families(w) && RotateAnswer(w.db.tenancy, w.db.refresh, now, p).NotFound?
    ensures Rotate(w.db.tenancy, w.db.refresh, now, p).0 == w.db.refresh
    ensures p.token in w.db.refresh.tokens ==> w.db.refresh.tokens[p.token].expires <= now
  {
    hide FamilyShape, ContextActive, TokenIdTaken;
    if p.token in w.db.refresh.tokens {
      TokenExpiresWithSession(w, p.token);
    }
  }

  lemma RotationAgrees(w: World, now: Time, p: RotateParams, x: Token)
    requires Families(w) && AgreeIn(w, x) && Enabled(w, now, OnSession(RotateSession(p)))
    ensures AgreeIn(Next(w, now, OnSession(RotateSession(p))), x)
  {
    hide FamilyShape, Advances, Rotate, RotateAnswer, RotationsAfter;
    var op := OnSession(RotateSession(p));
    ShapeHasSessions(w.db.refresh, w.hist.rotations);
    if x in w.hist.secrets {
      RotateAdvances(w.db.tenancy, w.db.refresh, now, p, x);
    }
    var after := Rotate(w.db.tenancy, w.db.refresh, now, p).0;
    RotateKeepsLegacy(w.db.tenancy, w.db.refresh, now, p);
    AdvancingAgrees(w.db.refresh, after, w.hist.secrets, w.hist.secrets + SecretsOf(op), w.hist.handlers, w.clock, now,
                    x);
    if RotateAnswer(w.db.tenancy, w.db.refresh, now, p).NotFound? {
      NotFoundMeansExpired(w, now, p);
    }
  }

  lemma RotateKeepsLegacy(t: Tenancy, r: RefreshTables, now: Time, p: RotateParams)
    ensures Rotate(t, r, now, p).0.legacy == r.legacy
  {
    hide ContextActive, TokenIdTaken;
  }

  /** A management login writes the session row first, under the expiry it carries on to the
    * older table. */
  lemma CreationAgrees(w: World, now: Time, op: SessionOp, x: Token)
    requires Families(w) && AgreeIn(w, x) && Enabled(w, now, OnSession(op))
    requires op.CreateSession? || op.ManagementSession?
    ensures AgreeIn(Next(w, now, OnSession(op)), x)
  {
    hide FamilyShape, ContextActive, CreateConflict, RotationsAfter, Advances;
    if x in w.hist.secrets {
      CreateAdvances(w.db.tenancy, w.db.refresh, op.create, x);
    }
    var after := Create(w.db.tenancy, w.db.refresh, op.create).0;
    AdvancingAgrees(w.db.refresh, after, w.hist.secrets, w.hist.secrets + SecretsOf(OnSession(op)), w.hist.handlers,
                    w.clock, now, x);
  }

  predicate TouchesLegacy(op: SessionOp) {
    op.ManagementNoPrincipal? || op.ManagementLegacy? || op.LegacyConsume? || op.LegacyRevokeToken?
    || op.LegacyRevokeId? || op.LegacyRevokeClient? || op.LegacyCleanup?
  }

  lemma LegacyAgrees(w: World, now: Time, op: SessionOp, x: Token)
    requires Families(w) && AgreeIn(w, x) && Enabled(w, now, OnSession(op)) && TouchesLegacy(op)
    ensures AgreeIn(Next(w, now, OnSession(op)), x)
  {
    hide FamilyShape, RotationsAfter;
  }

  lemma RevocationAgrees(w: World, now: Time, op: SessionOp, x: Token)
    requires Families(w) && AgreeIn(w, x) && Enabled(w, now, OnSession(op))
    requires op.RevokeOne? || op.RevokeToken? || op.RevokeMany?
    ensures AgreeIn(Next(w, now, OnSession(op)), x)
  {
    hide FamilyShape, Advances, RotationsAfter, RevokeById, RevokeWhere;
    if x in w.hist.secrets {
      StepAdvances(w, now, OnSession(op), x);
    }
    AdvancingAgrees(w.db.refresh, Apply(w, now, OnSession(op)).refresh, w.hist.secrets,
                    w.hist.secrets + SecretsOf(OnSession(op)), w.hist.handlers, w.clock, now, x);
  }

  lemma AgreeStep(w: World, now: Time, op: Op, x: Token)
    requires Families(w) && AgreeIn(w, x) && Enabled(w, now, op)
    ensures AgreeIn(Next(w, now, op), x)
  {
    hide FamilyShape, Advances, OnlyRevoked, ApplyTenant, ApplyUser, ApplyRole, ApplyCode, ApplyProof, Families, Agree,
         SessionEnabled, RotationsAfter, HandlersAfter;
    if op.OnSession? {
      var o := op.session;
      if o.RotateSession? {
        RotationAgrees(w, now, o.rotate, x);
      } else if o.CreateSession? || o.ManagementSession? {
        CreationAgrees(w, now, o, x);
      } else if TouchesLegacy(o) {
        LegacyAgrees(w, now, o, x);
      } else {
        RevocationAgrees(w, now, o, x);
      }
    } else {
      ElsewhereAgrees(w, now, op, x);
    }
  }

  lemma ElsewhereAgrees(w: World, now: Time, op: Op, x: Token)
    requires Families(w) && AgreeIn(w, x) && Enabled(w, now, op) && !op.OnSession?
    ensures AgreeIn(Next(w, now, op), x)
  {
    hide FamilyShape, Advances, Apply;
    if x in w.hist.secrets {
      StepAdvances(w, now, op, x);
    }
    ShapeHasSessions(w.db.refresh, w.hist.rotations);
    StepOnlyRevokes(w, now, op);
    AdvancingAgrees(w.db.refresh, Apply(w, now, op).refresh, w.hist.secrets, NextHistory(w, now, op).secrets,
                    w.hist.handlers, w.clock, now, x);
  }

  lemma {:induction false} AgreeInvariant(states: seq<World>, steps: seq<Step>, i: nat, x: Token)
    requires IsRun(states, steps) && i < |states|
    ensures AgreeIn(states[i], x)
  {
    hide Apply, NextHistory, Enabled;
    if i > 0 {
      AgreeInvariant(states, steps, i - 1, x);
      FamilyInvariant(states, steps, i - 1);
      AgreeStep(states[i - 1], steps[i - 1].now, steps[i - 1].op, x);
    }
  }

  /** Neither table can honour `x` any more: its session token is spent or gone, and the older
    * row is absent, revoked, or shadowed by the session row. */
  ghost predicate Dead(w: World, x: Token) {
    var r := w.db.refresh;
    && x in w.hist.secrets
    && x !in w.hist.handlers.managementPending
    && (x in r.tokens ==> r.tokens[x].session in r.sessions && Spent(r.tokens[x], r.sessions[r.tokens[x].session]))
    && (x in r.legacy ==> r.legacy[x].revoked || x in r.tokens)
  }

  lemma DeadIsRefused(w: World, now: Time, op: Op, x: Token)
    requires AgreeIn(w, x) && Dead(w, x) && Enabled(w, now, op)
    ensures !Redeems(w, now, op, x)
  {
    hide ContextActive, TokenIdTaken;
  }

  /** The older table: rows are created for pending logins only, and revocation is final. */
  lemma LegacyStep(w: World, now: Time, op: Op, x: Token)
    requires Families(w) && x in w.hist.secrets && x !in w.hist.handlers.managementPending && Enabled(w, now, op)
    ensures x !in NextHistory(w, now, op).handlers.managementPending
    ensures var after := Apply(w, now, op).refresh.legacy;
            x in after ==> x in w.db.refresh.legacy && (w.db.refresh.legacy[x].revoked ==> after[x].revoked)
  {
    hide FamilyShape, RotationsAfter, HandlersAfter, ApplySession,
         ApplyTenant, ApplyUser, ApplyRole, ApplyCode, ApplyProof, OnlyRevoked;
    if !op.OnSession? {
      ShapeHasSessions(w.db.refresh, w.hist.rotations);
      StepOnlyRevokes(w, now, op);
    } else {
      LegacySessionStep(w, now, op.session, x);
    }
  }

  lemma LegacySessionStep(w: World, now: Time, op: SessionOp, x: Token)
    requires Families(w) && x in w.hist.secrets && x !in w.hist.handlers.managementPending && SessionEnabled(w.hist, op)
    ensures x !in HandlersAfter(w, now, op).managementPending
    ensures var before := w.db.refresh.legacy;
            var after := ApplySession(w.db.tenancy, w.db.refresh, w.hist.handlers.managementPending, now, op).legacy;
            x in after ==> x in before && (before[x].revoked ==> after[x].revoked)
  {
    hide FamilyShape, Create, Rotate, RotateAnswer;
    if op.RotateSession? {
      RotateKeepsLegacy(w.db.tenancy, w.db.refresh, now, op.rotate);
    } else if op.CreateSession? || op.ManagementSession? {
      CreateAdvances(w.db.tenancy, w.db.refresh, op.create, x);
    }
  }

  lemma DeadStep(w: World, now: Time, op: Op, x: Token)
    requires Families(w) && AgreeIn(w, x) && Dead(w, x) && Enabled(w, now, op)
    ensures Dead(Next(w, now, op), x)
  {
    hide FamilyShape, Apply, NextHistory, Enabled;
    StepAdvances(w, now, op, x);
    LegacyStep(w, now, op, x);
    HistoryGrows(w, now, op);
  }

  lemma {:induction false} DeadStaysDead(states: seq<World>, steps: seq<Step>, i: nat, j: nat, x: Token)
    requires IsRun(states, steps) && i <= j < |states| && Dead(states[i], x)
    ensures Dead(states[j], x)
    decreases j
  {
    hide Apply, NextHistory, Enabled, Dead, AgreeIn;
    if i < j {
      DeadStaysDead(states, steps, i, j - 1, x);
      FamilyInvariant(states, steps, j - 1);
      AgreeInvariant(states, steps, j - 1, x);
      DeadStep(states[j - 1], steps[j - 1].now, steps[j - 1].op, x);
    }
  }

  lemma RotationKills(w: World, now: Time, p: RotateParams)
    requires Families(w) && Enabled(w, now, OnSession(RotateSession(p)))
    requires RotateAnswer(w.db.tenancy, w.db.refresh, now, p).Consumed?
    ensures Dead(Next(w, now, OnSession(RotateSession(p))), p.token)
  {
    hide FamilyShape, ContextActive, TokenIdTaken, RotationsAfter;
  }

  lemma LegacyRedemptionKills(w: World, now: Time, x: Token)
    requires Families(w) && AgreeIn(w, x) && Enabled(w, now, OnSession(LegacyConsume(x)))
    requires ConsumeLegacy(w.db.refresh, now, x).1.Some?
    ensures Dead(Next(w, now, OnSession(LegacyConsume(x))), x)
  {
    hide FamilyShape, RotationsAfter;
  }

  lemma LogoutKills(w: World, now: Time, op: Op, x: Token)
    requires Families(w) && AgreeIn(w, x) && Enabled(w, now, op) && LogsOut(w, op, x)
    ensures Dead(Next(w, now, op), x)
  {
    hide FamilyShape, RotationsAfter;
    if op.session.RevokeToken? {
      TokenExpiresWithSession(w, x);
    }
  }

  /** Cleaning up the older table changes no later answer: only expired rows go. */
  lemma CleanupChangesNoAnswer(r: RefreshTables, now: Time, later: Time, x: Token)
    requires now <= later
    ensures ConsumeLegacy(CleanupLegacy(r, now), later, x).1 == ConsumeLegacy(r, later, x).1
  {
  }

  /** Across both tables, over every run, a token string is redeemed at most once. */
  lemma RedeemedAtMostOnce(states: seq<World>, steps: seq<Step>, i: nat, j: nat, x: Token)
    requires IsRun(states, steps) && i < j < |steps| && Redeems(states[i], steps[i].now, steps[i].op, x)
    ensures !Redeems(states[j], steps[j].now, steps[j].op, x)
  {
    hide Apply, NextHistory, Enabled, Dead, AgreeIn, Families, RotateAnswer, ConsumeLegacy;
    FamilyInvariant(states, steps, i);
    AgreeInvariant(states, steps, i, x);
    if steps[i].op.session.RotateSession? {
      RotationKills(states[i], steps[i].now, steps[i].op.session.rotate);
    } else {
      LegacyRedemptionKills(states[i], steps[i].now, x);
    }
    DeadStaysDead(states, steps, i + 1, j, x);
    AgreeInvariant(states, steps, j, x);
    DeadIsRefused(states[j], steps[j].now, steps[j].op, x);
  }

  /** A logged-out token is never redeemed afterwards, from either table. */
  lemma LoggedOutIsFinal(states: seq<World>, steps: seq<Step>, i: nat, j: nat, x: Token)
    requires IsRun(states, steps) && i < j < |steps| && LogsOut(states[i], steps[i].op, x)
    ensures !Redeems(states[j], steps[j].now, steps[j].op, x)
  {
    hide Apply, NextHistory, Enabled, Dead, AgreeIn, Families, RotateAnswer, ConsumeLegacy;
    FamilyInvariant(states, steps, i);
    AgreeInvariant(states, steps, i, x);
    LogoutKills(states[i], steps[i].now, steps[i].op, x);
    DeadStaysDead(states, steps, i + 1, j, x);
    AgreeInvariant(states, steps, j, x);
    DeadIsRefused(states[j], steps[j].now, steps[j].op, x);
  }
}
