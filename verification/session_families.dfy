/** Token families: their shape, and what no step ever changes about them. */
module SessionFamilies {
  import opened Schema
  import opened RefreshSession
  import opened LegacyTokens
  import opened Organizations
  import opened Users
  import opened AccountProofs
  import opened World

  /** Scope, owner and expiry are fixed; revocation and its reason are written once. */
  predicate SessionEvolves(a: Session, b: Session) {
    && a.principal == b.principal
    && a.client == b.client
    && a.organization == b.organization
    && a.expires == b.expires
    && (a.revoked.Some? ==> b.revoked == a.revoked)
    && (a.reason.Some? ==> b.reason == a.reason)
  }

  predicate TokenEvolves(a: SessionToken, b: SessionToken) {
    && a.tokenId == b.tokenId
    && a.session == b.session
    && a.expires == b.expires
    && (a.consumed.Some? ==> b.consumed == a.consumed)
    && (a.revoked.Some? ==> b.revoked == a.revoked)
  }

  /** The common effect of every transaction but creation and rotation: sessions are revoked,
    * or vanish with their tokens, and nothing else about a family changes. */
  ghost predicate OnlyRevoked(before: RefreshTables, after: RefreshTables) {
    && (forall sid | sid in after.sessions ::
          && sid in before.sessions
          && SessionEvolves(before.sessions[sid], after.sessions[sid])
          && before.sessions[sid].currentTokenId == after.sessions[sid].currentTokenId)
    && (forall sid | sid in before.sessions && before.sessions[sid].principal.kind != UserKind :: sid in after.sessions)
    && (forall x | x in before.tokens :: before.tokens[x].session in after.sessions ==> x in after.tokens)
    && (forall x | x in after.tokens ::
          && x in before.tokens
          && before.tokens[x].session in after.sessions
          && TokenEvolves(before.tokens[x], after.tokens[x])
          && before.tokens[x].consumed == after.tokens[x].consumed
          && (after.tokens[x].revoked.None? || after.tokens[x].revoked == before.tokens[x].revoked
              || after.sessions[after.tokens[x].session].revoked.Some?))
  }

  /** Every token belongs to a session. */
  ghost predicate TokensHaveSessions(r: RefreshTables) {
    forall x | x in r.tokens :: r.tokens[x].session in r.sessions
  }

  lemma RevokeWhereOnlyRevokes(r: RefreshTables, filter: SessionFilter, now: Time, reason: Option<RevokeReason>)
    requires TokensHaveSessions(r)
    ensures OnlyRevoked(r, r.(sessions := RevokeWhere(r.sessions, filter, now, reason)))
  {
  }

  lemma Unchanged(r: RefreshTables, after: RefreshTables)
    requires TokensHaveSessions(r) && after.sessions == r.sessions && after.tokens == r.tokens
    ensures OnlyRevoked(r, after)
  {
  }

  predicate CreatesOrRotates(op: Op) {
    op.OnSession? && (op.session.CreateSession? || op.session.ManagementSession? || op.session.RotateSession?)
  }

  lemma SessionOpOnlyRevokes(t: Tenancy, r: RefreshTables, pending: map<Token, Time>, now: Time, op: SessionOp)
    requires TokensHaveSessions(r) && !CreatesOrRotates(OnSession(op))
    ensures OnlyRevoked(r, ApplySession(t, r, pending, now, op))
  {
    match op
    case RevokeOne(sid, reason) =>
    case RevokeToken(token, reason) =>
    case RevokeMany(filter, reason) => RevokeWhereOnlyRevokes(r, filter, now, reason);
    case _ => Unchanged(r, ApplySession(t, r, pending, now, op));
  }

  lemma TenantOpOnlyRevokes(db: DB, now: Time, op: TenantOp)
    requires TokensHaveSessions(db.refresh)
    ensures OnlyRevoked(db.refresh, ApplyTenant(db, now, op).refresh)
    ensures ApplyTenant(db, now, op).refresh.legacy == db.refresh.legacy
  {
    hide OnlyRevoked, TokensHaveSessions, RevokeWhere, LockManagerContext, MembershipError, ManagerWriteError;
    Unchanged(db.refresh, db.refresh);
    match op
    case ChangeStatus(id, status) =>
      RevokeWhereOnlyRevokes(db.refresh, OfOrganization(id), now, Some(OrganizationBecame(status)));
    case PutMembership(p) =>
      RevokeWhereOnlyRevokes(db.refresh, OfMember(p.organization, p.principal), now, Some(MembershipBecame(p.status)));
    case PutMembershipAsManager(_, p) =>
      RevokeWhereOnlyRevokes(db.refresh, OfMember(p.organization, p.principal), now, Some(MembershipBecame(p.status)));
    case _ =>
  }

  lemma UserRevocationOnlyRevokes(r: RefreshTables, user: UserId, now: Time, reason: RevokeReason)
    requires TokensHaveSessions(r)
    ensures OnlyRevoked(r, RevokeUserSessions(r, user, now, reason))
    ensures RevokeUserSessions(r, user, now, reason).legacy == r.legacy
  {
    RevokeWhereOnlyRevokes(r, OfPrincipal(UserPrincipal(user)), now, Some(reason));
  }

  lemma DeleteOnlyRevokes(r: RefreshTables, now: Time, user: UserId)
    requires TokensHaveSessions(r)
    ensures var after := WithoutPrincipalSessions(RevokeUserSessions(r, user, now, UserDeleted), UserPrincipal(user));
            OnlyRevoked(r, after) && after.legacy == r.legacy
  {
  }

  lemma UserOpOnlyRevokes(db: DB, now: Time, op: UserOp)
    requires TokensHaveSessions(db.refresh)
    ensures OnlyRevoked(db.refresh, ApplyUser(db, now, op).refresh)
    ensures ApplyUser(db, now, op).refresh.legacy == db.refresh.legacy
  {
    hide OnlyRevoked, TokensHaveSessions, RevokeUserSessions, WithoutPrincipalSessions, ProofsAfterUpdate,
         NameOrEmailTaken, HasPlatformRole;
    Unchanged(db.refresh, db.refresh);
    match op
    case ChangeUser(user, _) =>
      UserRevocationOnlyRevokes(db.refresh, user, now, UserDisabled);
      UserRevocationOnlyRevokes(db.refresh, user, now, PasswordUpdated);
    case ChangeActive(user, _) => UserRevocationOnlyRevokes(db.refresh, user, now, UserDisabled);
    case RemoveUser(user) => DeleteOnlyRevokes(db.refresh, now, user);
    case AdminResetPassword(user, _) => UserRevocationOnlyRevokes(db.refresh, user, now, PasswordWasReset);
    case OwnPasswordChange(user, _, _) => UserRevocationOnlyRevokes(db.refresh, user, now, PasswordChanged);
    case _ =>
  }

  lemma ProofOpOnlyRevokes(db: DB, now: Time, op: ProofOp)
    requires TokensHaveSessions(db.refresh)
    ensures OnlyRevoked(db.refresh, ApplyProof(db, now, op).refresh)
    ensures ApplyProof(db, now, op).refresh.legacy == db.refresh.legacy
  {
    hide OnlyRevoked, TokensHaveSessions, RevokeUserSessions, RevokePendingProofs, RevokeIfPending;
    Unchanged(db.refresh, db.refresh);
    if op.UseResetProof? && op.token in db.proofs.reset {
      UserRevocationOnlyRevokes(db.refresh, db.proofs.reset[op.token].user, now, PasswordWasReset);
    }
  }

  /** Every step that neither creates nor rotates a session. */
  lemma StepOnlyRevokes(w: World, now: Time, op: Op)
    requires TokensHaveSessions(w.db.refresh) && !CreatesOrRotates(op)
    ensures OnlyRevoked(w.db.refresh, Apply(w, now, op).refresh)
    ensures !op.OnSession? ==> Apply(w, now, op).refresh.legacy == w.db.refresh.legacy
  {
    hide OnlyRevoked, TokensHaveSessions, ApplySession, ApplyTenant, ApplyUser, ApplyCode, ApplyProof;
    Unchanged(w.db.refresh, w.db.refresh);
    match op
    case OnSession(o) =>
      SessionOpOnlyRevokes(w.db.tenancy, w.db.refresh, w.hist.handlers.managementPending, now, o);
    case OnTenant(o) => TenantOpOnlyRevokes(w.db, now, o);
    case OnUser(o) => UserOpOnlyRevokes(w.db, now, o);
    case OnRole(_) =>
    case OnCode(_) =>
    case OnProof(o) => ProofOpOnlyRevokes(w.db, now, o);
  }

  function TokensOf(tokens: map<Token, SessionToken>, sid: SessionId): set<Token> {
    set x | x in tokens && tokens[x].session == sid
  }

  /** `x` is the unconsumed token that the session names as its current one. */
  predicate IsCurrent(r: RefreshTables, sid: SessionId, x: Token) {
    && sid in r.sessions
    && x in r.tokens
    && r.tokens[x].session == sid
    && r.tokens[x].consumed.None?
    && r.tokens[x].tokenId == r.sessions[sid].currentTokenId
  }

  predicate WholeSeconds(t: Time) {
    t == ToTimestamp(EpochSeconds(t))
  }

  ghost predicate TokenShape(r: RefreshTables, x: Token)
    requires x in r.tokens
  {
    var token := r.tokens[x];
    && token.session in r.sessions
    && token.expires == r.sessions[token.session].expires
    && (token.consumed.None? ==> token.tokenId == r.sessions[token.session].currentTokenId)
    && (token.revoked.Some? ==> r.sessions[token.session].revoked.Some?)
  }

  ghost predicate SessionShape(r: RefreshTables, rotations: map<SessionId, nat>, sid: SessionId)
    requires sid in r.sessions
  {
    && WholeSeconds(r.sessions[sid].expires)
    && (exists x :: IsCurrent(r, sid, x))
    && sid in rotations
    && |TokensOf(r.tokens, sid)| == rotations[sid] + 1
  }

  ghost predicate FamilyShape(r: RefreshTables, rotations: map<SessionId, nat>) {
    && (forall x | x in r.tokens :: TokenShape(r, x))
    && (forall x, y | x in r.tokens && y in r.tokens && r.tokens[x].tokenId == r.tokens[y].tokenId :: x == y)
    && (forall sid | sid in r.sessions :: SessionShape(r, rotations, sid))
  }

  /** The shape in the words of the source: every session has exactly one unconsumed token, the
    * current one; it has been rotated once for every other token; and every token carries the
    * expiry of its session. */
  lemma ExactlyOneUnconsumed(r: RefreshTables, rotations: map<SessionId, nat>, sid: SessionId)
    requires FamilyShape(r, rotations) && sid in r.sessions
    ensures exists x :: IsCurrent(r, sid, x)
                        && forall y | y in TokensOf(r.tokens, sid) && r.tokens[y].consumed.None? :: y == x
    ensures sid in rotations && |TokensOf(r.tokens, sid)| - 1 == rotations[sid]
    ensures forall y | y in TokensOf(r.tokens, sid) :: r.tokens[y].expires == r.sessions[sid].expires
  {
    assert SessionShape(r, rotations, sid);
    var x :| IsCurrent(r, sid, x);
    forall y | y in TokensOf(r.tokens, sid) && r.tokens[y].consumed.None?
      ensures y == x
    {
      assert TokenShape(r, y);
    }
    forall y | y in TokensOf(r.tokens, sid)
      ensures r.tokens[y].expires == r.sessions[sid].expires
    {
      assert TokenShape(r, y);
    }
  }

  lemma ShapeHasSessions(r: RefreshTables, rotations: map<SessionId, nat>)
    requires FamilyShape(r, rotations)
    ensures TokensHaveSessions(r)
  {
    forall x | x in r.tokens
      ensures r.tokens[x].session in r.sessions
    {
      assert TokenShape(r, x);
    }
  }

  lemma OnlyRevokedKeepsShape(before: RefreshTables, after: RefreshTables, rotations: map<SessionId, nat>)
    requires FamilyShape(before, rotations) && OnlyRevoked(before, after)
    ensures FamilyShape(after, rotations)
  {
    forall x | x in after.tokens
      ensures TokenShape(after, x)
    {
      assert TokenShape(before, x);
    }
    forall sid | sid in after.sessions
      ensures SessionShape(after, rotations, sid)
    {
      assert SessionShape(before, rotations, sid);
      var x :| IsCurrent(before, sid, x);
      assert IsCurrent(after, sid, x);
      SameTokens(before.tokens, after.tokens, sid);
    }
  }

  lemma SameTokens(before: map<Token, SessionToken>, after: map<Token, SessionToken>, sid: SessionId)
    requires forall x | x in before && before[x].session == sid :: x in after
    requires forall x | x in after && (x in before || after[x].session == sid) ::
               x in before && after[x].session == before[x].session
    ensures TokensOf(after, sid) == TokensOf(before, sid)
  {
    forall x
      ensures x in TokensOf(after, sid) <==> x in TokensOf(before, sid)
    {
    }
  }

  lemma CreateKeepsShape(t: Tenancy, r: RefreshTables, rotations: map<SessionId, nat>, p: CreateParams)
    requires FamilyShape(r, rotations) && Create(t, r, p).1.Ok?
    ensures FamilyShape(Create(t, r, p).0, rotations[p.session := 0])
  {
    hide ContextActive;
    var after := Create(t, r, p).0;
    EpochRoundTrip(p.expires);
    forall x | x in after.tokens
      ensures TokenShape(after, x)
    {
      if x != p.token {
        assert TokenShape(r, x);
      }
    }
    forall sid | sid in after.sessions
      ensures SessionShape(after, rotations[p.session := 0], sid)
    {
      if sid == p.session {
        assert IsCurrent(after, sid, p.token);
        ShapeHasSessions(r, rotations);
        assert forall x | x in r.tokens :: r.tokens[x].session != sid;
        forall x
          ensures x in TokensOf(after.tokens, sid) <==> x in {p.token}
        {
        }
        assert TokensOf(after.tokens, sid) == {p.token};
      } else {
        assert SessionShape(r, rotations, sid);
        var x :| IsCurrent(r, sid, x);
        assert IsCurrent(after, sid, x);
        SameTokens(r.tokens, after.tokens, sid);
      }
    }
  }

  lemma RotatedTokens(t: Tenancy, r: RefreshTables, rotations: map<SessionId, nat>, now: Time, p: RotateParams,
                      x: Token)
    requires FamilyShape(r, rotations) && RotateAnswer(t, r, now, p).Consumed?
    requires p.newToken != p.token && x in Rotate(t, r, now, p).0.tokens
    ensures TokenShape(Rotate(t, r, now, p).0, x)
  {
    hide ContextActive, TokenIdTaken;
    assert SessionShape(r, rotations, RotateAnswer(t, r, now, p).session);
    assert TokenShape(r, p.token);
    if x != p.newToken {
      assert TokenShape(r, x);
    }
  }

  lemma RotatedSessions(t: Tenancy, r: RefreshTables, rotations: map<SessionId, nat>, now: Time, p: RotateParams,
                        other: SessionId)
    requires FamilyShape(r, rotations) && RotateAnswer(t, r, now, p).Consumed?
    requires p.newToken != p.token && other in Rotate(t, r, now, p).0.sessions
    ensures var sid := RotateAnswer(t, r, now, p).session;
            && sid in rotations
            && SessionShape(Rotate(t, r, now, p).0, rotations[sid := rotations[sid] + 1], other)
  {
    hide ContextActive, TokenIdTaken;
    var after, sid := Rotate(t, r, now, p).0, RotateAnswer(t, r, now, p).session;
    assert SessionShape(r, rotations, sid) && SessionShape(r, rotations, other);
    if other == sid {
      assert IsCurrent(after, sid, p.newToken);
      assert TokensOf(after.tokens, sid) == TokensOf(r.tokens, sid) + {p.newToken};
    } else {
      var x :| IsCurrent(r, other, x);
      assert IsCurrent(after, other, x);
      SameTokens(r.tokens, after.tokens, other);
    }
  }

  /** Rotation consumes the one unconsumed token and adds its successor, the new current one. */
  lemma RotateKeepsShape(t: Tenancy, r: RefreshTables, rotations: map<SessionId, nat>, now: Time, p: RotateParams)
    requires FamilyShape(r, rotations) && RotateAnswer(t, r, now, p).Consumed?
    requires p.newToken != p.token
    ensures var sid := RotateAnswer(t, r, now, p).session;
            && sid in rotations
            && FamilyShape(Rotate(t, r, now, p).0, rotations[sid := rotations[sid] + 1])
  {
    hide ContextActive, TokenShape, SessionShape;
    var after := Rotate(t, r, now, p).0;
    var sid := RotateAnswer(t, r, now, p).session;
    RotatedSessions(t, r, rotations, now, p, sid);
    forall x | x in after.tokens
      ensures TokenShape(after, x)
    {
      RotatedTokens(t, r, rotations, now, p, x);
    }
    forall other | other in after.sessions
      ensures SessionShape(after, rotations[sid := rotations[sid] + 1], other)
    {
      RotatedSessions(t, r, rotations, now, p, other);
    }
  }

  /** A refused rotation at most revokes the session. */
  lemma RefusalOnlyRevokes(t: Tenancy, r: RefreshTables, now: Time, p: RotateParams)
    requires TokensHaveSessions(r) && !RotateAnswer(t, r, now, p).Consumed?
    ensures OnlyRevoked(r, Rotate(t, r, now, p).0)
  {
    hide ContextActive, TokenIdTaken;
  }
}
