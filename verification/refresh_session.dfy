/** Refresh-session transactions (src/db/refresh_session.rs): the effect of each on the tables. */
module RefreshSession {
  import opened Schema

  /** The WHERE clause of a bulk revocation. Every one also demands `revoked_at IS NULL`;
    * the tenant-bound ones revoke only sessions that have not expired. */
  datatype SessionFilter =
    | OfPrincipal(principal: PrincipalId)
    | OfClient(client: ClientId)
    | OfPrincipalClient(principal: PrincipalId, client: ClientId)
    | OfOrganization(organization: OrganizationId)
    | OfMember(organization: OrganizationId, principal: PrincipalId)

  predicate Selects(filter: SessionFilter, s: Session, now: Time) {
    && s.revoked.None?
    && match filter
       case OfPrincipal(p) => s.principal == p
       case OfClient(c) => s.client == c
       case OfPrincipalClient(p, c) => s.principal == p && s.client == c
       case OfOrganization(o) => s.organization == Some(o) && s.expires > now
       case OfMember(o, p) => s.organization == Some(o) && s.principal == p && s.expires > now
  }

  /** `revoked_at = COALESCE(revoked_at, NOW()), revoke_reason = COALESCE(revoke_reason, $2)`. */
  function RevokeRow(s: Session, now: Time, reason: Option<RevokeReason>): Session {
    s.(revoked := Coalesce(s.revoked, Some(now)), reason := Coalesce(s.reason, reason))
  }

  function RevokeWhere(sessions: map<SessionId, Session>, filter: SessionFilter, now: Time,
                       reason: Option<RevokeReason>): map<SessionId, Session>
  {
    map sid | sid in sessions ::
      if Selects(filter, sessions[sid], now) then RevokeRow(sessions[sid], now, reason) else sessions[sid]
  }

  function RevokeById(sessions: map<SessionId, Session>, sid: SessionId, now: Time,
                      reason: Option<RevokeReason>): map<SessionId, Session>
  {
    if sid in sessions then sessions[sid := RevokeRow(sessions[sid], now, reason)] else sessions
  }

  /** The locked checks of `lock_active_organization_session_context`. */
  predicate ContextActive(t: Tenancy, organization: OrganizationId, principal: PrincipalId) {
    && organization in t.organizations
    && t.organizations[organization].status == OrgActive
    && principal in t.principals
    && t.principals[principal].active
    && principal.kind == UserKind
    && principal.refId in t.users
    && t.users[principal.refId].active
    && !(t.users[principal.refId].userClass == ExternalCustomer
         && t.organizations[organization].kind != CustomerOrg)
    && (organization, principal) in t.memberships
    && t.memberships[(organization, principal)].status == MemberActive
  }

  datatype CreateParams = CreateParams(
    session: SessionId,
    principal: PrincipalId,
    client: ClientId,
    organization: Option<OrganizationId>,
    tokenId: TokenId,
    token: Token,
    expires: int)

  predicate TokenIdTaken(tokens: map<Token, SessionToken>, id: TokenId) {
    exists x | x in tokens :: tokens[x].tokenId == id
  }

  /** A violated key, UNIQUE index or foreign key makes the INSERTs fail as a whole. */
  predicate CreateConflict(t: Tenancy, r: RefreshTables, p: CreateParams) {
    || p.session in r.sessions
    || p.principal !in t.principals
    || (p.organization.Some? && p.organization.value !in t.organizations)
    || p.token in r.tokens
    || TokenIdTaken(r.tokens, p.tokenId)
  }

  function NewSession(p: CreateParams): Session {
    Session(p.principal, p.client, p.organization, p.tokenId, ToTimestamp(p.expires), None, None)
  }

  function FirstToken(p: CreateParams): SessionToken {
    SessionToken(p.tokenId, p.session, ToTimestamp(p.expires), None, None)
  }

  function Create(t: Tenancy, r: RefreshTables, p: CreateParams): (after: (RefreshTables, Result<()>)) {
    if p.organization.Some? && !ContextActive(t, p.organization.value, p.principal) then
      (r, Err(OrganizationSessionContextInactive))
    else if CreateConflict(t, r, p) then
      (r, Err(ConstraintViolated))
    else
      (r.(sessions := r.sessions[p.session := NewSession(p)], tokens := r.tokens[p.token := FirstToken(p)]), Ok(()))
  }

  datatype RotateParams = RotateParams(
    token: Token,
    expectedOrganization: Option<OrganizationId>,
    newTokenId: TokenId,
    newToken: Token)

  datatype RotateResult =
    | Consumed(session: SessionId, principal: PrincipalId, client: ClientId,
               organization: Option<OrganizationId>, expires: int)
    | NotFound
    | Replayed(session: SessionId)
    | OrganizationScopeMismatch
    | OrganizationContextInactive
    | RotationConflict

  /** The presented token, or its session, is no longer in its first and only use. */
  predicate Spent(t: SessionToken, s: Session) {
    t.consumed.Some? || t.revoked.Some? || s.revoked.Some?
  }

  /** The answer of `consume_and_rotate_refresh_session`, decided on the locked rows. */
  function RotateAnswer(t: Tenancy, r: RefreshTables, now: Time, p: RotateParams): (answer: RotateResult) {
    if p.token !in r.tokens || r.tokens[p.token].session !in r.sessions then
      NotFound
    else
      var token := r.tokens[p.token];
      var s := r.sessions[token.session];
      if s.organization != p.expectedOrganization then OrganizationScopeMismatch
      else if s.organization.Some? && !ContextActive(t, s.organization.value, s.principal) then
        OrganizationContextInactive
      else if token.expires <= now || s.expires <= now then NotFound
      else if Spent(token, s) then Replayed(token.session)
      else if p.newToken in r.tokens || TokenIdTaken(r.tokens, p.newTokenId) then RotationConflict
      else Consumed(token.session, s.principal, s.client, s.organization, EpochSeconds(s.expires))
  }

  /** The replacement inherits the session's expiry, re-encoded through whole seconds. */
  function SuccessorToken(p: RotateParams, sid: SessionId, s: Session): SessionToken {
    SessionToken(p.newTokenId, sid, ToTimestamp(EpochSeconds(s.expires)), None, None)
  }

  function Rotate(t: Tenancy, r: RefreshTables, now: Time, p: RotateParams): (after: (RefreshTables, RotateResult)) {
    var answer := RotateAnswer(t, r, now, p);
    match answer
    case Consumed(sid, _, _, _, _) =>
      var s := r.sessions[sid];
      (r.(tokens := r.tokens[p.token := r.tokens[p.token].(consumed := Some(now))]
                            [p.newToken := SuccessorToken(p, sid, s)],
          sessions := r.sessions[sid := s.(currentTokenId := p.newTokenId)]),
       answer)
    case Replayed(sid) =>
      (r.(sessions := RevokeById(r.sessions, sid, now, Some(TokenReplay))), answer)
    case OrganizationContextInactive =>
      (r.(sessions := RevokeById(r.sessions, r.tokens[p.token].session, now, Some(TenantInactive))), answer)
    case _ => (r, answer)
  }

  function RevokeSession(r: RefreshTables, now: Time, sid: SessionId, reason: Option<RevokeReason>)
    : (after: (RefreshTables, bool))
  {
    (r.(sessions := RevokeById(r.sessions, sid, now, reason)), sid in r.sessions)
  }

  function RevokeByToken(r: RefreshTables, now: Time, token: Token, reason: Option<RevokeReason>)
    : (after: (RefreshTables, Option<SessionId>))
  {
    if token !in r.tokens then
      (r, None)
    else
      var row := r.tokens[token];
      (r.(tokens := r.tokens[token := row.(revoked := Coalesce(row.revoked, Some(now)))],
          sessions := RevokeById(r.sessions, row.session, now, reason)),
       Some(row.session))
  }

  /** `revoke_principal_refresh_sessions` and its client, organization and pair variants. */
  function RevokeMatching(r: RefreshTables, now: Time, filter: SessionFilter, reason: Option<RevokeReason>)
    : (after: RefreshTables)
  {
    r.(sessions := RevokeWhere(r.sessions, filter, now, reason))
  }

  /** Usable for a refresh at `now`, if its organization context is. */
  predicate Live(s: Session, now: Time) {
    s.revoked.None? && s.expires > now
  }
}
