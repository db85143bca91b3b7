/** What the transactions that touch several tables guarantee, in terms of the database before and
  * after, and the proof that each does. */
module Guarantees {
  import opened Schema
  import opened RefreshSession
  import opened LegacyTokens
  import opened Organizations
  import opened Users
  import opened PlatformRoles
  import opened Oidc

  /** No session of the tenant can be refreshed. */
  ghost predicate TenantIsClosed(r: RefreshTables, organization: OrganizationId, now: Time) {
    forall sid | sid in r.sessions && r.sessions[sid].organization == Some(organization) :: !Live(r.sessions[sid], now)
  }

  /** No session of the member in the tenant can be refreshed. */
  ghost predicate MemberIsOut(r: RefreshTables, organization: OrganizationId, principal: PrincipalId, now: Time) {
    forall sid | sid in r.sessions && r.sessions[sid].organization == Some(organization)
                 && r.sessions[sid].principal == principal :: !Live(r.sessions[sid], now)
  }

  ghost predicate NoPendingCodes(o: OidcTables, organization: OrganizationId) {
    forall c | c in o.codes && o.codes[c].organization == Some(organization) :: o.codes[c].consumed.Some?
  }

  ghost predicate NoPendingCodesOf(o: OidcTables, organization: OrganizationId, user: UserId) {
    forall c | c in o.codes && o.codes[c].organization == Some(organization) && o.codes[c].user == user ::
      o.codes[c].consumed.Some?
  }

  /** Sessions outside the tenant, and all tokens, are as they were. */
  ghost predicate OtherTenantsKept(before: RefreshTables, after: RefreshTables, organization: OrganizationId) {
    && after.tokens == before.tokens
    && after.legacy == before.legacy
    && after.sessions.Keys == before.sessions.Keys
    && forall sid | sid in before.sessions && before.sessions[sid].organization != Some(organization) ::
         sid in after.sessions && after.sessions[sid] == before.sessions[sid]
  }

  /** Codes outside the tenant are as they were, and no code appears. */
  ghost predicate OtherCodesKept(before: OidcTables, after: OidcTables, organization: OrganizationId) {
    && after.clients == before.clients
    && (forall c | c in after.codes :: c in before.codes && after.codes[c] == before.codes[c])
    && (forall c | c in before.codes && (before.codes[c].organization != Some(organization)
                                         || before.codes[c].consumed.Some?) :: c in after.codes)
  }

  /** A status change writes the status and nothing else about organizations; leaving 'active' closes
    * the tenant; a refusal changes nothing. */
  ghost predicate StatusChanged(before: DB, after: DB, now: Time, id: OrganizationId, status: OrganizationStatus,
                                r: Result<Option<OrganizationStatus>>)
  {
    && (r.Err? || r.value.None? ==> after == before)
    && (r == Ok(None) <==> id !in before.tenancy.organizations)
    && (r.Ok? && r.value.Some? ==>
          && id in before.tenancy.organizations
          && before.tenancy.organizations[id].status == r.value.value
          && after.tenancy == before.tenancy.(organizations :=
               before.tenancy.organizations[id := before.tenancy.organizations[id].(status := status)])
          && after.rbac == before.rbac
          && after.proofs == before.proofs
          && OtherTenantsKept(before.refresh, after.refresh, id)
          && OtherCodesKept(before.oidc, after.oidc, id)
          && (r.value.value == OrgActive && status != OrgActive ==>
                TenantIsClosed(after.refresh, id, now) && NoPendingCodes(after.oidc, id))
          && (r.value.value != OrgActive || status == OrgActive ==>
                after.refresh == before.refresh && after.oidc == before.oidc))
  }

  lemma SetStatusGuarantee(db: DB, now: Time, id: OrganizationId, status: OrganizationStatus)
    ensures var after := SetStatus(db, now, id, status); StatusChanged(db, after.0, now, id, status, after.1)
  {
  }

  /** The row written is the one asked for, an absent role keeping what was there; no other
    * membership and no other part of the tenancy changes. */
  ghost predicate MembershipWritten(before: Tenancy, after: Tenancy, p: MembershipParams, row: Membership) {
    var key := (p.organization, p.principal);
    && row.status == p.status
    && row.managementRole == (if p.managementRole.Some? then p.managementRole.value
                              else if key in before.memberships then before.memberships[key].managementRole
                              else RoleMember)
    && after == before.(memberships := before.memberships[key := row])
  }

  /** A membership that is not active ends the member's sessions in the tenant and, for a platform
    * write, the pending codes; a refusal changes nothing. */
  ghost predicate MembershipChanged(before: DB, after: DB, now: Time, p: MembershipParams, r: Result<Membership>)
  {
    && (r.Err? ==> after == before)
    && (r.Ok? ==>
          && MembershipWritten(before.tenancy, after.tenancy, p, r.value)
          && after.rbac == before.rbac
          && after.proofs == before.proofs
          && OtherTenantsKept(before.refresh, after.refresh, p.organization)
          && OtherCodesKept(before.oidc, after.oidc, p.organization)
          && (p.status == MemberActive ==> after.refresh == before.refresh)
          && (p.status != MemberActive ==> MemberIsOut(after.refresh, p.organization, p.principal, now)))
  }

  lemma UpsertGuarantee(db: DB, now: Time, p: MembershipParams)
    ensures var after := UpsertMembership(db, now, p);
            && MembershipChanged(db, after.0, now, p, after.1)
            && (after.1.Ok? && p.status != MemberActive && p.principal.kind == UserKind ==>
                  NoPendingCodesOf(after.0.oidc, p.organization, p.principal.refId))
  {
    hide MembershipError;
  }

  ghost predicate AlreadyActive(before: DB, after: DB, p: MembershipParams, r: Result<Membership>) {
    && after == before
    && p.status == MemberPending
    && (p.organization, p.principal) in before.tenancy.memberships
    && r == Ok(before.tenancy.memberships[(p.organization, p.principal)])
    && r.value.status == MemberActive
  }

  /** A delegated write does the same, keeps the codes, and answers a retried invitation of an
    * active member with the membership as it is. */
  lemma ManagerUpsertGuarantee(db: DB, now: Time, actor: PrincipalId, p: MembershipParams)
    ensures var after := UpsertMembershipAsManager(db, now, actor, p);
            && after.0.oidc == db.oidc
            && (MembershipChanged(db, after.0, now, p, after.1) || AlreadyActive(db, after.0, p, after.1))
  {
    hide ManagerWriteError;
  }

  /** Nothing changes but one account and the revocation of its sessions. */
  ghost predicate OnlyAccountChanged(before: DB, after: DB, user: UserId) {
    && user in before.tenancy.users
    && user in after.tenancy.users
    && after.tenancy == before.tenancy.(users := before.tenancy.users[user := after.tenancy.users[user]])
    && after.oidc == before.oidc
    && after.rbac == before.rbac
    && after.proofs == before.proofs
    && after.refresh == before.refresh.(sessions := after.refresh.sessions)
    && after.refresh.sessions.Keys == before.refresh.sessions.Keys
    && forall sid | sid in before.refresh.sessions && before.refresh.sessions[sid].principal != UserPrincipal(user) ::
         sid in after.refresh.sessions && after.refresh.sessions[sid] == before.refresh.sessions[sid]
  }

  ghost predicate AccountIsOut(r: RefreshTables, user: UserId) {
    forall sid | sid in r.sessions && r.sessions[sid].principal == UserPrincipal(user) :: r.sessions[sid].revoked.Some?
  }

  /** The account is as before but for its class, which a holder of a platform role keeps; a
    * refusal, or an unknown account, changes nothing. */
  ghost predicate ClassSet(before: DB, after: DB, user: UserId, userClass: UserClass, r: Result<Option<User>>) {
    && (r.Err? || r.value.None? ==> after == before)
    && (r == Ok(None) <==> user !in before.tenancy.users)
    && (r.Ok? && r.value.Some? ==>
          && OnlyAccountChanged(before, after, user)
          && after.refresh == before.refresh
          && after.tenancy.users[user] == r.value.value
          && r.value.value == before.tenancy.users[user].(userClass := userClass)
          && (before.tenancy.users[user].userClass != userClass ==>
                forall role | role in after.rbac.roles && after.rbac.roles[role].scope == PlatformScope ::
                  (user, role) !in after.rbac.ofUser && (UserPrincipal(user), role) !in after.rbac.ofPrincipal))
  }

  lemma SetClassGuarantee(db: DB, user: UserId, userClass: UserClass)
    ensures var after := SetUserClass(db.tenancy, db.rbac, user, userClass);
            ClassSet(db, db.(tenancy := after.0), user, userClass, after.1)
  {
  }

  /** The account is as before but for the flag; disabling ends its sessions. */
  ghost predicate ActiveSet(before: DB, after: DB, user: UserId, active: bool, found: bool) {
    && (!found ==> after == before && user !in before.tenancy.users)
    && (found ==>
          && OnlyAccountChanged(before, after, user)
          && after.tenancy.users[user] == before.tenancy.users[user].(active := active)
          && (if active then after.refresh == before.refresh else AccountIsOut(after.refresh, user)))
  }

  lemma SetActiveGuarantee(db: DB, now: Time, user: UserId, active: bool)
    ensures var after := SetUserActive(db, now, user, active); ActiveSet(db, after.0, user, active, after.1)
  {
  }

  /** The account is as before but for the password; all its sessions end. */
  ghost predicate PasswordSet(before: DB, after: DB, user: UserId, hash: Text, changeRequired: bool, done: bool) {
    && (!done ==> after == before)
    && (done ==>
          && OnlyAccountChanged(before, after, user)
          && after.tenancy.users[user]
             == before.tenancy.users[user].(passwordHash := Some(hash), passwordChangeRequired := changeRequired)
          && AccountIsOut(after.refresh, user))
  }

  lemma ResetGuarantee(db: DB, now: Time, user: UserId, hash: Text)
    ensures var after := ResetUserPassword(db, now, user, hash);
            PasswordSet(db, after.0, user, hash, true, after.1) && (after.1 <==> user in db.tenancy.users)
  {
  }

  lemma ChangeGuarantee(db: DB, now: Time, user: UserId, verified: bool, hash: Text)
    ensures var after := ChangeUserPassword(db, now, user, verified, hash);
            && PasswordSet(db, after.0, user, hash, false, after.1)
            && (after.1 <==> && user in db.tenancy.users
                             && db.tenancy.users[user].active
                             && db.tenancy.users[user].passwordHash.Some?
                             && verified)
  {
  }

  /** Both copies of one binding, and nothing else, come or go. */
  ghost predicate BindingSet(before: RoleTables, after: RoleTables, principal: PrincipalId, role: RoleId, bound: bool) {
    && after.roles == before.roles
    && after.permissions == before.permissions
    && ((principal, role) in after.ofPrincipal <==> bound)
    && (forall b | b != (principal, role) :: b in after.ofPrincipal <==> b in before.ofPrincipal)
    && (principal.kind == UserKind ==> ((principal.refId, role) in after.ofUser <==> bound))
    && (forall b | !(principal.kind == UserKind && b == (principal.refId, role)) ::
          b in after.ofUser <==> b in before.ofUser)
  }

  lemma RevokeRoleGuarantee(t: Tenancy, rbac: RoleTables, user: UserId, role: RoleId)
    ensures var after := RevokeRoleFromUser(t, rbac, user, role);
            && (user !in t.users ==> after == (rbac, false))
            && (user in t.users ==>
                  && BindingSet(rbac, after.0, UserPrincipal(user), role, false)
                  && (after.1 <==> after.0 != rbac))
  {
    var after := RevokeRoleFromUser(t, rbac, user, role);
    if user in t.users && !after.1 {
      assert after.0.ofUser == rbac.ofUser && after.0.ofPrincipal == rbac.ofPrincipal;
    }
  }

  /** The role is a platform role that suits the principal, who is no external customer. */
  ghost predicate MayHold(t: Tenancy, rbac: RoleTables, principal: PrincipalId, role: RoleId) {
    && principal in t.principals
    && role in rbac.roles
    && rbac.roles[role].scope == PlatformScope
    && Fits(rbac.roles[role].assignableTo, principal.kind)
    && (principal.kind == UserKind ==>
          principal.refId in t.users && t.users[principal.refId].userClass == InternalEmployee)
  }

  lemma AssignPrincipalGuarantee(t: Tenancy, rbac: RoleTables, principal: PrincipalId, role: RoleId)
    ensures var after := AssignRoleToPrincipal(t, rbac, principal, role);
            && (after.1.Err? ==> after.0 == rbac)
            && (after.1.Ok? ==>
                  && MayHold(t, rbac, principal, role)
                  && MayHold(t, after.0, principal, role)
                  && BindingSet(rbac, after.0, principal, role, true))
  {
    if principal.kind == UserKind {
      assert principal == UserPrincipal(principal.refId);
      assert forall r: RoleId :: r in [role] <==> r == role;
    }
  }

  lemma RevokePrincipalGuarantee(t: Tenancy, rbac: RoleTables, principal: PrincipalId, role: RoleId)
    ensures var after := RevokeRoleFromPrincipal(t, rbac, principal, role);
            && (after.1.Err? || principal !in t.principals ==> after.0 == rbac)
            && (after.1.Ok? && principal in t.principals ==>
                  && BindingSet(rbac, after.0, principal, role, false)
                  && (after.1.value <==> after.0 != rbac))
  {
    var after := RevokeRoleFromPrincipal(t, rbac, principal, role);
    if principal.kind == UserKind {
      assert principal == UserPrincipal(principal.refId);
    }
    if after.1 == Ok(false) && principal in t.principals {
      assert after.0.ofUser == rbac.ofUser && after.0.ofPrincipal == rbac.ofPrincipal;
    }
  }

  /** An update stores the registration and keeps a pending code of an active client only if the
    * client stays active with the same boundary; other clients and their codes stay. */
  ghost predicate ClientUpdated(before: OidcTables, after: OidcTables, id: ClientId, u: ClientUpdate,
                                r: Result<Option<OidcClient>>)
  {
    && (r.Err? || r.value.None? ==> after == before)
    && (r.Ok? && r.value.Some? ==>
          && id in before.clients
          && after.clients == before.clients[id := r.value.value]
          && r.value.value == UpdatedClient(before.clients[id], u)
          && (forall c | c in after.codes :: c in before.codes && after.codes[c] == before.codes[c])
          && (forall c | c in before.codes && (before.codes[c].client != id || before.codes[c].consumed.Some?) ::
                c in after.codes)
          && (before.clients[id].active ==>
                (if r.value.value.active && r.value.value.boundary == before.clients[id].boundary
                 then after.codes == before.codes
                 else forall c | c in after.codes && after.codes[c].client == id :: after.codes[c].consumed.Some?)))
  }

  lemma UpdateClientGuarantee(t: Tenancy, o: OidcTables, id: ClientId, scope: ClientScope, u: ClientUpdate)
    ensures var after := UpdateClient(t, o, id, scope, u); ClientUpdated(o, after.0, id, u, after.1)
  {
    hide ScopeError;
  }

  /** A new secret leaves no pending code of the client in its scope; otherwise nothing changes. */
  ghost predicate SecretRotated(before: OidcTables, after: OidcTables, id: ClientId, scope: ClientScope,
                                secretHash: Text, r: Result<bool>)
  {
    && (r != Ok(true) ==> after == before)
    && (r == Ok(true) ==>
          && id in before.clients
          && before.clients[id].active
          && before.clients[id].confidential
          && before.clients[id].organization == ScopeOrganization(scope)
          && after.clients == before.clients[id := before.clients[id].(secretHash := Some(secretHash))]
          && (forall c | c in after.codes :: c in before.codes && after.codes[c] == before.codes[c])
          && (forall c | c in before.codes && (before.codes[c].client != id || before.codes[c].consumed.Some?) ::
                c in after.codes)
          && (forall c | c in after.codes && after.codes[c].client == id
                         && after.codes[c].organization == ScopeOrganization(scope) ::
                after.codes[c].consumed.Some?))
  }

  lemma RotateSecretGuarantee(t: Tenancy, o: OidcTables, id: ClientId, scope: ClientScope, secretHash: Text)
    ensures var after := RotateSecret(t, o, id, scope, secretHash);
            SecretRotated(o, after.0, id, scope, secretHash, after.1)
  {
    hide ScopeError;
  }

  /** The token and its session are revoked for good, with the times they already had if any, and no
    * other row changes. */
  ghost predicate TokenLoggedOut(before: RefreshTables, after: RefreshTables, now: Time, token: Token,
                                 session: Option<SessionId>)
  {
    && (session.Some? <==> token in before.tokens)
    && (session.None? ==> after == before)
    && (session.Some? ==>
          && session.value == before.tokens[token].session
          && after.legacy == before.legacy
          && token in after.tokens
          && after.tokens == before.tokens[token := after.tokens[token]]
          && after.tokens[token] == before.tokens[token].(revoked := after.tokens[token].revoked)
          && after.tokens[token].revoked == Some(GetOr(before.tokens[token].revoked, now))
          && (session.value !in before.sessions ==> after.sessions == before.sessions)
          && (session.value in before.sessions ==>
                && session.value in after.sessions
                && after.sessions == before.sessions[session.value := after.sessions[session.value]]
                && after.sessions[session.value].revoked
                   == Some(GetOr(before.sessions[session.value].revoked, now))))
  }

  lemma RevokeByTokenGuarantee(r: RefreshTables, now: Time, token: Token, reason: Option<RevokeReason>)
    ensures var after := RevokeByToken(r, now, token, reason); TokenLoggedOut(r, after.0, now, token, after.1)
  {
  }

  ghost predicate HonouredUntil(r: RefreshTables, token: Token, client: ClientId, expires: Time) {
    forall later :: ConsumeLegacy(r, later, token).1 == if later < expires then Some(client) else None
  }

  /** At no time will the older table honour the token. */
  ghost predicate LegacyDead(r: RefreshTables, token: Token) {
    forall later :: ConsumeLegacy(r, later, token).1.None?
  }

  /** Only the row of this token changes in the older table, and nothing else anywhere. */
  ghost predicate OnlyLegacyRow(before: RefreshTables, after: RefreshTables, token: Token) {
    && after.sessions == before.sessions
    && after.tokens == before.tokens
    && (forall x | x in before.legacy && x != token :: x in after.legacy && after.legacy[x] == before.legacy[x])
    && (forall x | x in after.legacy && x != token :: x in before.legacy)
  }

  lemma CreateLegacyGuarantee(r: RefreshTables, known: bool, id: TokenId, client: ClientId, token: Token, expires: Time)
    ensures var after := CreateLegacy(r, known, id, client, token, expires);
            && OnlyLegacyRow(r, after.0, token)
            && (after.1.Err? ==> after.0 == r)
            && (after.1.Ok? ==> known && HonouredUntil(after.0, token, client, expires))
  {
  }

  lemma ConsumeLegacyGuarantee(r: RefreshTables, now: Time, token: Token)
    ensures var after := ConsumeLegacy(r, now, token);
            && OnlyLegacyRow(r, after.0, token)
            && (after.1.None? ==> after.0 == r)
            && (after.1.Some? ==> LegacyDead(after.0, token))
  {
  }

  lemma RevokeLegacyGuarantee(r: RefreshTables, token: Token)
    ensures OnlyLegacyRow(r, RevokeLegacyByToken(r, token), token) && LegacyDead(RevokeLegacyByToken(r, token), token)
  {
  }
}
