/** The transactions themselves, statement by statement, on the tables of one database.
  *
  * A SELECT reads a field, an INSERT, UPDATE or DELETE reassigns one, and an error rolls back to
  * the state at the start. Each method is proved to have the effect that the value-level
  * transaction of the same name has on the whole database, and to guarantee what callers rely on.
  * Tenant transactions keep a ghost log of the rows they lock, by SELECT ... FOR UPDATE or by
  * writing them. A row that a transaction inserts is not in the log: no other sees it yet.
  */
module DatabaseTransactions {
  import opened Schema
  import opened RefreshSession
  import opened LegacyTokens
  import opened Organizations
  import opened Users
  import opened PlatformRoles
  import opened Oidc
  import opened AccountProofs
  import opened LockOrder
  import opened LockLog
  import opened Guarantees
  import OwnerStability

  function AccountOf(principal: PrincipalId): Option<UserId> {
    if principal.kind == UserKind then Some(principal.refId) else None
  }

  class Database {
    var tenancy: Tenancy
    var refresh: RefreshTables
    var oidc: OidcTables
    var rbac: RoleTables
    var proofs: ProofTables

    constructor ()
      ensures View() == EMPTY_DB
    {
      tenancy := EMPTY_DB.tenancy;
      refresh := EMPTY_DB.refresh;
      oidc := EMPTY_DB.oidc;
      rbac := EMPTY_DB.rbac;
      proofs := EMPTY_DB.proofs;
    }

    ghost function View(): DB
      reads this
    {
      DB(tenancy, refresh, oidc, rbac, proofs)
    }

    // src/db/refresh_session.rs

    /** Whatever a positive answer depends on is locked. */
    method LockActiveOrganizationSessionContext(organizationId: OrganizationId, principalId: PrincipalId)
      returns (usable: bool, ghost locks: seq<Lock>)
      ensures usable == ContextActive(tenancy, organizationId, principalId)
      ensures Disciplined(locks)
      ensures organizationId in tenancy.organizations ==> OrganizationRow(organizationId) in locks
      ensures usable ==> LocksMember(locks, organizationId, principalId)
    {
      usable, locks := false, [];
      if organizationId !in tenancy.organizations {
        return;
      }
      locks := locks + [OrganizationRow(organizationId)];
      var organization := tenancy.organizations[organizationId];
      if organization.status != OrgActive {
        return;
      }
      if principalId !in tenancy.principals {
        return;
      }
      locks := locks + [PrincipalRow(principalId)];
      if !tenancy.principals[principalId].active || principalId.kind != UserKind {
        return;
      }
      if principalId.refId !in tenancy.users {
        return;
      }
      locks := locks + [UserRow(principalId.refId)];
      var user := tenancy.users[principalId.refId];
      if !user.active || (user.userClass == ExternalCustomer && organization.kind != CustomerOrg) {
        return;
      }
      if (organizationId, principalId) !in tenancy.memberships {
        return;
      }
      locks := locks + [MembershipRow(organizationId, principalId)];
      MemberLocksAreOrdered(organizationId, principalId);
      assert locks == MemberLocks(organizationId, principalId);
      usable := tenancy.memberships[(organizationId, principalId)].status == MemberActive;
    }

    method CreateRefreshSession(p: CreateParams) returns (r: Result<()>, ghost locks: seq<Lock>)
      modifies this
      ensures var after := Create(old(tenancy), old(refresh), p);
              View() == old(View()).(refresh := after.0) && r == after.1
      ensures Disciplined(locks)
      ensures r.Ok? && p.organization.Some? ==> LocksMember(locks, p.organization.value, p.principal)
    {
      hide Disciplined;
      locks := NoLocks();
      if p.organization.Some? {
        var usable;
        ghost var context;
        usable, context := LockActiveOrganizationSessionContext(p.organization.value, p.principal);
        locks := locks + context;
        assert locks == context;
        if !usable {
          return Err(OrganizationSessionContextInactive), locks;
        }
      }
      var start := refresh;
      if p.session in refresh.sessions || p.principal !in tenancy.principals
         || (p.organization.Some? && p.organization.value !in tenancy.organizations) {
        return Err(ConstraintViolated), locks;
      }
      var expires := ToTimestamp(p.expires);
      refresh := refresh.(sessions :=
        refresh.sessions[p.session := Session(p.principal, p.client, p.organization, p.tokenId, expires, None, None)]);
      if p.token in refresh.tokens || TokenIdTaken(refresh.tokens, p.tokenId) {
        refresh := start;
        return Err(ConstraintViolated), locks;
      }
      refresh := refresh.(tokens := refresh.tokens[p.token := SessionToken(p.tokenId, p.session, expires, None, None)]);
      return Ok(()), locks;
    }

    /** A tenant's session and token rows are locked last, under the lock of the tenant. */
    method ConsumeAndRotateRefreshSession(now: Time, p: RotateParams)
      returns (answer: RotateResult, ghost locks: seq<Lock>)
      modifies this
      ensures var after := Rotate(old(tenancy), old(refresh), now, p);
              View() == old(View()).(refresh := after.0) && answer == after.1
      ensures Disciplined(locks)
      ensures answer.Consumed? && answer.organization.Some? ==>
                && LocksMember(locks, answer.organization.value, answer.principal)
                && TenantRow(answer.organization.value, SessionKey(answer.session)) in locks
                && TenantRow(answer.organization.value, TokenKey(p.token)) in locks
    {
      hide ContextActive, TokenIdTaken, Disciplined, LocksMember;
      locks := NoLocks();
      if p.token !in refresh.tokens || refresh.tokens[p.token].session !in refresh.sessions {
        return NotFound, locks;
      }
      var sid := refresh.tokens[p.token].session;
      var candidate := refresh.sessions[sid];
      if candidate.organization != p.expectedOrganization {
        return OrganizationScopeMismatch, locks;
      }
      if candidate.organization.Some? {
        var usable;
        ghost var context;
        usable, context := LockActiveOrganizationSessionContext(candidate.organization.value, candidate.principal);
        locks := locks + context;
        assert locks == context;
        if !usable {
          if candidate.organization.value in tenancy.organizations {
            locks := AddRows(locks, candidate.organization.value, {SessionKey(sid)});
          }
          refresh := refresh.(sessions := RevokeById(refresh.sessions, sid, now, Some(TenantInactive)));
          return OrganizationContextInactive, locks;
        }
        locks := AddRows(locks, candidate.organization.value, {SessionKey(sid), TokenKey(p.token)});
        MoreLocks(context, locks, candidate.organization.value, candidate.principal);
      }
      var token, session := refresh.tokens[p.token], refresh.sessions[sid];
      if token.expires <= now || session.expires <= now {
        return NotFound, locks;
      }
      if token.consumed.Some? || token.revoked.Some? || session.revoked.Some? {
        refresh := refresh.(sessions := RevokeById(refresh.sessions, sid, now, Some(TokenReplay)));
        return Replayed(sid), locks;
      }
      var start := refresh;
      refresh := refresh.(tokens := refresh.tokens[p.token := token.(consumed := Some(now))]);
      if p.newToken in start.tokens || TokenIdTaken(start.tokens, p.newTokenId) {
        refresh := start;
        return RotationConflict, locks;
      }
      var expires := EpochSeconds(session.expires);
      refresh := refresh.(tokens :=
        refresh.tokens[p.newToken := SessionToken(p.newTokenId, sid, ToTimestamp(expires), None, None)]);
      refresh := refresh.(sessions := refresh.sessions[sid := session.(currentTokenId := p.newTokenId)]);
      return Consumed(sid, session.principal, session.client, session.organization, expires), locks;
    }

    method RevokeRefreshSessionByToken(now: Time, token: Token, reason: Option<RevokeReason>)
      returns (session: Option<SessionId>)
      modifies this
      ensures var after := RevokeByToken(old(refresh), now, token, reason);
              View() == old(View()).(refresh := after.0) && session == after.1
      ensures TokenLoggedOut(old(refresh), refresh, now, token, session)
    {
      RevokeByTokenGuarantee(refresh, now, token, reason);
      if token !in refresh.tokens {
        return None;
      }
      var row := refresh.tokens[token];
      refresh := refresh.(tokens := refresh.tokens[token := row.(revoked := Coalesce(row.revoked, Some(now)))]);
      refresh := refresh.(sessions := RevokeById(refresh.sessions, row.session, now, reason));
      return Some(row.session);
    }

    // src/db/organization.rs

    method SetOrganizationStatus(now: Time, id: OrganizationId, status: OrganizationStatus)
      returns (r: Result<Option<OrganizationStatus>>, ghost locks: seq<Lock>)
      modifies this
      ensures var after := SetStatus(old(View()), now, id, status); View() == after.0 && r == after.1
      ensures StatusChanged(old(View()), View(), now, id, status, r)
      ensures Disciplined(locks) && WritesLocked(old(View()), View(), id, locks)
    {
      hide Disciplined, StatusChanged, WritesLocked;
      ghost var before := View();
      SetStatusGuarantee(before, now, id, status);
      locks := NoLocks();
      NothingWritten(before, id, locks);
      if id !in tenancy.organizations {
        return Ok(None), locks;
      }
      locks := locks + [OrganizationRow(id)];
      TenantFirst(id);
      NothingWritten(before, id, locks);
      var previous := tenancy.organizations[id].status;
      if !ValidTransition(previous, status) {
        return Err(InvalidOrganizationStatusTransition), locks;
      }
      locks := StatusLocks(before, now, id, status, locks);
      tenancy := tenancy.(organizations := tenancy.organizations[id := tenancy.organizations[id].(status := status)]);
      if previous == OrgActive && status != OrgActive {
        refresh := refresh.(sessions :=
          RevokeWhere(refresh.sessions, OfOrganization(id), now, Some(OrganizationBecame(status))));
        oidc := oidc.(codes := DropPendingCodesOf(oidc.codes, id));
      }
      return Ok(Some(previous)), locks;
    }

    method PutMembershipRow(p: MembershipParams) returns (row: Membership)
      modifies `tenancy
      ensures tenancy == WithMembership(old(tenancy), p) && row == UpsertedMembership(old(tenancy), p)
    {
      var key := (p.organization, p.principal);
      if key in tenancy.memberships {
        var role := tenancy.memberships[key].managementRole;
        row := Membership(p.status, if p.managementRole.Some? then p.managementRole.value else role);
      } else {
        row := Membership(p.status, if p.managementRole.Some? then p.managementRole.value else RoleMember);
      }
      tenancy := tenancy.(memberships := tenancy.memberships[key := row]);
    }

    /** One statement locks the organization and the principal. */
    method UpsertOrganizationMembership(now: Time, p: MembershipParams)
      returns (r: Result<Membership>, ghost locks: seq<Lock>)
      modifies this
      ensures var after := UpsertMembership(old(View()), now, p); View() == after.0 && r == after.1
      ensures MembershipChanged(old(View()), View(), now, p, r)
      ensures r.Ok? && p.status != MemberActive && p.principal.kind == UserKind ==>
                NoPendingCodesOf(oidc, p.organization, p.principal.refId)
      ensures Disciplined(locks) && WritesLocked(old(View()), View(), p.organization, locks)
    {
      hide Disciplined, MembershipChanged, NoPendingCodesOf, WritesLocked;
      ghost var before := View();
      UpsertGuarantee(before, now, p);
      locks := NoLocks();
      NothingWritten(before, p.organization, locks);
      if p.organization !in tenancy.organizations || p.principal !in tenancy.principals {
        return Err(OrganizationOrPrincipalNotFound), locks;
      }
      locks := locks + [OrganizationRow(p.organization), PrincipalRow(p.principal)];
      PairThenMember(p.organization, p.principal);
      NothingWritten(before, p.organization, locks);
      var organization := tenancy.organizations[p.organization];
      var userClass := UserClassOf(tenancy, p.principal);
      if organization.status != OrgActive && (p.status == MemberPending || p.status == MemberActive) {
        return Err(OrganizationNotActive), locks;
      }
      if p.status == MemberActive && !tenancy.principals[p.principal].active {
        return Err(PrincipalNotActive), locks;
      }
      if userClass == Some(ExternalCustomer) && organization.kind != CustomerOrg {
        return Err(ExternalCustomerRequiresCustomerOrganization), locks;
      }
      if p.managementRole.Some? && p.managementRole.value != RoleMember && userClass.None? {
        return Err(OrganizationManagementRoleRequiresUserPrincipal), locks;
      }
      if (p.organization, p.principal) in tenancy.memberships {
        locks := locks + [MembershipRow(p.organization, p.principal)];
      }
      UpsertOnlyMember(before, now, p);
      locks := MembershipLocks(before, UpsertMembership(before, now, p).0, now, p, locks);
      var row := PutMembershipRow(p);
      if p.status != MemberActive {
        refresh := refresh.(sessions :=
          RevokeWhere(refresh.sessions, OfMember(p.organization, p.principal), now, Some(MembershipBecame(p.status))));
        if p.principal.kind == UserKind {
          oidc := oidc.(codes := DropPendingCodesOfMember(oidc.codes, p.organization, p.principal.refId));
        }
      }
      return Ok(row), locks;
    }

    /** The accounts of the two principals are locked one by one, in ascending order. */
    method LockOrganizationManagerContext(id: OrganizationId, actor: PrincipalId, target: PrincipalId)
      returns (r: Result<ManagerContext>, ghost locks: seq<Lock>)
      ensures r == LockManagerContext(tenancy, id, actor, target)
      ensures Disciplined(locks)
      ensures r.Ok? ==> LocksMember(locks, id, actor) && PrincipalRow(target) in locks
      ensures r.Ok? && target.kind == UserKind ==> UserRow(target.refId) in locks
      ensures r.Ok? && (id, target) in tenancy.memberships ==> MembershipRow(id, target) in locks
    {
      hide Disciplined, Ascending, Context, PrincipalRows, MembershipRows, Present;
      locks := NoLocks();
      if id !in tenancy.organizations {
        return Err(OrganizationNotFound), locks;
      }
      locks := locks + [OrganizationRow(id)];
      TenantFirst(id);
      var organization := tenancy.organizations[id];
      if organization.status != OrgActive {
        return Err(OrganizationNotActive), locks;
      }
      ghost var both := Principals(actor, target);
      ghost var principals := Present(both, tenancy.principals.Keys);
      var userIds := Accounts(AccountOf(actor), AccountOf(target));
      AccountsAscend(AccountOf(actor), AccountOf(target));
      PresentInNone(both);
      ContextGrows(id, principals, userIds);
      locks := locks + PrincipalRows(principals);
      PrefixAscends(userIds, 0);
      ManagerLocks(id, actor, target, tenancy.principals.Keys, userIds[..0], {});
      if actor !in tenancy.principals {
        return Err(OrganizationManagerPrincipalNotFound), locks;
      }
      if target !in tenancy.principals {
        return Err(OrganizationTargetPrincipalNotFound), locks;
      }
      for i := 0 to |userIds|
        invariant forall j | 0 <= j < i :: userIds[j] in tenancy.users
        invariant locks == Context(id, principals, userIds[..i], []) && Disciplined(locks)
      {
        if userIds[i] !in tenancy.users {
          assert userIds[i] == actor.refId || userIds[i] == target.refId;
          return Err(OrganizationPrincipalUserNotFound), locks;
        }
        locks := locks + [UserRow(userIds[i])];
        PrefixAscends(userIds, i + 1);
        ManagerLocks(id, actor, target, tenancy.principals.Keys, userIds[..i + 1], {});
      }
      assert userIds[..|userIds|] == userIds;
      locks := locks + MembershipRows(id, Present(both, MembersOf(tenancy, id)));
      ManagerLocks(id, actor, target, tenancy.principals.Keys, userIds, MembersOf(tenancy, id));
      assert forall p | (id, p) in tenancy.memberships :: p in MembersOf(tenancy, id);
      assert actor.kind == UserKind ==> actor.refId in userIds;
      assert target.kind == UserKind ==> target.refId in userIds;
      if (id, actor) !in tenancy.memberships {
        return Err(OrganizationManagerMembershipNotFound), locks;
      }
      var actorMembership := tenancy.memberships[(id, actor)];
      if actor.kind != UserKind {
        return Err(OrganizationManagerRequiresUserPrincipal), locks;
      }
      var actorUser := tenancy.users[actor.refId];
      if !tenancy.principals[actor].active || !actorUser.active {
        return Err(OrganizationManagerPrincipalInactive), locks;
      }
      if actorUser.userClass == ExternalCustomer && organization.kind != CustomerOrg {
        return Err(ExternalCustomerRequiresCustomerOrganization), locks;
      }
      if actorMembership.status != MemberActive {
        return Err(OrganizationManagerMembershipNotActive), locks;
      }
      if actorMembership.managementRole == RoleMember {
        return Err(OrganizationManagerRoleRequired), locks;
      }
      var targetUserActive: Option<bool> := None;
      if target.kind == UserKind {
        var targetUser := tenancy.users[target.refId];
        if targetUser.userClass == ExternalCustomer && organization.kind != CustomerOrg {
          return Err(ExternalCustomerRequiresCustomerOrganization), locks;
        }
        targetUserActive := Some(targetUser.active);
      }
      var targetMembership: Option<Membership> := None;
      if (id, target) in tenancy.memberships {
        targetMembership := Some(tenancy.memberships[(id, target)]);
      }
      return Ok(ManagerContext(tenancy.principals[target].active, targetUserActive, targetMembership,
                               actorMembership.managementRole)), locks;
    }

    method UpsertOrganizationMembershipAsManager(now: Time, actor: PrincipalId, p: MembershipParams)
      returns (r: Result<Membership>, ghost locks: seq<Lock>)
      modifies this
      ensures var after := UpsertMembershipAsManager(old(View()), now, actor, p); View() == after.0 && r == after.1
      ensures MembershipChanged(old(View()), View(), now, p, r) || AlreadyActive(old(View()), View(), p, r)
      ensures OwnerStability.NotAnOwner(old(tenancy), p.organization, actor) ==>
                OwnerStability.Owners(tenancy.memberships) == OwnerStability.Owners(old(tenancy).memberships)
      ensures Disciplined(locks) && WritesLocked(old(View()), View(), p.organization, locks)
    {
      hide LockManagerContext, Disciplined, MembershipChanged, AlreadyActive, WritesLocked, OwnerStability.NotAnOwner,
           OwnerStability.Owners;
      ghost var before := View();
      ManagerUpsertGuarantee(before, now, actor, p);
      if OwnerStability.NotAnOwner(tenancy, p.organization, actor) {
        OwnerStability.AdminWriteKeepsOwners(before, now, actor, p);
      }
      locks := NoLocks();
      var locked;
      ghost var context;
      locked, context := LockOrganizationManagerContext(p.organization, actor, p.principal);
      locks := locks + context;
      assert locks == context;
      NothingWritten(before, p.organization, locks);
      if locked.Err? {
        return Err(locked.error), locks;
      }
      var found := locked.value;
      if p.status == MemberActive && (!found.targetActive || found.targetUserActive == Some(false)) {
        return Err(OrganizationTargetPrincipalInactive), locks;
      }
      if p.principal.kind != UserKind && p.managementRole.Some? && p.managementRole.value != RoleMember {
        return Err(OrganizationManagementRoleRequiresUserPrincipal), locks;
      }
      if found.actorRole == RoleAdmin && p.managementRole == Some(RoleOwner) {
        return Err(OrganizationOwnerRoleRequired), locks;
      }
      if found.actorRole == RoleAdmin
         && found.targetMembership.Some? && found.targetMembership.value.managementRole == RoleOwner
         && (p.status != MemberActive || (p.managementRole.Some? && p.managementRole.value != RoleOwner)) {
        return Err(OrganizationOwnerRoleRequired), locks;
      }
      if p.status == MemberPending {
        if found.targetMembership.Some? && found.targetMembership.value.status == MemberActive {
          return Ok(found.targetMembership.value), locks;
        }
      }
      ManagerOnlyMember(before, now, actor, p);
      locks := MembershipLocks(before, UpsertMembershipAsManager(before, now, actor, p).0, now, p, locks);
      var row := PutMembershipRow(p);
      if p.status != MemberActive {
        refresh := refresh.(sessions :=
          RevokeWhere(refresh.sessions, OfMember(p.organization, p.principal), now, Some(MembershipBecame(p.status))));
      }
      return Ok(row), locks;
    }

    method JoinOrganizationMembership(id: OrganizationId, principalId: PrincipalId)
      returns (r: Result<Membership>, ghost locks: seq<Lock>)
      modifies this
      ensures var after := Join(old(tenancy), id, principalId);
              View() == old(View()).(tenancy := after.0) && r == after.1
      ensures Disciplined(locks)
      ensures r.Ok? ==> LocksMember(locks, id, principalId)
    {
      locks := [];
      if id !in tenancy.organizations {
        return Err(OrganizationNotFound), locks;
      }
      locks := locks + [OrganizationRow(id)];
      var organization := tenancy.organizations[id];
      if organization.status != OrgActive {
        return Err(OrganizationNotActive), locks;
      }
      if principalId !in tenancy.principals {
        return Err(OrganizationTargetPrincipalNotFound), locks;
      }
      locks := locks + [PrincipalRow(principalId)];
      if principalId.kind != UserKind {
        return Err(OrganizationJoinRequiresUserPrincipal), locks;
      }
      if principalId.refId !in tenancy.users {
        return Err(OrganizationTargetUserNotFound), locks;
      }
      locks := locks + [UserRow(principalId.refId)];
      var user := tenancy.users[principalId.refId];
      if !tenancy.principals[principalId].active || !user.active {
        return Err(OrganizationTargetPrincipalInactive), locks;
      }
      if user.userClass == ExternalCustomer && organization.kind != CustomerOrg {
        return Err(ExternalCustomerRequiresCustomerOrganization), locks;
      }
      var key := (id, principalId);
      if key !in tenancy.memberships {
        return Err(OrganizationInvitationNotFound), locks;
      }
      locks := locks + [MembershipRow(id, principalId)];
      MemberLocksAreOrdered(id, principalId);
      assert locks == MemberLocks(id, principalId);
      var membership := tenancy.memberships[key];
      if membership.status == MemberActive {
        assert tenancy.memberships[key := membership] == tenancy.memberships;
        return Ok(membership), locks;
      }
      if membership.status != MemberPending {
        return Err(OrganizationMembershipNotJoinable), locks;
      }
      var joined := membership.(status := MemberActive);
      tenancy := tenancy.(memberships := tenancy.memberships[key := joined]);
      return Ok(joined), locks;
    }

    /** The account is locked before its principal, against the order of the tenant transactions. */
    method PromoteUserToInternalEmployee(userId: UserId) returns (r: Result<Option<User>>, ghost locks: seq<Lock>)
      modifies this
      ensures var after := Promote(old(tenancy), old(rbac), userId);
              View() == old(View()).(tenancy := after.0) && r == after.1
      ensures r.Ok? && r.value.Some? ==>
                var principal := UserPrincipal(userId);
                locks == [UserRow(userId)]
                         + (if principal in old(tenancy).principals then [PrincipalRow(principal)] else [])
                         + (if (INTERNAL_ORGANIZATION, principal) in old(tenancy).memberships
                            then [MembershipRow(INTERNAL_ORGANIZATION, principal)] else [])
    {
      hide HasPlatformRole;
      locks := [];
      if userId !in tenancy.users {
        return Ok(None), locks;
      }
      locks := locks + [UserRow(userId)];
      if tenancy.users[userId].userClass == ExternalCustomer {
        if HasPlatformRole(rbac, userId) {
          return Err(CannotPromoteUserWithExistingPlatformRoles), locks;
        }
      }
      var start := tenancy;
      var user := tenancy.users[userId].(userClass := InternalEmployee);
      tenancy := tenancy.(users := tenancy.users[userId := user]);
      var principal := UserPrincipal(userId);
      if principal in tenancy.principals {
        locks := locks + [PrincipalRow(principal)];
      }
      tenancy := tenancy.(principals := tenancy.principals[principal := Principal(user.active)]);
      if INTERNAL_ORGANIZATION !in tenancy.organizations {
        tenancy := start;
        return Err(ConstraintViolated), locks;
      }
      if (INTERNAL_ORGANIZATION, principal) in tenancy.memberships {
        locks := locks + [MembershipRow(INTERNAL_ORGANIZATION, principal)];
      }
      tenancy := tenancy.(memberships :=
        tenancy.memberships[(INTERNAL_ORGANIZATION, principal) := Membership(MemberActive, RoleOwner)]);
      return Ok(Some(user)), locks;
    }

    // src/db/user.rs

    method SetUserClass(userId: UserId, userClass: UserClass) returns (r: Result<Option<User>>)
      modifies this
      ensures var after := Users.SetUserClass(old(tenancy), old(rbac), userId, userClass);
              View() == old(View()).(tenancy := after.0) && r == after.1
      ensures ClassSet(old(View()), View(), userId, userClass, r)
    {
      hide HasPlatformRole, ClassSet;
      SetClassGuarantee(View(), userId, userClass);
      if userId !in tenancy.users {
        return Ok(None);
      }
      if tenancy.users[userId].userClass != userClass {
        if HasPlatformRole(rbac, userId) {
          if userClass == ExternalCustomer {
            return Err(CannotDemoteUserWithPlatformRoles);
          }
          return Err(CannotPromoteUserWithExistingPlatformRoles);
        }
      }
      var user := tenancy.users[userId].(userClass := userClass);
      tenancy := tenancy.(users := tenancy.users[userId := user]);
      return Ok(Some(user));
    }

    method UpdateUser(now: Time, userId: UserId, u: UserUpdate) returns (r: Result<Option<User>>)
      modifies this
      ensures var after := Users.UpdateUser(old(View()), now, userId, u); View() == after.0 && r == after.1
    {
      hide NameOrEmailTaken, RevokeWhere, RevokePendingProofs;
      if userId !in tenancy.users {
        return Ok(None);
      }
      var previous := tenancy.users[userId];
      var emailChanged := u.email.Some? && previous.email != u.email.value;
      var user := previous.(
        username := GetOr(u.username, previous.username),
        email := GetOr(u.email, previous.email),
        emailVerified := if u.email.Some? && previous.email != u.email.value then false else previous.emailVerified,
        passwordHash := Coalesce(u.passwordHash, previous.passwordHash),
        active := GetOr(u.active, previous.active));
      if NameOrEmailTaken(tenancy.users, userId, user.username, user.email) {
        return Err(ConstraintViolated);
      }
      tenancy := tenancy.(users := tenancy.users[userId := user]);
      if emailChanged {
        proofs := proofs.(email := RevokePendingProofs(proofs.email, userId, now));
        proofs := proofs.(reset := RevokePendingProofs(proofs.reset, userId, now));
      }
      if u.active == Some(false) || u.passwordHash.Some? {
        var reason := if u.active == Some(false) then UserDisabled else PasswordUpdated;
        refresh := refresh.(sessions :=
          RevokeWhere(refresh.sessions, OfPrincipal(UserPrincipal(userId)), now, Some(reason)));
      }
      return Ok(Some(user));
    }

    method SetUserActive(now: Time, userId: UserId, active: bool) returns (found: bool)
      modifies this
      ensures var after := Users.SetUserActive(old(View()), now, userId, active); View() == after.0 && found == after.1
      ensures ActiveSet(old(View()), View(), userId, active, found)
    {
      hide RevokeWhere, ActiveSet;
      SetActiveGuarantee(View(), now, userId, active);
      if userId !in tenancy.users {
        return false;
      }
      tenancy := tenancy.(users := tenancy.users[userId := tenancy.users[userId].(active := active)]);
      if !active {
        refresh := refresh.(sessions :=
          RevokeWhere(refresh.sessions, OfPrincipal(UserPrincipal(userId)), now, Some(UserDisabled)));
      }
      return true;
    }

    /** Deleting the principal takes its memberships, roles and sessions with it, and those their
      * tokens; deleting the account takes its roles, codes and proofs. */
    method DeleteUser(now: Time, userId: UserId) returns (found: bool)
      modifies this
      ensures var after := Users.DeleteUser(old(View()), now, userId); View() == after.0 && found == after.1
    {
      hide RevokeWhere, WithoutProofsOf;
      if userId !in tenancy.users {
        return false;
      }
      var principal := UserPrincipal(userId);
      refresh := refresh.(sessions := RevokeWhere(refresh.sessions, OfPrincipal(principal), now, Some(UserDeleted)));
      var memberships := tenancy.memberships;
      tenancy := tenancy.(principals := tenancy.principals - {principal},
                          memberships := map k | k in memberships && k.1 != principal :: memberships[k]);
      rbac := rbac.(ofPrincipal := (set b | b in rbac.ofPrincipal && b.0 != principal));
      refresh := WithoutPrincipalSessions(refresh, principal);
      tenancy := tenancy.(users := tenancy.users - {userId});
      rbac := rbac.(ofUser := (set b | b in rbac.ofUser && b.0 != userId));
      oidc := oidc.(codes := map c | c in oidc.codes && oidc.codes[c].user != userId :: oidc.codes[c]);
      proofs := ProofTables(WithoutProofsOf(proofs.reset, userId), WithoutProofsOf(proofs.email, userId));
      return true;
    }

    method ResetUserPassword(now: Time, userId: UserId, hash: Text) returns (found: bool)
      modifies this
      ensures var after := Users.ResetUserPassword(old(View()), now, userId, hash);
              View() == after.0 && found == after.1
      ensures PasswordSet(old(View()), View(), userId, hash, true, found) && (found <==> userId in old(tenancy).users)
    {
      hide RevokeWhere, PasswordSet;
      ResetGuarantee(View(), now, userId, hash);
      if userId !in tenancy.users {
        return false;
      }
      var user := tenancy.users[userId].(passwordHash := Some(hash), passwordChangeRequired := true);
      tenancy := tenancy.(users := tenancy.users[userId := user]);
      refresh := refresh.(sessions :=
        RevokeWhere(refresh.sessions, OfPrincipal(UserPrincipal(userId)), now, Some(PasswordWasReset)));
      return true;
    }

    /** `verified` is bcrypt's answer for the current password. */
    method ChangeUserPassword(now: Time, userId: UserId, verified: bool, hash: Text) returns (changed: bool)
      modifies this
      ensures var after := Users.ChangeUserPassword(old(View()), now, userId, verified, hash);
              View() == after.0 && changed == after.1
      ensures PasswordSet(old(View()), View(), userId, hash, false, changed)
      ensures changed ==> verified && old(tenancy).users[userId].active
    {
      hide RevokeWhere, PasswordSet;
      ChangeGuarantee(View(), now, userId, verified, hash);
      if userId !in tenancy.users {
        return false;
      }
      var user := tenancy.users[userId];
      if !user.active {
        return false;
      }
      if user.passwordHash.None? {
        return false;
      }
      if !verified {
        return false;
      }
      user := user.(passwordHash := Some(hash), passwordChangeRequired := false);
      tenancy := tenancy.(users := tenancy.users[userId := user]);
      refresh := refresh.(sessions :=
        RevokeWhere(refresh.sessions, OfPrincipal(UserPrincipal(userId)), now, Some(PasswordChanged)));
      return true;
    }

    /** `seen` are the role rows that its SELECT found, which it does not lock; a role deleted since
      * fails the foreign key of the binding. */
    method ProvisionUserWithRoles(id: UserId, row: User, roleIds: seq<RoleId>, seen: map<RoleId, Role>)
      returns (r: Result<User>)
      modifies this
      ensures var after := Provision(old(View()), id, row, roleIds, seen); View() == after.0 && r == after.1
    {
      hide NameOrEmailTaken, UserRoleError;
      var start := tenancy;
      if id in tenancy.users || NameOrEmailTaken(tenancy.users, id, row.username, row.email) {
        return Err(ConstraintViolated);
      }
      tenancy := tenancy.(users := tenancy.users[id := row]);
      if UserPrincipal(id) in tenancy.principals {
        tenancy := start;
        return Err(ConstraintViolated);
      }
      tenancy := tenancy.(principals := tenancy.principals[UserPrincipal(id) := Principal(true)]);
      var error := CheckRoles(seen, roleIds, row.userClass, RoleNotBound);
      if error.Some? {
        tenancy := start;
        return Err(error.value);
      }
      var bound := rbac;
      BindRoles(id, roleIds);
      if exists role | role in roleIds :: role !in rbac.roles {
        tenancy, rbac := start, bound;
        return Err(ConstraintViolated);
      }
      return Ok(row);
    }

    // src/db/rbac.rs and src/db/principal.rs

    static method CheckRoles(roles: map<RoleId, Role>, roleIds: seq<RoleId>, userClass: UserClass, missing: Error)
      returns (error: Option<Error>)
      ensures error == FirstRoleError(roles, roleIds, userClass, missing)
    {
      hide UserRoleError, FirstRoleError;
      NoRolesNoError(roles, roleIds[..0], userClass, missing);
      for i := 0 to |roleIds|
        invariant FirstRoleError(roles, roleIds[..i], userClass, missing).None?
      {
        OneMoreRole(roles, roleIds, i, userClass, missing);
        if roleIds[i] !in roles {
          FirstErrorStays(roles, roleIds, i + 1, userClass, missing);
          return Some(missing);
        }
        var refused := UserRoleError(roles[roleIds[i]], userClass);
        if refused.Some? {
          FirstErrorStays(roles, roleIds, i + 1, userClass, missing);
          return refused;
        }
      }
      assert roleIds[..|roleIds|] == roleIds;
      return None;
    }

    method BindRoles(user: UserId, roleIds: seq<RoleId>)
      modifies `rbac
      ensures rbac == Bind(old(rbac), user, roleIds)
    {
      for i := 0 to |roleIds|
        invariant rbac == Bind(old(rbac), user, roleIds[..i])
      {
        rbac := rbac.(ofUser := rbac.ofUser + {(user, roleIds[i])});
        rbac := rbac.(ofPrincipal := rbac.ofPrincipal + {(UserPrincipal(user), roleIds[i])});
        BindStep(old(rbac), user, roleIds, i);
      }
      assert roleIds[..|roleIds|] == roleIds;
    }

    method AssignRolesToUserBatch(user: UserId, roleIds: seq<RoleId>) returns (r: Result<()>)
      modifies this
      ensures var after := AssignRolesToUser(old(tenancy), old(rbac), user, roleIds);
              View() == old(View()).(rbac := after.0) && r == after.1
    {
      hide FirstRoleError, Bind;
      if roleIds == [] {
        return Ok(());
      }
      if user !in tenancy.users {
        return Err(UserNotFound);
      }
      var error := CheckRoles(rbac.roles, roleIds, tenancy.users[user].userClass, RoleNotFound);
      if error.Some? {
        return Err(error.value);
      }
      if UserPrincipal(user) !in tenancy.principals {
        return Err(ConstraintViolated);
      }
      BindRoles(user, roleIds);
      return Ok(());
    }

    method RevokeRoleFromUser(user: UserId, role: RoleId) returns (revoked: bool)
      modifies this
      ensures var after := PlatformRoles.RevokeRoleFromUser(old(tenancy), old(rbac), user, role);
              View() == old(View()).(rbac := after.0) && revoked == after.1
      ensures if user in tenancy.users
              then BindingSet(old(rbac), rbac, UserPrincipal(user), role, false) && (revoked <==> rbac != old(rbac))
              else rbac == old(rbac) && !revoked
    {
      hide BindingSet;
      RevokeRoleGuarantee(tenancy, rbac, user, role);
      if user !in tenancy.users {
        return false;
      }
      var userRow := (user, role) in rbac.ofUser;
      rbac := rbac.(ofUser := rbac.ofUser - {(user, role)});
      var principalRow := (UserPrincipal(user), role) in rbac.ofPrincipal;
      rbac := rbac.(ofPrincipal := rbac.ofPrincipal - {(UserPrincipal(user), role)});
      return userRow || principalRow;
    }

    method AssignRoleToPrincipal(principal: PrincipalId, role: RoleId) returns (r: Result<()>)
      modifies this
      ensures var after := PlatformRoles.AssignRoleToPrincipal(old(tenancy), old(rbac), principal, role);
              View() == old(View()).(rbac := after.0) && r == after.1
      ensures if r.Ok?
              then MayHold(tenancy, rbac, principal, role) && BindingSet(old(rbac), rbac, principal, role, true)
              else rbac == old(rbac)
    {
      hide BindingSet, MayHold;
      AssignPrincipalGuarantee(tenancy, rbac, principal, role);
      if principal !in tenancy.principals {
        return Err(PrincipalOrRoleNotFound);
      }
      if role !in rbac.roles {
        return Err(PrincipalOrRoleNotFound);
      }
      var row := rbac.roles[role];
      var error := AssignmentError(row, principal.kind);
      if error.Some? {
        return Err(error.value);
      }
      if principal.kind == UserKind {
        if principal.refId !in tenancy.users {
          return Err(UserNotFound);
        }
        error := UserRoleError(row, tenancy.users[principal.refId].userClass);
        if error.Some? {
          return Err(error.value);
        }
        rbac := rbac.(ofUser := rbac.ofUser + {(principal.refId, role)});
        BindOne(old(rbac), principal.refId, role);
      }
      rbac := rbac.(ofPrincipal := rbac.ofPrincipal + {(principal, role)});
      return Ok(());
    }

    method RevokeRoleFromPrincipal(principal: PrincipalId, role: RoleId) returns (r: Result<bool>)
      modifies this
      ensures var after := PlatformRoles.RevokeRoleFromPrincipal(old(tenancy), old(rbac), principal, role);
              View() == old(View()).(rbac := after.0) && r == after.1
      ensures if r.Ok? && principal in tenancy.principals
              then BindingSet(old(rbac), rbac, principal, role, false) && (r.value <==> rbac != old(rbac))
              else rbac == old(rbac)
    {
      hide BindingSet;
      RevokePrincipalGuarantee(tenancy, rbac, principal, role);
      if principal !in tenancy.principals {
        return Ok(false);
      }
      if principal.kind == UserKind {
        if principal.refId !in tenancy.users {
          return Err(UserNotFound);
        }
      }
      var principalRow := (principal, role) in rbac.ofPrincipal;
      rbac := rbac.(ofPrincipal := rbac.ofPrincipal - {(principal, role)});
      var userRow := false;
      if principal.kind == UserKind {
        userRow := (principal.refId, role) in rbac.ofUser;
        rbac := rbac.(ofUser := rbac.ofUser - {(principal.refId, role)});
      }
      return Ok(principalRow || userRow);
    }

    // src/db/oidc.rs

    method LockScope(scope: ClientScope) returns (error: Option<Error>)
      ensures error == ScopeError(tenancy, scope)
    {
      hide LockManagerContext;
      if scope.TenantClient? {
        var locked, _ := LockOrganizationManagerContext(scope.organization, scope.actor, scope.actor);
        if locked.Err? {
          return Some(locked.error);
        }
      }
      return None;
    }

    method UpdateOidcClient(id: ClientId, scope: ClientScope, u: ClientUpdate) returns (r: Result<Option<OidcClient>>)
      modifies this
      ensures var after := UpdateClient(old(tenancy), old(oidc), id, scope, u);
              View() == old(View()).(oidc := after.0) && r == after.1
      ensures ClientUpdated(old(oidc), oidc, id, u, r)
    {
      hide ScopeError, ClientUpdated;
      UpdateClientGuarantee(tenancy, oidc, id, scope, u);
      var error := LockScope(scope);
      if error.Some? {
        return Err(error.value);
      }
      if id !in oidc.clients || oidc.clients[id].organization != ScopeOrganization(scope) {
        return Ok(None);
      }
      var previous := oidc.clients[id];
      var client := UpdatedClient(previous, u);
      oidc := oidc.(clients := oidc.clients[id := client]);
      var trustBoundaryChanged :=
        && previous.active
        && (|| !client.active
            || previous.boundary.redirectUris != client.boundary.redirectUris
            || previous.boundary.grantTypes != client.boundary.grantTypes
            || previous.boundary.scopes != client.boundary.scopes);
      if trustBoundaryChanged {
        oidc := oidc.(codes := DropPendingCodesOfClient(oidc.codes, id));
      }
      return Ok(Some(client));
    }

    method RotateOidcClientSecret(id: ClientId, scope: ClientScope, secretHash: Text) returns (r: Result<bool>)
      modifies this
      ensures var after := RotateSecret(old(tenancy), old(oidc), id, scope, secretHash);
              View() == old(View()).(oidc := after.0) && r == after.1
      ensures SecretRotated(old(oidc), oidc, id, scope, secretHash, r)
    {
      hide ScopeError, SecretRotated;
      RotateSecretGuarantee(tenancy, oidc, id, scope, secretHash);
      var error := LockScope(scope);
      if error.Some? {
        return Err(error.value);
      }
      var organization := ScopeOrganization(scope);
      if id !in oidc.clients || oidc.clients[id].organization != organization
         || !oidc.clients[id].confidential || !oidc.clients[id].active {
        return Ok(false);
      }
      oidc := oidc.(clients := oidc.clients[id := oidc.clients[id].(secretHash := Some(secretHash))]);
      oidc := oidc.(codes := map c | c in oidc.codes && !(&& oidc.codes[c].client == id
                                                          && oidc.codes[c].organization == organization
                                                          && oidc.codes[c].consumed.None?) :: oidc.codes[c]);
      return Ok(true);
    }

    // src/db/password_reset.rs and src/db/email_verification.rs

    method FindEligibleUser(identifier: Text) returns (choice: Option<UserId>)
      ensures EligibleUser(tenancy.users, identifier, choice)
    {
      if user :| user in tenancy.users && EligibleByEmail(tenancy.users, identifier, user) {
        return Some(user);
      }
      if user :| user in tenancy.users && EligibleByUsername(tenancy.users, identifier, user) {
        return Some(user);
      }
      return None;
    }

    method IssuePasswordResetToken(now: Time, identifier: Text, n: NewProof)
      returns (chosen: Option<UserId>, r: Result<bool>)
      modifies this
      ensures EligibleUser(old(tenancy).users, identifier, chosen)
      ensures var after := IssueReset(old(tenancy), old(proofs), now, chosen, n);
              View() == old(View()).(proofs := after.0) && r == after.1
    {
      hide EligibleUser, RevokePendingProofs;
      chosen := FindEligibleUser(identifier);
      if chosen.None? || chosen.value !in tenancy.users {
        return chosen, Ok(false);
      }
      var user := chosen.value;
      var start := proofs;
      proofs := proofs.(reset := RevokePendingProofs(proofs.reset, user, now));
      if ProofConflict(start.reset, n) {
        proofs := start;
        return chosen, Err(ConstraintViolated);
      }
      var row := Proof(n.id, user, tenancy.users[user].email, ProofExpiry(now, n.lifetime), None, None);
      proofs := proofs.(reset := proofs.reset[n.token := row]);
      return chosen, Ok(true);
    }

    method ConsumePasswordResetToken(now: Time, token: Token, hash: Text) returns (outcome: ResetOutcome)
      modifies this
      ensures var after := ConsumeReset(old(View()), now, token, hash); View() == after.0 && outcome == after.1
    {
      hide RevokeWhere, RevokePendingProofs;
      if token !in proofs.reset || proofs.reset[token].user !in tenancy.users {
        return ResetRefused;
      }
      var record := proofs.reset[token];
      var account := tenancy.users[record.user];
      var invalid :=
        || record.consumed.Some?
        || record.revoked.Some?
        || record.expires <= now
        || !account.active
        || !account.emailVerified
        || account.passwordHash.None?
        || account.email != record.emailSnapshot;
      if invalid {
        if record.consumed.None? && record.revoked.None? {
          proofs := proofs.(reset := proofs.reset[token := record.(revoked := Some(now))]);
        }
        return ResetRefused;
      }
      proofs := proofs.(reset := proofs.reset[token := record.(consumed := Some(now))]);
      tenancy := tenancy.(users :=
        tenancy.users[record.user := account.(passwordHash := Some(hash), passwordChangeRequired := true)]);
      refresh := refresh.(sessions :=
        RevokeWhere(refresh.sessions, OfPrincipal(UserPrincipal(record.user)), now, Some(PasswordWasReset)));
      proofs := proofs.(reset := RevokePendingProofs(proofs.reset, record.user, now));
      return Reset(record.user);
    }

    method IssueEmailVerificationToken(now: Time, userId: UserId, n: NewProof) returns (r: Result<bool>)
      modifies this
      ensures var after := IssueVerification(old(tenancy), old(proofs), now, userId, n);
              View() == old(View()).(proofs := after.0) && r == after.1
    {
      hide RevokePendingProofs;
      if userId !in tenancy.users {
        return Ok(false);
      }
      var user := tenancy.users[userId];
      if !user.active || user.emailVerified {
        return Ok(false);
      }
      var start := proofs;
      proofs := proofs.(email := RevokePendingProofs(proofs.email, userId, now));
      if ProofConflict(start.email, n) {
        proofs := start;
        return Err(ConstraintViolated);
      }
      var row := Proof(n.id, userId, user.email, ProofExpiry(now, n.lifetime), None, None);
      proofs := proofs.(email := proofs.email[n.token := row]);
      return Ok(true);
    }

    method ConsumeEmailVerificationToken(now: Time, token: Token) returns (outcome: VerificationOutcome)
      modifies this
      ensures var after := ConsumeVerification(old(View()), now, token); View() == after.0 && outcome == after.1
    {
      if token !in proofs.email || proofs.email[token].user !in tenancy.users {
        return VerificationRefused;
      }
      var record := proofs.email[token];
      var account := tenancy.users[record.user];
      var invalid :=
        || record.consumed.Some?
        || record.revoked.Some?
        || record.expires <= now
        || !account.active
        || account.email != record.emailSnapshot;
      if invalid {
        if record.consumed.None? && record.revoked.None? {
          proofs := proofs.(email := proofs.email[token := record.(revoked := Some(now))]);
        }
        return VerificationRefused;
      }
      proofs := proofs.(email := proofs.email[token := record.(consumed := Some(now))]);
      if !account.emailVerified {
        tenancy := tenancy.(users := tenancy.users[record.user := account.(emailVerified := true)]);
      } else {
        assert tenancy.users[record.user := account.(emailVerified := true)] == tenancy.users;
      }
      return Verified(record.user);
    }

    // src/db/mod.rs

    /** `known` tells whether the client, which the row references, is in `clients`. */
    method CreateRefreshToken(known: bool, id: TokenId, client: ClientId, token: Token, expires: Time)
      returns (r: Result<()>)
      modifies this
      ensures var after := CreateLegacy(old(refresh), known, id, client, token, expires);
              View() == old(View()).(refresh := after.0) && r == after.1
      ensures OnlyLegacyRow(old(refresh), refresh, token)
      ensures if r.Ok? then known && HonouredUntil(refresh, token, client, expires) else refresh == old(refresh)
    {
      hide OnlyLegacyRow, HonouredUntil;
      CreateLegacyGuarantee(refresh, known, id, client, token, expires);
      if !known || token in refresh.legacy || (exists x | x in refresh.legacy :: refresh.legacy[x].id == id) {
        return Err(ConstraintViolated);
      }
      refresh := refresh.(legacy := refresh.legacy[token := LegacyToken(id, client, expires, false)]);
      return Ok(());
    }

    method ConsumeRefreshToken(now: Time, token: Token) returns (client: Option<ClientId>)
      modifies this
      ensures var after := ConsumeLegacy(old(refresh), now, token);
              View() == old(View()).(refresh := after.0) && client == after.1
      ensures OnlyLegacyRow(old(refresh), refresh, token)
      ensures if client.Some? then LegacyDead(refresh, token) else refresh == old(refresh)
    {
      hide OnlyLegacyRow, LegacyDead;
      ConsumeLegacyGuarantee(refresh, now, token);
      if token !in refresh.legacy || refresh.legacy[token].expires <= now || refresh.legacy[token].revoked {
        return None;
      }
      var row := refresh.legacy[token];
      refresh := refresh.(legacy := refresh.legacy[token := row.(revoked := true)]);
      return Some(row.client);
    }

    method RevokeRefreshTokenByToken(token: Token) returns (found: bool)
      modifies this
      ensures View() == old(View()).(refresh := RevokeLegacyByToken(old(refresh), token))
      ensures found == (token in old(refresh).legacy)
      ensures OnlyLegacyRow(old(refresh), refresh, token) && LegacyDead(refresh, token)
    {
      hide OnlyLegacyRow, LegacyDead;
      RevokeLegacyGuarantee(refresh, token);
      if token !in refresh.legacy {
        return false;
      }
      refresh := refresh.(legacy := refresh.legacy[token := refresh.legacy[token].(revoked := true)]);
      return true;
    }
  }

  lemma NoRolesNoError(roles: map<RoleId, Role>, roleIds: seq<RoleId>, userClass: UserClass, missing: Error)
    requires roleIds == []
    ensures FirstRoleError(roles, roleIds, userClass, missing).None?
  {
  }

  lemma OneMoreRole(roles: map<RoleId, Role>, roleIds: seq<RoleId>, i: nat, userClass: UserClass, missing: Error)
    requires i < |roleIds| && FirstRoleError(roles, roleIds[..i], userClass, missing).None?
    ensures FirstRoleError(roles, roleIds[..i + 1], userClass, missing)
            == if roleIds[i] !in roles then Some(missing) else UserRoleError(roles[roleIds[i]], userClass)
  {
    hide UserRoleError;
    assert roleIds[..i + 1][..i] == roleIds[..i];
  }

  lemma {:induction false} FirstErrorStays(roles: map<RoleId, Role>, roleIds: seq<RoleId>, n: nat,
                                           userClass: UserClass, missing: Error)
    requires n <= |roleIds| && FirstRoleError(roles, roleIds[..n], userClass, missing).Some?
    ensures FirstRoleError(roles, roleIds, userClass, missing)
            == FirstRoleError(roles, roleIds[..n], userClass, missing)
    decreases |roleIds|
  {
    if n < |roleIds| {
      var init := roleIds[..|roleIds| - 1];
      assert init[..n] == roleIds[..n];
      FirstErrorStays(roles, init, n, userClass, missing);
    } else {
      assert roleIds[..n] == roleIds;
    }
  }

  lemma BindStep(rbac: RoleTables, user: UserId, roleIds: seq<RoleId>, i: nat)
    requires i < |roleIds|
    ensures var before := Bind(rbac, user, roleIds[..i]);
            Bind(rbac, user, roleIds[..i + 1])
            == before.(ofUser := before.ofUser + {(user, roleIds[i])},
                       ofPrincipal := before.ofPrincipal + {(UserPrincipal(user), roleIds[i])})
  {
    assert roleIds[..i + 1] == roleIds[..i] + [roleIds[i]];
    var before, after := Bind(rbac, user, roleIds[..i]), Bind(rbac, user, roleIds[..i + 1]);
    forall role
      ensures role in roleIds[..i + 1] <==> role in roleIds[..i] || role == roleIds[i]
    {
    }
    assert after.ofUser == before.ofUser + {(user, roleIds[i])};
    assert after.ofPrincipal == before.ofPrincipal + {(UserPrincipal(user), roleIds[i])};
  }

  lemma BindOne(rbac: RoleTables, user: UserId, role: RoleId)
    ensures Bind(rbac, user, [role])
            == rbac.(ofUser := rbac.ofUser + {(user, role)},
                     ofPrincipal := rbac.ofPrincipal + {(UserPrincipal(user), role)})
  {
    var bound := Bind(rbac, user, [role]);
    assert bound.ofUser == rbac.ofUser + {(user, role)};
    assert bound.ofPrincipal == rbac.ofPrincipal + {(UserPrincipal(user), role)};
  }
}
