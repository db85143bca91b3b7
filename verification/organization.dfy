/** Tenant lifecycle transactions (src/db/organization.rs). */
module Organizations {
  import opened Schema
  import opened RefreshSession

  predicate ValidTransition(current: OrganizationStatus, next: OrganizationStatus) {
    || current == next
    || (current == OrgActive && next == OrgDisabled)
    || (current == OrgActive && next == OrgArchived)
    || (current == OrgDisabled && next == OrgActive)
    || (current == OrgDisabled && next == OrgArchived)
    || (current == OrgArchived && next == OrgActive)
  }

  function CreateOrganization(t: Tenancy, id: OrganizationId, kind: OrganizationKind): (r: (Tenancy,
                              Result<Organization>))
  {
    if id in t.organizations then
      (t, Err(ConstraintViolated))
    else
      var organization := Organization(kind, OrgActive);
      (t.(organizations := t.organizations[id := organization]), Ok(organization))
  }

  /** Unconsumed codes of one organization are dropped. */
  function DropPendingCodesOf(codes: map<Code, AuthorizationCode>, organization: OrganizationId)
    : map<Code, AuthorizationCode>
  {
    map c | c in codes && !(codes[c].organization == Some(organization) && codes[c].consumed.None?) :: codes[c]
  }

  function DropPendingCodesOfMember(codes: map<Code, AuthorizationCode>, organization: OrganizationId, user: UserId)
    : map<Code, AuthorizationCode>
  {
    map c | c in codes
            && !(codes[c].organization == Some(organization) && codes[c].user == user && codes[c].consumed.None?)
      :: codes[c]
  }

  predicate LeavesActive(previous: OrganizationStatus, status: OrganizationStatus) {
    previous == OrgActive && status != OrgActive
  }

  function WithStatus(t: Tenancy, id: OrganizationId, status: OrganizationStatus): Tenancy
    requires id in t.organizations
  {
    t.(organizations := t.organizations[id := t.organizations[id].(status := status)])
  }

  /** On success the answer is the previous status; `Ok(None)` when the organization is absent. */
  function SetStatus(db: DB, now: Time, id: OrganizationId, status: OrganizationStatus)
    : (r: (DB, Result<Option<OrganizationStatus>>))
  {
    if id !in db.tenancy.organizations then
      (db, Ok(None))
    else
      var previous := db.tenancy.organizations[id].status;
      if !ValidTransition(previous, status) then
        (db, Err(InvalidOrganizationStatusTransition))
      else if LeavesActive(previous, status) then
        var sessions := RevokeWhere(db.refresh.sessions, OfOrganization(id), now, Some(OrganizationBecame(status)));
        (db.(tenancy := WithStatus(db.tenancy, id, status),
             refresh := db.refresh.(sessions := sessions),
             oidc := db.oidc.(codes := DropPendingCodesOf(db.oidc.codes, id))),
         Ok(Some(previous)))
      else
        (db.(tenancy := WithStatus(db.tenancy, id, status)), Ok(Some(previous)))
  }

  datatype MembershipParams = MembershipParams(
    organization: OrganizationId,
    principal: PrincipalId,
    status: MembershipStatus,
    managementRole: Option<ManagementRole>)

  /** `ON CONFLICT DO UPDATE`: an absent role keeps the stored one, or is 'member' on insert. */
  function UpsertedMembership(t: Tenancy, p: MembershipParams): Membership {
    var key := (p.organization, p.principal);
    var role :=
      if p.managementRole.Some? then p.managementRole.value
      else if key in t.memberships then t.memberships[key].managementRole
      else RoleMember;
    Membership(p.status, role)
  }

  function UserClassOf(t: Tenancy, principal: PrincipalId): Option<UserClass> {
    if principal.kind == UserKind && principal.refId in t.users
    then Some(t.users[principal.refId].userClass)
    else None
  }

  function MembershipError(t: Tenancy, p: MembershipParams): Option<Error> {
    if p.organization !in t.organizations || p.principal !in t.principals then
      Some(OrganizationOrPrincipalNotFound)
    else
      var organization := t.organizations[p.organization];
      if organization.status != OrgActive && (p.status == MemberPending || p.status == MemberActive) then
        Some(OrganizationNotActive)
      else if p.status == MemberActive && !t.principals[p.principal].active then
        Some(PrincipalNotActive)
      else if UserClassOf(t, p.principal) == Some(ExternalCustomer) && organization.kind != CustomerOrg then
        Some(ExternalCustomerRequiresCustomerOrganization)
      else if p.managementRole.Some? && p.managementRole.value != RoleMember && UserClassOf(t, p.principal).None? then
        Some(OrganizationManagementRoleRequiresUserPrincipal)
      else
        None
  }

  function WithMembership(t: Tenancy, p: MembershipParams): Tenancy {
    t.(memberships := t.memberships[(p.organization, p.principal) := UpsertedMembership(t, p)])
  }

  /** A member who is no longer active loses the scoped sessions, and only those. */
  function EndMemberSessions(r: RefreshTables, now: Time, p: MembershipParams): RefreshTables {
    var member := OfMember(p.organization, p.principal);
    r.(sessions := RevokeWhere(r.sessions, member, now, Some(MembershipBecame(p.status))))
  }

  function UpsertMembership(db: DB, now: Time, p: MembershipParams)
    : (r: (DB, Result<Membership>))
  {
    var error := MembershipError(db.tenancy, p);
    if error.Some? then
      (db, Err(error.value))
    else
      var row := UpsertedMembership(db.tenancy, p);
      var tenancy := WithMembership(db.tenancy, p);
      if p.status == MemberActive then
        (db.(tenancy := tenancy), Ok(row))
      else
        (db.(tenancy := tenancy,
             refresh := EndMemberSessions(db.refresh, now, p),
             oidc := if p.principal.kind == UserKind
                     then db.oidc.(codes := DropPendingCodesOfMember(db.oidc.codes, p.organization, p.principal.refId))
                     else db.oidc),
         Ok(row))
  }

  /** What `lock_organization_manager_context` hands to a delegated write. */
  datatype ManagerContext = ManagerContext(
    targetActive: bool,
    targetUserActive: Option<bool>,
    targetMembership: Option<Membership>,
    actorRole: ManagementRole)

  predicate UserRowMissing(t: Tenancy, principal: PrincipalId) {
    principal.kind == UserKind && principal.refId !in t.users
  }

  function LockManagerContext(t: Tenancy, id: OrganizationId, actor: PrincipalId, target: PrincipalId)
    : (r: Result<ManagerContext>)
  {
    if id !in t.organizations then Err(OrganizationNotFound)
    else if t.organizations[id].status != OrgActive then Err(OrganizationNotActive)
    else if actor !in t.principals then Err(OrganizationManagerPrincipalNotFound)
    else if target !in t.principals then Err(OrganizationTargetPrincipalNotFound)
    else if UserRowMissing(t, actor) || UserRowMissing(t, target) then
      Err(OrganizationPrincipalUserNotFound)
    else if (id, actor) !in t.memberships then Err(OrganizationManagerMembershipNotFound)
    else if actor.kind != UserKind then Err(OrganizationManagerRequiresUserPrincipal)
    else if !t.principals[actor].active || !t.users[actor.refId].active then
      Err(OrganizationManagerPrincipalInactive)
    else if t.users[actor.refId].userClass == ExternalCustomer && t.organizations[id].kind != CustomerOrg then
      Err(ExternalCustomerRequiresCustomerOrganization)
    else if t.memberships[(id, actor)].status != MemberActive then
      Err(OrganizationManagerMembershipNotActive)
    else if t.memberships[(id, actor)].managementRole == RoleMember then
      Err(OrganizationManagerRoleRequired)
    else if UserClassOf(t, target) == Some(ExternalCustomer) && t.organizations[id].kind != CustomerOrg then
      Err(ExternalCustomerRequiresCustomerOrganization)
    else
      Ok(ManagerContext(
           t.principals[target].active,
           if target.kind == UserKind then Some(t.users[target.refId].active) else None,
           if (id, target) in t.memberships then Some(t.memberships[(id, target)]) else None,
           t.memberships[(id, actor)].managementRole))
  }

  /** The refusals of a delegated membership write, once its context is locked. */
  function ManagerWriteError(context: ManagerContext, p: MembershipParams): Option<Error> {
    if p.status == MemberActive && (!context.targetActive || context.targetUserActive == Some(false)) then
      Some(OrganizationTargetPrincipalInactive)
    else if p.principal.kind != UserKind && p.managementRole.Some? && p.managementRole.value != RoleMember then
      Some(OrganizationManagementRoleRequiresUserPrincipal)
    else if context.actorRole == RoleAdmin && p.managementRole == Some(RoleOwner) then
      Some(OrganizationOwnerRoleRequired)
    else if && context.actorRole == RoleAdmin
            && context.targetMembership.Some?
            && context.targetMembership.value.managementRole == RoleOwner
            && (p.status != MemberActive || (p.managementRole.Some? && p.managementRole.value != RoleOwner)) then
      Some(OrganizationOwnerRoleRequired)
    else
      None
  }

  /** A retried invitation leaves an active member as is. */
  predicate AlreadyMember(context: ManagerContext, p: MembershipParams) {
    && p.status == MemberPending
    && context.targetMembership.Some?
    && context.targetMembership.value.status == MemberActive
  }

  function UpsertMembershipAsManager(db: DB, now: Time, actor: PrincipalId, p: MembershipParams)
    : (r: (DB, Result<Membership>))
  {
    var locked := LockManagerContext(db.tenancy, p.organization, actor, p.principal);
    if locked.Err? then
      (db, Err(locked.error))
    else
      var error := ManagerWriteError(locked.value, p);
      if error.Some? then
        (db, Err(error.value))
      else if AlreadyMember(locked.value, p) then
        (db, Ok(locked.value.targetMembership.value))
      else
        var row := UpsertedMembership(db.tenancy, p);
        var tenancy := WithMembership(db.tenancy, p);
        if p.status == MemberActive then
          (db.(tenancy := tenancy), Ok(row))
        else
          (db.(tenancy := tenancy, refresh := EndMemberSessions(db.refresh, now, p)), Ok(row))
  }

  function JoinError(t: Tenancy, id: OrganizationId, principal: PrincipalId): Option<Error> {
    if id !in t.organizations then Some(OrganizationNotFound)
    else if t.organizations[id].status != OrgActive then Some(OrganizationNotActive)
    else if principal !in t.principals then Some(OrganizationTargetPrincipalNotFound)
    else if principal.kind != UserKind then Some(OrganizationJoinRequiresUserPrincipal)
    else if principal.refId !in t.users then Some(OrganizationTargetUserNotFound)
    else if !t.principals[principal].active || !t.users[principal.refId].active then
      Some(OrganizationTargetPrincipalInactive)
    else if t.users[principal.refId].userClass == ExternalCustomer && t.organizations[id].kind != CustomerOrg then
      Some(ExternalCustomerRequiresCustomerOrganization)
    else if (id, principal) !in t.memberships then Some(OrganizationInvitationNotFound)
    else
      var status := t.memberships[(id, principal)].status;
      if status != MemberActive && status != MemberPending then Some(OrganizationMembershipNotJoinable) else None
  }

  function Join(t: Tenancy, id: OrganizationId, principal: PrincipalId): (r: (Tenancy, Result<Membership>)) {
    var error := JoinError(t, id, principal);
    if error.Some? then
      (t, Err(error.value))
    else
      var joined := t.memberships[(id, principal)].(status := MemberActive);
      (t.(memberships := t.memberships[(id, principal) := joined]), Ok(joined))
  }

  /** The read-only join of `get_active_organization_membership`. */
  function ActiveMembership(t: Tenancy, id: OrganizationId, principal: PrincipalId): (r: Option<Membership>) {
    if && (id, principal) in t.memberships
       && id in t.organizations
       && principal in t.principals
       && t.organizations[id].status == OrgActive
       && t.memberships[(id, principal)].status == MemberActive
       && t.principals[principal].active
       && (|| principal.kind != UserKind
           || (&& principal.refId in t.users
               && t.users[principal.refId].active
               && (t.users[principal.refId].userClass != ExternalCustomer
                   || t.organizations[id].kind == CustomerOrg)))
    then Some(t.memberships[(id, principal)])
    else None
  }

  predicate HasPlatformRole(rbac: RoleTables, user: UserId) {
    || (exists role | role in rbac.roles :: (user, role) in rbac.ofUser && rbac.roles[role].scope == PlatformScope)
    || (exists role | role in rbac.roles ::
          (UserPrincipal(user), role) in rbac.ofPrincipal && rbac.roles[role].scope == PlatformScope)
  }

  /** `Ok(None)` when the account does not exist. */
  function Promote(t: Tenancy, rbac: RoleTables, user: UserId)
    : (r: (Tenancy, Result<Option<User>>))
  {
    if user !in t.users then
      (t, Ok(None))
    else if t.users[user].userClass == ExternalCustomer && HasPlatformRole(rbac, user) then
      (t, Err(CannotPromoteUserWithExistingPlatformRoles))
    else if INTERNAL_ORGANIZATION !in t.organizations then
      (t, Err(ConstraintViolated))
    else
      var promoted := t.users[user].(userClass := InternalEmployee);
      var principal := UserPrincipal(user);
      (t.(users := t.users[user := promoted],
          principals := t.principals[principal := Principal(promoted.active)],
          memberships := t.memberships[(INTERNAL_ORGANIZATION, principal)
                                       := Membership(MemberActive, RoleOwner)]),
       Ok(Some(promoted)))
  }
}
