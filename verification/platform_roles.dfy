/** Platform-role transactions (src/db/rbac.rs and src/db/principal.rs). */
module PlatformRoles {
  import opened Schema

  predicate Fits(assignableTo: Assignable, kind: PrincipalKind) {
    assignableTo == AssignableToAll || assignableTo == AssignableTo(kind)
  }

  /** `ensure_platform_role_assignment`. */
  function AssignmentError(role: Role, kind: PrincipalKind): Option<Error> {
    if role.scope != PlatformScope then Some(OrganizationRoleRequiresOrganizationBinding)
    else if !Fits(role.assignableTo, kind) then Some(RoleNotAssignable)
    else None
  }

  /** `ensure_user_can_receive_platform_role`. */
  function UserRoleError(role: Role, userClass: UserClass): Option<Error> {
    var error := AssignmentError(role, UserKind);
    if error.Some? then error
    else if userClass != InternalEmployee then Some(ExternalCustomerCannotReceivePlatformRole)
    else None
  }

  /** The first refusal met while checking a list of roles, an unknown role being `missing`. */
  function FirstRoleError(roles: map<RoleId, Role>, roleIds: seq<RoleId>, userClass: UserClass,
                          missing: Error): Option<Error>
  {
    if roleIds == [] then None
    else
      var before := FirstRoleError(roles, roleIds[..|roleIds| - 1], userClass, missing);
      var last := roleIds[|roleIds| - 1];
      if before.Some? then before
      else if last !in roles then Some(missing)
      else UserRoleError(roles[last], userClass)
  }

  /** `ensure_user_principal` reads the account and upserts its principal in two statements, so
    * the flag written may be stale: the step takes any. */
  function UpsertPrincipal(t: Tenancy, principal: PrincipalId, active: bool): (r: Tenancy) {
    t.(principals := t.principals[principal := Principal(active)])
  }

  function CreateRole(rbac: RoleTables, id: RoleId, role: Role): (r: (RoleTables, Result<Role>)) {
    if id in rbac.roles then (rbac, Err(ConstraintViolated))
    else (rbac.(roles := rbac.roles[id := role]), Ok(role))
  }

  /** Bindings and grants of a role go with it (ON DELETE CASCADE). */
  function DeleteRole(rbac: RoleTables, id: RoleId): (r: (RoleTables, bool)) {
    (RoleTables(rbac.roles - {id},
                (set g | g in rbac.permissions && g.0 != id),
                (set b | b in rbac.ofUser && b.1 != id),
                (set b | b in rbac.ofPrincipal && b.1 != id)),
     id in rbac.roles)
  }

  /** `ensure_role_assignable_to_update_is_compatible`: no binding would be left unfitting. */
  predicate UpdateCompatible(rbac: RoleTables, principals: map<PrincipalId, Principal>, id: RoleId,
                             assignableTo: Assignable)
  {
    || assignableTo == AssignableToAll
    || (&& (assignableTo != AssignableTo(UserKind) ==> forall b | b in rbac.ofUser :: b.1 != id)
        && (forall b | b in rbac.ofPrincipal && b.1 == id && b.0 in principals ::
              AssignableTo(b.0.kind) == assignableTo))
  }

  /** The UPDATE of `update_role` and `restore_role`; the check above ran in an earlier statement. */
  function WriteAssignableTo(rbac: RoleTables, id: RoleId, assignableTo: Assignable): (r: RoleTables) {
    if id in rbac.roles
    then rbac.(roles := rbac.roles[id := rbac.roles[id].(assignableTo := assignableTo)])
    else rbac
  }

  function GrantPermission(rbac: RoleTables, role: RoleId, permission: Text): (r: RoleTables) {
    if role in rbac.roles then rbac.(permissions := rbac.permissions + {(role, permission)}) else rbac
  }

  function WithdrawPermission(rbac: RoleTables, role: RoleId, permission: Text): (r: RoleTables) {
    rbac.(permissions := rbac.permissions - {(role, permission)})
  }

  /** The paired INSERTs into `user_roles` and `principal_roles`. */
  function Bind(rbac: RoleTables, user: UserId, roleIds: seq<RoleId>): RoleTables {
    rbac.(ofUser := rbac.ofUser + (set role | role in roleIds :: (user, role)),
          ofPrincipal := rbac.ofPrincipal + (set role | role in roleIds :: (UserPrincipal(user), role)))
  }

  /** The paired DELETEs. */
  function Unbind(rbac: RoleTables, user: UserId, role: RoleId): RoleTables {
    rbac.(ofUser := rbac.ofUser - {(user, role)}, ofPrincipal := rbac.ofPrincipal - {(UserPrincipal(user), role)})
  }

  /** The locked part of `assign_roles_to_user_batch`: every role of the batch, or none. */
  function AssignRolesToUser(t: Tenancy, rbac: RoleTables, user: UserId, roleIds: seq<RoleId>)
    : (r: (RoleTables, Result<()>))
  {
    if roleIds == [] then
      (rbac, Ok(()))
    else if user !in t.users then
      (rbac, Err(UserNotFound))
    else
      var error := FirstRoleError(rbac.roles, roleIds, t.users[user].userClass, RoleNotFound);
      if error.Some? then (rbac, Err(error.value))
      else if UserPrincipal(user) !in t.principals then (rbac, Err(ConstraintViolated))
      else (Bind(rbac, user, roleIds), Ok(()))
  }

  function RevokeRoleFromUser(t: Tenancy, rbac: RoleTables, user: UserId, role: RoleId): (r: (RoleTables, bool)) {
    if user !in t.users then
      (rbac, false)
    else
      (Unbind(rbac, user, role), (user, role) in rbac.ofUser || (UserPrincipal(user), role) in rbac.ofPrincipal)
  }

  function PrincipalRoleError(t: Tenancy, role: Role, principal: PrincipalId): Option<Error> {
    var error := AssignmentError(role, principal.kind);
    if error.Some? || principal.kind != UserKind then error
    else if principal.refId !in t.users then Some(UserNotFound)
    else UserRoleError(role, t.users[principal.refId].userClass)
  }

  function AssignRoleToPrincipal(t: Tenancy, rbac: RoleTables, principal: PrincipalId, role: RoleId)
    : (r: (RoleTables, Result<()>))
  {
    if principal !in t.principals || role !in rbac.roles then
      (rbac, Err(PrincipalOrRoleNotFound))
    else
      var error := PrincipalRoleError(t, rbac.roles[role], principal);
      if error.Some? then (rbac, Err(error.value))
      else if principal.kind == UserKind then (Bind(rbac, principal.refId, [role]), Ok(()))
      else (rbac.(ofPrincipal := rbac.ofPrincipal + {(principal, role)}), Ok(()))
  }

  function RevokeRoleFromPrincipal(t: Tenancy, rbac: RoleTables, principal: PrincipalId, role: RoleId)
    : (r: (RoleTables, Result<bool>))
  {
    if principal !in t.principals then
      (rbac, Ok(false))
    else if principal.kind != UserKind then
      (rbac.(ofPrincipal := rbac.ofPrincipal - {(principal, role)}), Ok((principal, role) in rbac.ofPrincipal))
    else if principal.refId !in t.users then
      (rbac, Err(UserNotFound))
    else
      (Unbind(rbac, principal.refId, role),
       Ok((principal, role) in rbac.ofPrincipal || (principal.refId, role) in rbac.ofUser))
  }

  /** The rows that the SELECT of `sync_user_roles_to_principal` finds, after the principal was
    * ensured. */
  function SyncRows(t: Tenancy, rbac: RoleTables, user: UserId): set<RoleId> {
    if user in t.users && t.users[user].userClass == InternalEmployee
    then set role | role in rbac.roles && (user, role) in rbac.ofUser
                    && AssignmentError(rbac.roles[role], UserKind).None?
    else {}
  }

  /** The INSERT reaches the table: no foreign key refuses a row. */
  predicate SyncInserts(t: Tenancy, rbac: RoleTables, user: UserId, rows: set<RoleId>) {
    UserPrincipal(user) in t.principals && forall role | role in rows :: role in rbac.roles
  }

  /** The INSERT of the rows found. No lock holds them meanwhile, so they may be out of date. */
  function InsertSynced(t: Tenancy, rbac: RoleTables, user: UserId, rows: set<RoleId>): (r: RoleTables) {
    if SyncInserts(t, rbac, user, rows)
    then rbac.(ofPrincipal := rbac.ofPrincipal + (set role | role in rows :: (UserPrincipal(user), role)))
    else rbac
  }

  const WILDCARD: Text := 0

  /** The join of `user_has_permission` over `user_roles`. */
  predicate UserHasPermission(t: Tenancy, rbac: RoleTables, user: UserId, permission: Text) {
    exists b, g | b in rbac.ofUser && g in rbac.permissions ::
      && g.0 == b.1
      && b.0 == user
      && user in t.users
      && t.users[user].userClass == InternalEmployee
      && b.1 in rbac.roles
      && rbac.roles[b.1].scope == PlatformScope
      && (g.1 == permission || g.1 == WILDCARD)
  }

  /** The join of `principal_has_permission` over `principal_roles`. */
  predicate PrincipalHasPermission(t: Tenancy, rbac: RoleTables, principal: PrincipalId, permission: Text) {
    exists b, g | b in rbac.ofPrincipal && g in rbac.permissions ::
      && g.0 == b.1
      && b.0 == principal
      && b.1 in rbac.roles
      && rbac.roles[b.1].scope == PlatformScope
      && principal in t.principals
      && (principal.kind != UserKind
          || (principal.refId in t.users && t.users[principal.refId].userClass == InternalEmployee))
      && (g.1 == permission || g.1 == WILDCARD)
  }
}
