/** What always holds of the two role tables, whatever unlocked reads are in flight. */
module RoleSoundness {
  import opened Schema
  import opened RefreshSession
  import opened Organizations
  import opened Users
  import opened PlatformRoles
  import opened AccountProofs
  import opened World

  /** Every binding is of a platform role to an existing holder; every row of `user_roles` has its
    * twin in `principal_roles`, and its account is an employee. */
  ghost predicate RolesSound(t: Tenancy, rbac: RoleTables) {
    && (forall b | b in rbac.ofUser ::
          && (UserPrincipal(b.0), b.1) in rbac.ofPrincipal
          && b.0 in t.users
          && t.users[b.0].userClass == InternalEmployee)
    && (forall b | b in rbac.ofPrincipal ::
          b.0 in t.principals && b.1 in rbac.roles && rbac.roles[b.1].scope == PlatformScope)
  }

  /** A role row seen earlier is of the scope it still has: scopes are not written, and the id of
    * a deleted role is not used again. */
  ghost predicate TableSound(roles: map<RoleId, Role>, ids: set<RoleId>, seen: map<RoleId, Role>) {
    forall role | role in seen :: role in ids && (role in roles ==> roles[role].scope == seen[role].scope)
  }

  ghost predicate SyncSound(roles: map<RoleId, Role>, ids: set<RoleId>, rows: set<RoleId>) {
    forall role | role in rows :: role in ids && (role in roles ==> roles[role].scope == PlatformScope)
  }

  ghost predicate ReadsSound(roles: map<RoleId, Role>, inFlight: Reads) {
    && (forall role | role in roles :: role in inFlight.roleIds)
    && (forall seen | seen in inFlight.roleTables :: TableSound(roles, inFlight.roleIds, seen))
    && (forall s | s in inFlight.syncs :: SyncSound(roles, inFlight.roleIds, s.1))
  }

  ghost predicate SoundIn(w: World) {
    RolesSound(w.db.tenancy, w.db.rbac) && ReadsSound(w.db.rbac.roles, w.hist.inFlight)
  }

  /** No account or principal disappears and no employee becomes a customer. */
  ghost predicate AccountsKept(before: Tenancy, after: Tenancy) {
    && (forall p | p in before.principals :: p in after.principals)
    && (forall u | u in before.users ::
          u in after.users
          && (before.users[u].userClass == InternalEmployee ==> after.users[u].userClass == InternalEmployee))
  }

  lemma KeptAccountsSound(before: Tenancy, after: Tenancy, rbac: RoleTables)
    requires RolesSound(before, rbac) && AccountsKept(before, after)
    ensures RolesSound(after, rbac)
  {
    forall b | b in rbac.ofPrincipal
      ensures b.0 in after.principals
    {
      assert b.0 in before.principals;
    }
  }

  lemma BoundUserHasRole(t: Tenancy, rbac: RoleTables, b: (UserId, RoleId))
    requires RolesSound(t, rbac) && b in rbac.ofUser
    ensures HasPlatformRole(rbac, b.0)
  {
    var role := b.1;
    assert (UserPrincipal(b.0), role) in rbac.ofPrincipal;
    assert role in rbac.roles;
    assert (b.0, role) in rbac.ofUser && rbac.roles[role].scope == PlatformScope;
  }

  /** Whoever has a binding holds a platform role. */
  lemma BoundHasRole(t: Tenancy, rbac: RoleTables, b: (PrincipalId, RoleId))
    requires RolesSound(t, rbac) && b in rbac.ofPrincipal && b.0.kind == UserKind
    ensures HasPlatformRole(rbac, b.0.refId)
  {
    assert b.0 == UserPrincipal(b.0.refId);
    var role := b.1;
    assert role in rbac.roles && (UserPrincipal(b.0.refId), role) in rbac.ofPrincipal
           && rbac.roles[role].scope == PlatformScope;
  }

  /** A class change is refused while any platform role is bound. */
  lemma ClassChangeSound(t: Tenancy, rbac: RoleTables, user: UserId, userClass: UserClass)
    requires RolesSound(t, rbac)
    ensures RolesSound(SetUserClass(t, rbac, user, userClass).0, rbac)
  {
    hide HasPlatformRole;
    forall b | b in rbac.ofUser
      ensures HasPlatformRole(rbac, b.0)
    {
      BoundUserHasRole(t, rbac, b);
    }
  }

  lemma PromotionKeepsAccounts(t: Tenancy, rbac: RoleTables, user: UserId)
    ensures AccountsKept(t, Promote(t, rbac, user).0)
  {
  }

  /** A list of roles without a refusal: each exists and may be given to the account. */
  lemma {:induction false} NoErrorIffAll(roles: map<RoleId, Role>, roleIds: seq<RoleId>, userClass: UserClass,
                                         missing: Error)
    ensures FirstRoleError(roles, roleIds, userClass, missing).None?
            <==> forall role | role in roleIds :: role in roles && UserRoleError(roles[role], userClass).None?
  {
    if roleIds != [] {
      NoErrorIffAll(roles, roleIds[..|roleIds| - 1], userClass, missing);
      assert roleIds == roleIds[..|roleIds| - 1] + [roleIds[|roleIds| - 1]];
    }
  }

  lemma BindSound(t: Tenancy, rbac: RoleTables, user: UserId, roleIds: seq<RoleId>)
    requires RolesSound(t, rbac) && user in t.users && UserPrincipal(user) in t.principals
    requires forall role | role in roleIds ::
               && role in rbac.roles
               && rbac.roles[role].scope == PlatformScope
               && t.users[user].userClass == InternalEmployee
    ensures RolesSound(t, Bind(rbac, user, roleIds))
  {
  }

  lemma UnbindSound(t: Tenancy, rbac: RoleTables, user: UserId, role: RoleId)
    requires RolesSound(t, rbac)
    ensures RolesSound(t, Unbind(rbac, user, role))
  {
  }

  lemma DeleteUserSound(db: DB, now: Time, user: UserId)
    requires RolesSound(db.tenancy, db.rbac)
    ensures var after := DeleteUser(db, now, user).0; RolesSound(after.tenancy, after.rbac)
  {
    hide RevokeUserSessions, WithoutPrincipalSessions, WithoutProofsOf;
  }

  lemma DeleteRoleSound(t: Tenancy, rbac: RoleTables, role: RoleId)
    requires RolesSound(t, rbac)
    ensures RolesSound(t, DeleteRole(rbac, role).0)
  {
  }

  lemma AssignBatchSound(t: Tenancy, rbac: RoleTables, user: UserId, roleIds: seq<RoleId>)
    requires RolesSound(t, rbac)
    ensures RolesSound(t, AssignRolesToUser(t, rbac, user, roleIds).0)
  {
    hide RolesSound, Bind;
    if roleIds != [] && AssignRolesToUser(t, rbac, user, roleIds).1.Ok? {
      NoErrorIffAll(rbac.roles, roleIds, t.users[user].userClass, RoleNotFound);
      BindSound(t, rbac, user, roleIds);
    }
  }

  lemma AssignPrincipalSound(t: Tenancy, rbac: RoleTables, principal: PrincipalId, role: RoleId)
    requires RolesSound(t, rbac)
    ensures RolesSound(t, AssignRoleToPrincipal(t, rbac, principal, role).0)
  {
    hide Bind;
    if AssignRoleToPrincipal(t, rbac, principal, role).1.Ok? && principal.kind == UserKind {
      assert principal == UserPrincipal(principal.refId);
      BindSound(t, rbac, principal.refId, [role]);
    }
  }

  lemma RevokePrincipalSound(t: Tenancy, rbac: RoleTables, principal: PrincipalId, role: RoleId)
    requires RolesSound(t, rbac)
    ensures RolesSound(t, RevokeRoleFromPrincipal(t, rbac, principal, role).0)
  {
    if principal.kind == UserKind {
      UnbindSound(t, rbac, principal.refId, role);
    }
  }

  lemma SyncInsertSound(t: Tenancy, rbac: RoleTables, inFlight: Reads, user: UserId, rows: set<RoleId>)
    requires RolesSound(t, rbac) && ReadsSound(rbac.roles, inFlight) && (user, rows) in inFlight.syncs
    ensures RolesSound(t, InsertSynced(t, rbac, user, rows))
  {
    assert SyncSound(rbac.roles, inFlight.roleIds, (user, rows).1);
  }

  lemma RoleRowSound(t: Tenancy, rbac: RoleTables, role: RoleId, row: Role)
    requires RolesSound(t, rbac) && (role in rbac.roles ==> row.scope == rbac.roles[role].scope)
    ensures RolesSound(t, rbac.(roles := rbac.roles[role := row]))
  {
  }

  lemma SameBindingsSound(t: Tenancy, rbac: RoleTables, after: RoleTables)
    requires RolesSound(t, rbac)
    requires after.ofUser == rbac.ofUser && after.ofPrincipal == rbac.ofPrincipal && after.roles == rbac.roles
    ensures RolesSound(t, after)
  {
  }

  lemma RoleOpSound(w: World, now: Time, op: RoleOp)
    requires SoundIn(w) && Enabled(w, now, OnRole(op))
    ensures var after := ApplyRole(w.db, op); RolesSound(after.tenancy, after.rbac)
  {
    hide RolesSound, AssignRolesToUser, AssignRoleToPrincipal, RevokeRoleFromPrincipal, InsertSynced, DeleteRole,
         Unbind, ReadsSound;
    var t, rbac := w.db.tenancy, w.db.rbac;
    match op
    case PutPrincipal(principal, active) => KeptAccountsSound(t, UpsertPrincipal(t, principal, active), rbac);
    case NewRole(role, row) =>
      if role !in rbac.roles {
        RoleRowSound(t, rbac, role, row);
      }
    case RemoveRole(role) => DeleteRoleSound(t, rbac, role);
    case ChangeAssignable(role, assignableTo) =>
      if role in rbac.roles {
        RoleRowSound(t, rbac, role, rbac.roles[role].(assignableTo := assignableTo));
      }
    case Grant(role, permission) => SameBindingsSound(t, rbac, GrantPermission(rbac, role, permission));
    case Withdraw(role, permission) => SameBindingsSound(t, rbac, WithdrawPermission(rbac, role, permission));
    case AssignBatch(user, roles) => AssignBatchSound(t, rbac, user, roles);
    case RevokeUserRole(user, role) => UnbindSound(t, rbac, user, role);
    case AssignPrincipal(principal, role) => AssignPrincipalSound(t, rbac, principal, role);
    case RevokePrincipalRole(principal, role) => RevokePrincipalSound(t, rbac, principal, role);
    case ReadRoles =>
    case ReadForSync(_) =>
    case SyncRoles(user, rows) => SyncInsertSound(t, rbac, w.hist.inFlight, user, rows);
  }

  lemma ProvisionSound(db: DB, inFlight: Reads, id: UserId, row: User, roleIds: seq<RoleId>, seen: map<RoleId, Role>)
    requires RolesSound(db.tenancy, db.rbac) && ReadsSound(db.rbac.roles, inFlight) && seen in inFlight.roleTables
    ensures var after := Provision(db, id, row, roleIds, seen).0; RolesSound(after.tenancy, after.rbac)
  {
    hide RolesSound, Bind, NameOrEmailTaken;
    if Provision(db, id, row, roleIds, seen).1.Ok? {
      var t := db.tenancy;
      var after := t.(users := t.users[id := row], principals := t.principals[UserPrincipal(id) := Principal(true)]);
      KeptAccountsSound(t, after, db.rbac);
      NoErrorIffAll(seen, roleIds, row.userClass, RoleNotBound);
      assert TableSound(db.rbac.roles, inFlight.roleIds, seen);
      BindSound(after, db.rbac, id, roleIds);
    }
  }

  lemma UserOpSound(w: World, now: Time, op: UserOp)
    requires SoundIn(w) && Enabled(w, now, OnUser(op))
    ensures var after := ApplyUser(w.db, now, op); RolesSound(after.tenancy, after.rbac)
  {
    hide RolesSound, ReadsSound, Provision, SetUserClass, DeleteUser, NameOrEmailTaken, RevokeUserSessions,
         ProofsAfterUpdate, SessionsAfterUpdate;
    var db := w.db;
    match op
    case ProvisionUser(user, row, roles, seen) => ProvisionSound(db, w.hist.inFlight, user, row, roles, seen);
    case ChangeClass(user, userClass) => ClassChangeSound(db.tenancy, db.rbac, user, userClass);
    case RemoveUser(user) => DeleteUserSound(db, now, user);
    case _ => KeptAccountsSound(db.tenancy, ApplyUser(db, now, op).tenancy, db.rbac);
  }

  lemma TenantOpSound(db: DB, now: Time, op: TenantOp)
    requires RolesSound(db.tenancy, db.rbac)
    ensures var after := ApplyTenant(db, now, op); RolesSound(after.tenancy, after.rbac) && after.rbac == db.rbac
  {
    hide RolesSound, RevokeWhere, LockManagerContext, MembershipError, ManagerWriteError, EndMemberSessions,
         DropPendingCodesOf, DropPendingCodesOfMember, Promote;
    match op
    case PromoteUser(user) =>
      PromotionKeepsAccounts(db.tenancy, db.rbac, user);
      KeptAccountsSound(db.tenancy, Promote(db.tenancy, db.rbac, user).0, db.rbac);
    case _ => KeptAccountsSound(db.tenancy, ApplyTenant(db, now, op).tenancy, db.rbac);
  }

  lemma ProofOpSound(db: DB, now: Time, op: ProofOp)
    requires RolesSound(db.tenancy, db.rbac)
    ensures var after := ApplyProof(db, now, op); RolesSound(after.tenancy, after.rbac) && after.rbac == db.rbac
  {
    hide RolesSound, RevokeUserSessions, RevokePendingProofs, RevokeIfPending;
    KeptAccountsSound(db.tenancy, ApplyProof(db, now, op).tenancy, db.rbac);
  }

  lemma TablesSound(w: World, now: Time, op: Op)
    requires SoundIn(w) && Enabled(w, now, op)
    ensures var after := Apply(w, now, op); RolesSound(after.tenancy, after.rbac)
  {
    hide RolesSound, ReadsSound, SoundIn, ApplySession, ApplyTenant, ApplyUser, ApplyRole, ApplyCode, ApplyProof,
         Enabled;
    SoundParts(w);
    match op
    case OnSession(_) =>
    case OnTenant(o) => TenantOpSound(w.db, now, o);
    case OnUser(o) => UserOpSound(w, now, o);
    case OnRole(o) => RoleOpSound(w, now, o);
    case OnCode(_) =>
    case OnProof(o) => ProofOpSound(w.db, now, o);
  }

  lemma SoundParts(w: World)
    requires SoundIn(w)
    ensures RolesSound(w.db.tenancy, w.db.rbac) && ReadsSound(w.db.rbac.roles, w.hist.inFlight)
  {
  }

  /** Roles are only added under new ids, removed, or changed in `assignable_to`. */
  ghost predicate RolesAdvance(before: map<RoleId, Role>, after: map<RoleId, Role>) {
    forall role | role in after :: role in before && after[role].scope == before[role].scope
  }

  lemma AdvancedReadsSound(before: map<RoleId, Role>, after: map<RoleId, Role>, inFlight: Reads)
    requires ReadsSound(before, inFlight) && RolesAdvance(before, after)
    ensures ReadsSound(after, inFlight)
  {
    forall seen | seen in inFlight.roleTables
      ensures TableSound(after, inFlight.roleIds, seen)
    {
      assert TableSound(before, inFlight.roleIds, seen);
    }
    forall s | s in inFlight.syncs
      ensures SyncSound(after, inFlight.roleIds, s.1)
    {
      assert SyncSound(before, inFlight.roleIds, s.1);
    }
  }

  lemma NewRoleReadsSound(rbac: RoleTables, inFlight: Reads, role: RoleId, row: Role)
    requires ReadsSound(rbac.roles, inFlight) && role !in inFlight.roleIds
    ensures ReadsSound(CreateRole(rbac, role, row).0.roles, inFlight.(roleIds := inFlight.roleIds + {role}))
  {
    var roles, ids := CreateRole(rbac, role, row).0.roles, inFlight.roleIds + {role};
    forall seen | seen in inFlight.roleTables
      ensures TableSound(roles, ids, seen)
    {
      assert TableSound(rbac.roles, inFlight.roleIds, seen);
    }
    forall s | s in inFlight.syncs
      ensures SyncSound(roles, ids, s.1)
    {
      assert SyncSound(rbac.roles, inFlight.roleIds, s.1);
    }
  }

  lemma ReadingSound(db: DB, inFlight: Reads, op: RoleOp)
    requires ReadsSound(db.rbac.roles, inFlight) && (op.ReadRoles? || op.ReadForSync?)
    ensures ReadsSound(db.rbac.roles, RoleReadsAfter(db, inFlight, op))
  {
    var roles := db.rbac.roles;
    match op
    case ReadRoles => assert TableSound(roles, inFlight.roleIds, roles);
    case ReadForSync(user) => assert SyncSound(roles, inFlight.roleIds, SyncRows(db.tenancy, db.rbac, user));
  }

  lemma RoleOpReadsSound(w: World, now: Time, op: RoleOp)
    requires ReadsSound(w.db.rbac.roles, w.hist.inFlight) && Enabled(w, now, OnRole(op))
    ensures ReadsSound(ApplyRole(w.db, op).rbac.roles, RoleReadsAfter(w.db, w.hist.inFlight, op))
  {
    hide ReadsSound, RolesAdvance, AssignRolesToUser, AssignRoleToPrincipal, RevokeRoleFromPrincipal, InsertSynced,
         DeleteRole, Unbind;
    match op
    case NewRole(role, row) => NewRoleReadsSound(w.db.rbac, w.hist.inFlight, role, row);
    case ReadRoles => ReadingSound(w.db, w.hist.inFlight, op);
    case ReadForSync(_) => ReadingSound(w.db, w.hist.inFlight, op);
    case _ =>
      RoleOpAdvances(w.db, op);
      AdvancedReadsSound(w.db.rbac.roles, ApplyRole(w.db, op).rbac.roles, w.hist.inFlight);
  }

  lemma RoleOpAdvances(db: DB, op: RoleOp)
    requires !op.NewRole?
    ensures RolesAdvance(db.rbac.roles, ApplyRole(db, op).rbac.roles)
  {
    hide FirstRoleError;
  }

  lemma UserOpKeepsRoles(db: DB, now: Time, op: UserOp)
    ensures ApplyUser(db, now, op).rbac.roles == db.rbac.roles
  {
    hide RevokeUserSessions, WithoutPrincipalSessions, WithoutProofsOf, NameOrEmailTaken, ProofsAfterUpdate,
         SessionsAfterUpdate, HasPlatformRole, FirstRoleError;
  }

  lemma ReadsStep(w: World, now: Time, op: Op)
    requires SoundIn(w) && Enabled(w, now, op)
    ensures ReadsSound(Apply(w, now, op).rbac.roles, NextHistory(w, now, op).inFlight)
  {
    hide RolesSound, ApplySession, ApplyTenant, ApplyUser, ApplyRole, ApplyCode, ApplyProof, RotationsAfter,
         HandlersAfter, RoleReadsAfter;
    match op
    case OnTenant(o) => TenantOpSound(w.db, now, o);
    case OnUser(o) => UserOpKeepsRoles(w.db, now, o);
    case OnRole(o) => RoleOpReadsSound(w, now, o);
    case OnProof(o) => ProofOpSound(w.db, now, o);
    case _ =>
  }

  /** In every state of every run the role tables are sound, and so is every read in flight. */
  lemma {:induction false} SoundInvariant(states: seq<World>, steps: seq<Step>, i: nat)
    requires IsRun(states, steps) && i < |states|
    ensures SoundIn(states[i])
  {
    hide Apply, NextHistory, Enabled;
    if i > 0 {
      SoundInvariant(states, steps, i - 1);
      TablesSound(states[i - 1], steps[i - 1].now, steps[i - 1].op);
      ReadsStep(states[i - 1], steps[i - 1].now, steps[i - 1].op);
    }
  }

  lemma ReachableIsSound(w: World)
    requires Reachable(w)
    ensures SoundIn(w)
  {
    hide Next, Enabled, SoundIn;
    var states, steps :| IsRun(states, steps) && states[|states| - 1] == w;
    SoundInvariant(states, steps, |states| - 1);
  }
}
