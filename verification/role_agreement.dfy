/** Platform roles are stored twice. The copies agree over a run exactly as long as no repair inserts
  * a row that was revoked after it was read; while they do, so do the checks that read them. */
module RoleAgreement {
  import opened Schema
  import opened RefreshSession
  import opened Organizations
  import opened Users
  import opened PlatformRoles
  import opened AccountProofs
  import opened World
  import opened RoleSoundness

  /** Every binding of a user principal has its twin in `user_roles`. */
  ghost predicate Twinned(rbac: RoleTables) {
    forall b | b in rbac.ofPrincipal && b.0.kind == UserKind :: (b.0.refId, b.1) in rbac.ofUser
  }

  /** `user_roles` are the `principal_roles` of user principals; every binding is of a platform role
    * to an existing holder; only employees hold any. */
  ghost predicate RolesAgree(t: Tenancy, rbac: RoleTables) {
    RolesSound(t, rbac) && Twinned(rbac)
  }

  /** The repair, when it inserts, finds every row it read still in `user_roles`. */
  ghost predicate SyncBacked(db: DB, user: UserId, rows: set<RoleId>) {
    SyncInserts(db.tenancy, db.rbac, user, rows) ==> forall role | role in rows :: (user, role) in db.rbac.ofUser
  }

  ghost predicate BackedStep(db: DB, op: Op) {
    match op
    case OnRole(SyncRoles(user, rows)) => SyncBacked(db, user, rows)
    case _ => true
  }

  lemma SyncTwinsIffBacked(db: DB, user: UserId, rows: set<RoleId>)
    requires Twinned(db.rbac)
    ensures Twinned(InsertSynced(db.tenancy, db.rbac, user, rows)) <==> SyncBacked(db, user, rows)
  {
    var after := InsertSynced(db.tenancy, db.rbac, user, rows);
    if Twinned(after) && SyncInserts(db.tenancy, db.rbac, user, rows) {
      forall role | role in rows
        ensures (user, role) in db.rbac.ofUser
      {
        var b := (UserPrincipal(user), role);
        assert b in after.ofPrincipal && (b.0.refId, b.1) in after.ofUser;
      }
    }
  }

  /** A repair that nothing disturbs finds nothing to add while the copies agree. */
  lemma SyncIsIdle(t: Tenancy, rbac: RoleTables, user: UserId)
    requires RolesAgree(t, rbac)
    ensures InsertSynced(t, rbac, user, SyncRows(t, rbac, user)) == rbac
  {
    var rows := SyncRows(t, rbac, user);
    var added := set role | role in rows :: (UserPrincipal(user), role);
    forall b | b in added
      ensures b in rbac.ofPrincipal
    {
      assert (user, b.1) in rbac.ofUser;
    }
    assert rbac.ofPrincipal + added == rbac.ofPrincipal;
  }

  lemma BindTwins(rbac: RoleTables, user: UserId, roleIds: seq<RoleId>)
    requires Twinned(rbac)
    ensures Twinned(Bind(rbac, user, roleIds))
  {
  }

  lemma UnbindTwins(rbac: RoleTables, user: UserId, role: RoleId)
    requires Twinned(rbac)
    ensures Twinned(Unbind(rbac, user, role))
  {
  }

  lemma RoleOpTwins(db: DB, op: RoleOp)
    requires Twinned(db.rbac)
    ensures Twinned(ApplyRole(db, op).rbac) <==> BackedStep(db, OnRole(op))
  {
    hide Bind, Unbind, InsertSynced, SyncBacked, FirstRoleError;
    var rbac := db.rbac;
    match op
    case AssignBatch(user, roles) => BindTwins(rbac, user, roles);
    case RevokeUserRole(user, role) => UnbindTwins(rbac, user, role);
    case AssignPrincipal(principal, role) => BindTwins(rbac, principal.refId, [role]);
    case RevokePrincipalRole(principal, role) => UnbindTwins(rbac, principal.refId, role);
    case SyncRoles(user, rows) => SyncTwinsIffBacked(db, user, rows);
    case _ =>
  }

  lemma UserOpTwins(db: DB, now: Time, op: UserOp)
    requires Twinned(db.rbac)
    ensures Twinned(ApplyUser(db, now, op).rbac)
  {
    hide Bind, FirstRoleError, RevokeUserSessions, WithoutPrincipalSessions, WithoutProofsOf, NameOrEmailTaken,
         ProofsAfterUpdate, SessionsAfterUpdate, HasPlatformRole;
    match op
    case ProvisionUser(user, _, roles, _) => BindTwins(db.rbac, user, roles);
    case _ =>
  }

  lemma TwinStep(w: World, now: Time, op: Op)
    requires SoundIn(w) && Twinned(w.db.rbac)
    ensures Twinned(Apply(w, now, op).rbac) <==> BackedStep(w.db, op)
  {
    hide Twinned, RolesSound, ReadsSound, SyncBacked, ApplySession, ApplyTenant, ApplyUser, ApplyRole, ApplyCode,
         ApplyProof;
    match op
    case OnTenant(o) => TenantOpSound(w.db, now, o);
    case OnUser(o) => UserOpTwins(w.db, now, o);
    case OnRole(o) => RoleOpTwins(w.db, o);
    case OnProof(o) => ProofOpSound(w.db, now, o);
    case _ =>
  }

  lemma NothingBoundTwins()
    ensures Twinned(EMPTY_DB.rbac)
  {
  }

  /** Over a whole run the copies agree in every state exactly when every repair, at its insert,
    * found the rows it had read still there. */
  lemma {:induction false} RolesAgreeIffSyncsBacked(states: seq<World>, steps: seq<Step>, n: nat)
    requires IsRun(states, steps) && n < |states|
    ensures (forall i | 0 <= i <= n :: RolesAgree(states[i].db.tenancy, states[i].db.rbac))
            <==> (forall i | 0 <= i < n :: BackedStep(states[i].db, steps[i].op))
  {
    hide Apply, NextHistory, Enabled, RolesSound, ReadsSound, Twinned, BackedStep;
    SoundInvariant(states, steps, n);
    if n == 0 {
      NothingBoundTwins();
    } else {
      RolesAgreeIffSyncsBacked(states, steps, n - 1);
      SoundInvariant(states, steps, n - 1);
      if Twinned(states[n - 1].db.rbac) {
        TwinStep(states[n - 1], steps[n - 1].now, steps[n - 1].op);
      }
      assert (forall i | 0 <= i <= n :: RolesAgree(states[i].db.tenancy, states[i].db.rbac))
             <==> (forall i | 0 <= i <= n - 1 :: RolesAgree(states[i].db.tenancy, states[i].db.rbac))
                  && RolesAgree(states[n].db.tenancy, states[n].db.rbac);
      assert (forall i | 0 <= i < n :: BackedStep(states[i].db, steps[i].op))
             <==> (forall i | 0 <= i < n - 1 :: BackedStep(states[i].db, steps[i].op))
                  && BackedStep(states[n - 1].db, steps[n - 1].op);
    }
  }

  lemma UserPermissionIsPrincipals(t: Tenancy, rbac: RoleTables, user: UserId, permission: Text)
    requires RolesSound(t, rbac) && UserHasPermission(t, rbac, user, permission)
    ensures PrincipalHasPermission(t, rbac, UserPrincipal(user), permission)
  {
    var b, g :| b in rbac.ofUser && g in rbac.permissions && g.0 == b.1 && b.0 == user
                && (g.1 == permission || g.1 == WILDCARD);
    var twin := (UserPrincipal(user), b.1);
    assert twin in rbac.ofPrincipal && twin.0 == UserPrincipal(user) && twin.1 == b.1;
  }

  lemma PrincipalPermissionIsUsers(t: Tenancy, rbac: RoleTables, user: UserId, permission: Text)
    requires RolesAgree(t, rbac) && PrincipalHasPermission(t, rbac, UserPrincipal(user), permission)
    ensures UserHasPermission(t, rbac, user, permission)
  {
    var b, g :| b in rbac.ofPrincipal && g in rbac.permissions && g.0 == b.1 && b.0 == UserPrincipal(user)
                && (g.1 == permission || g.1 == WILDCARD);
    var twin := (user, b.1);
    assert twin in rbac.ofUser && twin.0 == user && twin.1 == b.1;
  }

  lemma NoCustomerHoldsARole(t: Tenancy, rbac: RoleTables, user: UserId)
    requires RolesAgree(t, rbac) && user in t.users && t.users[user].userClass == ExternalCustomer
    ensures !HasPlatformRole(rbac, user)
  {
  }

  /** In every state of every run a permission of the user is one of the principal. As long as the
    * repairs were backed the two checks give one answer for every user and permission, and no
    * external customer holds a platform role. */
  lemma OnePermissionAnswer(states: seq<World>, steps: seq<Step>, i: nat, user: UserId, permission: Text)
    requires IsRun(states, steps) && i < |states|
    ensures var db := states[i].db;
            && (UserHasPermission(db.tenancy, db.rbac, user, permission)
                ==> PrincipalHasPermission(db.tenancy, db.rbac, UserPrincipal(user), permission))
            && ((forall k | 0 <= k < i :: BackedStep(states[k].db, steps[k].op)) ==>
                  && (UserHasPermission(db.tenancy, db.rbac, user, permission)
                      <==> PrincipalHasPermission(db.tenancy, db.rbac, UserPrincipal(user), permission))
                  && (user in db.tenancy.users && db.tenancy.users[user].userClass == ExternalCustomer
                      ==> !HasPlatformRole(db.rbac, user)))
  {
    hide Next, Enabled, RolesSound, ReadsSound, Twinned, BackedStep, UserHasPermission, PrincipalHasPermission,
         HasPlatformRole;
    var t, rbac := states[i].db.tenancy, states[i].db.rbac;
    SoundInvariant(states, steps, i);
    RolesAgreeIffSyncsBacked(states, steps, i);
    if UserHasPermission(t, rbac, user, permission) {
      UserPermissionIsPrincipals(t, rbac, user, permission);
    }
    if RolesAgree(t, rbac) {
      if PrincipalHasPermission(t, rbac, UserPrincipal(user), permission) {
        PrincipalPermissionIsUsers(t, rbac, user, permission);
      }
      if user in t.users && t.users[user].userClass == ExternalCustomer {
        NoCustomerHoldsARole(t, rbac, user);
      }
    }
  }
}
