/** Bindings and `assignable_to`: over a run every binding fits its role exactly when every write's
  * own guard would still pass on the rows as they are at the write. */
module RoleFit {
  import opened Schema
  import opened RefreshSession
  import opened Organizations
  import opened Users
  import opened PlatformRoles
  import opened AccountProofs
  import opened World
  import opened RoleSoundness

  /** Every binding fits the role's `assignable_to`. */
  ghost predicate AllFit(rbac: RoleTables) {
    forall b | b in rbac.ofPrincipal && b.1 in rbac.roles :: Fits(rbac.roles[b.1].assignableTo, b.0.kind)
  }

  lemma BindFits(rbac: RoleTables, user: UserId, roleIds: seq<RoleId>)
    requires AllFit(rbac) && forall role | role in roleIds :: role in rbac.roles
    ensures AllFit(Bind(rbac, user, roleIds))
            <==> forall role | role in roleIds :: Fits(rbac.roles[role].assignableTo, UserKind)
  {
    var after := Bind(rbac, user, roleIds);
    if AllFit(after) {
      forall role | role in roleIds
        ensures Fits(rbac.roles[role].assignableTo, UserKind)
      {
        var b := (UserPrincipal(user), role);
        assert b in after.ofPrincipal && Fits(after.roles[b.1].assignableTo, b.0.kind);
      }
    }
  }

  /** The guard of a provisioning, on the role rows as they are when it writes. */
  ghost predicate StillAssignable(rbac: RoleTables, roleIds: seq<RoleId>, userClass: UserClass) {
    FirstRoleError(rbac.roles, roleIds, userClass, RoleNotBound).None?
  }

  /** A provisioning that writes leaves every binding fitting exactly when its guard, which passed
    * on the rows it had read, would pass again. */
  lemma ProvisionFitsIff(db: DB, inFlight: Reads, id: UserId, row: User, roleIds: seq<RoleId>, seen: map<RoleId, Role>)
    requires AllFit(db.rbac) && ReadsSound(db.rbac.roles, inFlight) && seen in inFlight.roleTables
    requires Provision(db, id, row, roleIds, seen).1.Ok?
    ensures AllFit(Provision(db, id, row, roleIds, seen).0.rbac) <==> StillAssignable(db.rbac, roleIds, row.userClass)
  {
    hide AllFit, Bind, NameOrEmailTaken, FirstRoleError;
    NoErrorIffAll(seen, roleIds, row.userClass, RoleNotBound);
    NoErrorIffAll(db.rbac.roles, roleIds, row.userClass, RoleNotBound);
    assert TableSound(db.rbac.roles, inFlight.roleIds, seen);
    BindFits(db.rbac, id, roleIds);
  }

  /** The guard of a repair, on the role rows as they are when it inserts. */
  ghost predicate SyncStillFits(t: Tenancy, rbac: RoleTables, user: UserId, rows: set<RoleId>) {
    SyncInserts(t, rbac, user, rows) ==> forall role | role in rows :: AssignmentError(rbac.roles[role], UserKind).None?
  }

  lemma SyncFitsIff(t: Tenancy, rbac: RoleTables, inFlight: Reads, user: UserId, rows: set<RoleId>)
    requires AllFit(rbac) && ReadsSound(rbac.roles, inFlight) && (user, rows) in inFlight.syncs
    ensures AllFit(InsertSynced(t, rbac, user, rows)) <==> SyncStillFits(t, rbac, user, rows)
  {
    assert SyncSound(rbac.roles, inFlight.roleIds, (user, rows).1);
    var after := InsertSynced(t, rbac, user, rows);
    if AllFit(after) && SyncInserts(t, rbac, user, rows) {
      forall role | role in rows
        ensures AssignmentError(rbac.roles[role], UserKind).None?
      {
        var b := (UserPrincipal(user), role);
        assert b in after.ofPrincipal && Fits(after.roles[b.1].assignableTo, b.0.kind);
      }
    }
  }

  /** `update_role` checks compatibility in one statement and writes in a later one. The write
    * keeps every binding fitting exactly when the check would still pass at the write. */
  lemma WriteFitsIffCompatible(t: Tenancy, rbac: RoleTables, role: RoleId, assignableTo: Assignable)
    requires RolesSound(t, rbac) && AllFit(rbac) && role in rbac.roles
    ensures AllFit(WriteAssignableTo(rbac, role, assignableTo))
            <==> UpdateCompatible(rbac, t.principals, role, assignableTo)
  {
    var after := WriteAssignableTo(rbac, role, assignableTo);
    if AllFit(after) && assignableTo != AssignableToAll {
      forall b | b in rbac.ofPrincipal && b.1 == role
        ensures AssignableTo(b.0.kind) == assignableTo
      {
        assert Fits(after.roles[b.1].assignableTo, b.0.kind);
      }
      forall b | b in rbac.ofUser && b.1 == role
        ensures assignableTo == AssignableTo(UserKind)
      {
        assert (UserPrincipal(b.0), b.1) in rbac.ofPrincipal;
      }
    }
  }

  /** The three writes that follow an unlocked read: the guard that the source evaluated on what it
    * read would also pass on the rows at the write. */
  ghost predicate GuardHolds(db: DB, op: Op) {
    match op
    case OnRole(ChangeAssignable(role, assignableTo)) =>
      role in db.rbac.roles ==> UpdateCompatible(db.rbac, db.tenancy.principals, role, assignableTo)
    case OnRole(SyncRoles(user, rows)) => SyncStillFits(db.tenancy, db.rbac, user, rows)
    case OnUser(ProvisionUser(id, row, roles, seen)) =>
      Provision(db, id, row, roles, seen).1.Ok? ==> StillAssignable(db.rbac, roles, row.userClass)
    case _ => true
  }

  /** A new role has no bindings yet. */
  lemma NewRoleFits(t: Tenancy, rbac: RoleTables, role: RoleId, row: Role)
    requires RolesSound(t, rbac) && AllFit(rbac)
    ensures AllFit(CreateRole(rbac, role, row).0)
  {
  }

  lemma RoleOpFits(w: World, now: Time, op: RoleOp)
    requires SoundIn(w) && AllFit(w.db.rbac) && Enabled(w, now, OnRole(op))
    ensures AllFit(ApplyRole(w.db, op).rbac) <==> GuardHolds(w.db, OnRole(op))
  {
    hide Bind, RolesSound, ReadsSound, InsertSynced, UpdateCompatible, WriteAssignableTo, SyncStillFits, FirstRoleError;
    var t, rbac := w.db.tenancy, w.db.rbac;
    match op
    case NewRole(role, row) => NewRoleFits(t, rbac, role, row);
    case AssignBatch(user, roles) =>
      if AssignRolesToUser(t, rbac, user, roles).1.Ok? && roles != [] {
        NoErrorIffAll(rbac.roles, roles, t.users[user].userClass, RoleNotFound);
        BindFits(rbac, user, roles);
      }
    case AssignPrincipal(principal, role) =>
      if AssignRoleToPrincipal(t, rbac, principal, role).1.Ok? {
        BindFits(rbac, principal.refId, if principal.kind == UserKind then [role] else []);
      }
    case ChangeAssignable(role, assignableTo) =>
      if role in rbac.roles {
        WriteFitsIffCompatible(t, rbac, role, assignableTo);
      } else {
        NoRoleNoWrite(rbac, role, assignableTo);
      }
    case SyncRoles(user, rows) => SyncFitsIff(t, rbac, w.hist.inFlight, user, rows);
    case _ =>
  }

  lemma NoRoleNoWrite(rbac: RoleTables, role: RoleId, assignableTo: Assignable)
    requires role !in rbac.roles
    ensures WriteAssignableTo(rbac, role, assignableTo) == rbac
  {
  }

  lemma FewerBindingsFit(before: RoleTables, after: RoleTables)
    requires AllFit(before) && after.roles == before.roles && after.ofPrincipal <= before.ofPrincipal
    ensures AllFit(after)
  {
  }

  lemma UserOpFits(w: World, now: Time, op: UserOp)
    requires SoundIn(w) && AllFit(w.db.rbac) && Enabled(w, now, OnUser(op))
    ensures AllFit(ApplyUser(w.db, now, op).rbac) <==> GuardHolds(w.db, OnUser(op))
  {
    hide AllFit, Bind, RevokeUserSessions, RolesSound, ReadsSound, FirstRoleError, StillAssignable, Provision,
         NameOrEmailTaken, HasPlatformRole, ProofsAfterUpdate, SessionsAfterUpdate;
    match op
    case ProvisionUser(user, row, roles, seen) =>
      if Provision(w.db, user, row, roles, seen).1.Ok? {
        ProvisionFitsIff(w.db, w.hist.inFlight, user, row, roles, seen);
      } else {
        RefusedProvision(w.db, user, row, roles, seen);
      }
    case RemoveUser(user) => FewerBindingsFit(w.db.rbac, DeleteUser(w.db, now, user).0.rbac);
    case _ =>
  }

  lemma RefusedProvision(db: DB, id: UserId, row: User, roleIds: seq<RoleId>, seen: map<RoleId, Role>)
    requires Provision(db, id, row, roleIds, seen).1.Err?
    ensures Provision(db, id, row, roleIds, seen).0 == db
  {
    hide NameOrEmailTaken, FirstRoleError, Bind;
  }

  lemma FitStep(w: World, now: Time, op: Op)
    requires SoundIn(w) && AllFit(w.db.rbac) && Enabled(w, now, op)
    ensures AllFit(Apply(w, now, op).rbac) <==> GuardHolds(w.db, op)
  {
    hide RolesSound, ReadsSound, AllFit, UpdateCompatible, StillAssignable, SyncStillFits, Provision, Enabled,
         ApplyUser, ApplyRole, ApplyTenant, ApplyProof, ApplySession, ApplyCode;
    match op
    case OnTenant(o) => TenantOpSound(w.db, now, o);
    case OnUser(o) => UserOpFits(w, now, o);
    case OnRole(o) => RoleOpFits(w, now, o);
    case OnProof(o) => ProofOpSound(w.db, now, o);
    case _ =>
  }

  /** Over a whole run, every binding fits its role in every state exactly when the guard of every
    * write held at the moment of the write. */
  lemma {:induction false} BindingsFitIffGuardsHold(states: seq<World>, steps: seq<Step>, n: nat)
    requires IsRun(states, steps) && n < |states|
    ensures (forall i | 0 <= i <= n :: AllFit(states[i].db.rbac))
            <==> (forall i | 0 <= i < n :: GuardHolds(states[i].db, steps[i].op))
  {
    hide Apply, NextHistory, Enabled, SoundIn, AllFit, GuardHolds;
    if n == 0 {
      NothingBoundFits();
    } else {
      BindingsFitIffGuardsHold(states, steps, n - 1);
      SoundInvariant(states, steps, n - 1);
      if AllFit(states[n - 1].db.rbac) {
        FitStep(states[n - 1], steps[n - 1].now, steps[n - 1].op);
      }
      assert (forall i | 0 <= i <= n :: AllFit(states[i].db.rbac))
             <==> (forall i | 0 <= i <= n - 1 :: AllFit(states[i].db.rbac)) && AllFit(states[n].db.rbac);
      assert (forall i | 0 <= i < n :: GuardHolds(states[i].db, steps[i].op))
             <==> (forall i | 0 <= i < n - 1 :: GuardHolds(states[i].db, steps[i].op))
                  && GuardHolds(states[n - 1].db, steps[n - 1].op);
    }
  }

  lemma NothingBoundFits()
    ensures AllFit(EMPTY_DB.rbac)
  {
  }
}
