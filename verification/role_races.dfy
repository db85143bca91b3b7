/** Runs in which a write that follows an unlocked read breaks what would otherwise hold of the
  * role tables. */
module RoleRaces {
  import opened Schema
  import opened RefreshSession
  import opened Organizations
  import opened Users
  import opened PlatformRoles
  import opened AccountProofs
  import opened World
  import opened RoleSoundness
  import opened RoleAgreement
  import opened RoleFit

  const ANY_ROLE: Role := Role(AssignableToAll, PlatformScope)
  const NEW_EMPLOYEE: User := User(7, 7, false, false, InternalEmployee, None, true)
  const SERVICES: Assignable := AssignableTo(ServiceKind)

  /** A database with one role, and perhaps a permission of it, and nobody to hold it. */
  function OneRole(role: Role, permissions: set<(RoleId, Text)>): DB {
    EMPTY_DB.(rbac := RoleTables(map[1 := role], permissions, {}, {}))
  }

  lemma ProvisioningBinds(role: Role, permissions: set<(RoleId, Text)>, seen: map<RoleId, Role>)
    requires seen == map[1 := ANY_ROLE] && role.scope == PlatformScope
    ensures var db := OneRole(role, permissions);
            var after := Provision(db, 7, NEW_EMPLOYEE, [1], seen);
            && after.1.Ok?
            && after.0.rbac == RoleTables(map[1 := role], permissions, {(7, 1)}, {(UserPrincipal(7), 1)})
            && after.0.tenancy.users == map[7 := NEW_EMPLOYEE]
            && UserPrincipal(7) in after.0.tenancy.principals
  {
    var db := OneRole(role, permissions);
    assert [1][..0] == [];
    assert FirstRoleError(seen, [1], InternalEmployee, RoleNotBound).None?;
    assert forall r | r in [1] :: r in db.rbac.roles;
    var bound := Bind(db.rbac, 7, [1]);
    assert 1 in [1];
    assert bound.ofUser == {(7, 1)} && bound.ofPrincipal == {(UserPrincipal(7), 1)};
  }

  lemma Misfit(rbac: RoleTables)
    requires 1 in rbac.roles && rbac.roles[1].assignableTo == SERVICES && (UserPrincipal(7), 1) in rbac.ofPrincipal
    ensures !AllFit(rbac)
  {
    var b := (UserPrincipal(7), 1);
    assert b in rbac.ofPrincipal && b.1 in rbac.roles && !Fits(rbac.roles[b.1].assignableTo, b.0.kind);
  }

  lemma SetUp() returns (w0: World, w1: World, w2: World)
    ensures w0 == World(0, EMPTY_DB, NO_HISTORY)
    ensures w1 == Next(w0, 0, OnRole(NewRole(1, ANY_ROLE))) && Enabled(w0, 0, OnRole(NewRole(1, ANY_ROLE)))
    ensures w2 == Next(w1, 0, OnRole(ReadRoles)) && Enabled(w1, 0, OnRole(ReadRoles))
    ensures w2.db == OneRole(ANY_ROLE, {}) && map[1 := ANY_ROLE] in w2.hist.inFlight.roleTables && w2.clock == 0
  {
    w0 := World(0, EMPTY_DB, NO_HISTORY);
    w1 := Next(w0, 0, OnRole(NewRole(1, ANY_ROLE)));
    w2 := Next(w1, 0, OnRole(ReadRoles));
  }

  lemma ReadsKept(w: World, role: RoleId, assignableTo: Assignable)
    ensures NextHistory(w, w.clock, OnRole(ChangeAssignable(role, assignableTo))).inFlight == w.hist.inFlight
  {
  }

  /** The check alone is not enough: here it passes, the role is then bound to a new account, and
    * the write that follows leaves that binding unfitting. */
  lemma StaleCheckMisfits()
    ensures exists states: seq<World>, steps: seq<Step> ::
              && IsRun(states, steps)
              && |steps| == 4
              && steps[3].op == OnRole(ChangeAssignable(1, SERVICES))
              && UpdateCompatible(states[2].db.rbac, states[2].db.tenancy.principals, 1, SERVICES)
              && !AllFit(states[4].db.rbac)
  {
    hide ApplySession, ApplyTenant, ApplyCode, ApplyProof, NextHistory, SessionEnabled, MayBeChosen, AllFit, Provision;
    var w0, w1, w2 := SetUp();
    var op2 := OnUser(ProvisionUser(7, NEW_EMPLOYEE, [1], map[1 := ANY_ROLE]));
    var op3 := OnRole(ChangeAssignable(1, SERVICES));
    var w3 := Next(w2, 0, op2);
    var w4 := Next(w3, 0, op3);
    ProvisioningBinds(ANY_ROLE, {}, map[1 := ANY_ROLE]);
    Misfit(w4.db.rbac);
    assert IsRun([w0, w1, w2, w3, w4],
                 [Step(0, OnRole(NewRole(1, ANY_ROLE))), Step(0, OnRole(ReadRoles)), Step(0, op2), Step(0, op3)]);
  }

  /** Nor is a compatible write: here a provisioning has read the role, the write meets no binding,
    * and the provisioning then binds the role on the strength of what it read. */
  lemma StaleReadMisfits()
    ensures exists states: seq<World>, steps: seq<Step> ::
              && IsRun(states, steps)
              && |steps| == 4
              && steps[2].op == OnRole(ChangeAssignable(1, SERVICES))
              && UpdateCompatible(states[2].db.rbac, states[2].db.tenancy.principals, 1, SERVICES)
              && steps[3].op == OnUser(ProvisionUser(7, NEW_EMPLOYEE, [1], states[1].db.rbac.roles))
              && !AllFit(states[4].db.rbac)
  {
    hide ApplySession, ApplyTenant, ApplyCode, ApplyProof, NextHistory, SessionEnabled, MayBeChosen, AllFit, Provision;
    var w0, w1, w2 := SetUp();
    var op2 := OnRole(ChangeAssignable(1, SERVICES));
    var op3 := OnUser(ProvisionUser(7, NEW_EMPLOYEE, [1], map[1 := ANY_ROLE]));
    var w3 := Next(w2, 0, op2);
    var w4 := Next(w3, 0, op3);
    ReadsKept(w2, 1, SERVICES);
    assert w3.db == OneRole(ANY_ROLE.(assignableTo := SERVICES), {});
    ProvisioningBinds(ANY_ROLE.(assignableTo := SERVICES), {}, map[1 := ANY_ROLE]);
    Misfit(w4.db.rbac);
    assert IsRun([w0, w1, w2, w3, w4],
                 [Step(0, OnRole(NewRole(1, ANY_ROLE))), Step(0, OnRole(ReadRoles)), Step(0, op2), Step(0, op3)]);
  }

  /** Whenever a user holds a role, a repair may read it, a revocation take it from both tables, and
    * the repair then put it back into one. */
  lemma StaleSyncSplits(w: World, user: UserId, role: RoleId)
    requires Reachable(w) && (user, role) in w.db.rbac.ofUser
    requires role in w.db.rbac.roles && AssignmentError(w.db.rbac.roles[role], UserKind).None?
    ensures var rows := SyncRows(w.db.tenancy, w.db.rbac, user);
            var w1 := Next(w, w.clock, OnRole(ReadForSync(user)));
            var w2 := Next(w1, w.clock, OnRole(RevokeUserRole(user, role)));
            var w3 := Next(w2, w.clock, OnRole(SyncRoles(user, rows)));
            && Reachable(w3)
            && w3.db.tenancy == w.db.tenancy
            && w3.db.rbac == Unbind(w.db.rbac, user, role).(ofPrincipal := w3.db.rbac.ofPrincipal)
            && (UserPrincipal(user), role) in w3.db.rbac.ofPrincipal
            && (user, role) !in w3.db.rbac.ofUser
  {
    hide ApplySession, ApplyTenant, ApplyUser, ApplyCode, ApplyProof, SessionEnabled, MayBeChosen, IsRun, Reachable,
         RotationsAfter, HandlersAfter;
    ReachableIsSound(w);
    var rows := SyncRows(w.db.tenancy, w.db.rbac, user);
    assert (UserPrincipal(user), role) in w.db.rbac.ofPrincipal;
    var w1 := Next(w, w.clock, OnRole(ReadForSync(user)));
    NextIsReachable(w, w.clock, OnRole(ReadForSync(user)));
    var w2 := Next(w1, w.clock, OnRole(RevokeUserRole(user, role)));
    NextIsReachable(w1, w.clock, OnRole(RevokeUserRole(user, role)));
    NextIsReachable(w2, w.clock, OnRole(SyncRoles(user, rows)));
  }

  lemma SomeoneHoldsARole() returns (w: World)
    ensures Reachable(w)
    ensures w.db.rbac == RoleTables(map[1 := ANY_ROLE], {(1, 5)}, {(7, 1)}, {(UserPrincipal(7), 1)})
    ensures w.db.tenancy.users == map[7 := NEW_EMPLOYEE] && UserPrincipal(7) in w.db.tenancy.principals
  {
    hide ApplySession, ApplyTenant, ApplyCode, ApplyProof, SessionEnabled, MayBeChosen, Provision, Reachable, IsRun,
         RotationsAfter, HandlersAfter;
    var w0, w1, w2 := SetUp();
    StartIsReachable();
    NextIsReachable(w0, 0, OnRole(NewRole(1, ANY_ROLE)));
    NextIsReachable(w1, 0, OnRole(ReadRoles));
    var grant := OnRole(Grant(1, 5));
    var w3 := Next(w2, 0, grant);
    NextIsReachable(w2, 0, grant);
    assert w3.db == OneRole(ANY_ROLE, {(1, 5)});
    var provision := OnUser(ProvisionUser(7, NEW_EMPLOYEE, [1], map[1 := ANY_ROLE]));
    NextIsReachable(w3, 0, provision);
    ProvisioningBinds(ANY_ROLE, {(1, 5)}, map[1 := ANY_ROLE]);
    w := Next(w3, 0, provision);
  }

  /** The two permission checks then differ: the principal keeps a permission that the user lost. */
  lemma StaleSyncDiffers()
    ensures exists w: World ::
              && Reachable(w)
              && PrincipalHasPermission(w.db.tenancy, w.db.rbac, UserPrincipal(7), 5)
              && !UserHasPermission(w.db.tenancy, w.db.rbac, 7, 5)
  {
    hide Reachable, Next, SyncRows;
    var w := SomeoneHoldsARole();
    StaleSyncSplits(w, 7, 1);
    var w1 := Next(w, w.clock, OnRole(ReadForSync(7)));
    var w2 := Next(w1, w.clock, OnRole(RevokeUserRole(7, 1)));
    var w3 := Next(w2, w.clock, OnRole(SyncRoles(7, SyncRows(w.db.tenancy, w.db.rbac, 7))));
    HoldsByPrincipalOnly(w3.db.tenancy, w3.db.rbac);
  }

  lemma HoldsByPrincipalOnly(t: Tenancy, rbac: RoleTables)
    requires rbac.roles == map[1 := ANY_ROLE] && rbac.permissions == {(1, 5)} && rbac.ofUser == {}
    requires (UserPrincipal(7), 1) in rbac.ofPrincipal && UserPrincipal(7) in t.principals
    requires t.users == map[7 := NEW_EMPLOYEE]
    ensures PrincipalHasPermission(t, rbac, UserPrincipal(7), 5) && !UserHasPermission(t, rbac, 7, 5)
  {
    var b, g := (UserPrincipal(7), 1), (1, 5);
    assert b in rbac.ofPrincipal && g in rbac.permissions && g.0 == b.1 && b.0 == UserPrincipal(7);
  }
}
