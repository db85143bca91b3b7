/** When external customers hold no platform role. */
module CustomerRoles {
  import opened Schema
  import opened RefreshSession
  import opened Organizations
  import opened Users
  import opened PlatformRoles
  import opened AccountProofs
  import opened World
  import opened RoleSoundness
  import opened RoleRaces

  predicate IsCustomer(t: Tenancy, user: UserId) {
    user in t.users && t.users[user].userClass == ExternalCustomer
  }

  /** No customer holds a platform role in either table. */
  ghost predicate CustomersFree(t: Tenancy, rbac: RoleTables) {
    forall user | IsCustomer(t, user) :: !HasPlatformRole(rbac, user)
  }

  /** The same, seen from the bindings. */
  ghost predicate NoneBound(t: Tenancy, rbac: RoleTables) {
    forall b | b in rbac.ofPrincipal && b.0.kind == UserKind :: !IsCustomer(t, b.0.refId)
  }

  lemma FreeIffNoneBound(t: Tenancy, rbac: RoleTables)
    requires RolesSound(t, rbac)
    ensures CustomersFree(t, rbac) <==> NoneBound(t, rbac)
  {
    if CustomersFree(t, rbac) {
      hide HasPlatformRole;
      forall b | b in rbac.ofPrincipal && b.0.kind == UserKind
        ensures !IsCustomer(t, b.0.refId)
      {
        BoundHasRole(t, rbac, b);
      }
    }
  }

  /** The two writes that can give a customer a role: a repair that still inserts what it read of an
    * employee, and an account created as a customer under an id that has a binding. */
  ghost predicate CustomersKept(db: DB, op: Op) {
    match op
    case OnRole(SyncRoles(user, rows)) =>
      IsCustomer(db.tenancy, user) && SyncInserts(db.tenancy, db.rbac, user, rows) ==> forall role :: role !in rows
    case OnUser(NewUser(user, row)) =>
      row.userClass == ExternalCustomer && CreateUser(db.tenancy, user, row).1.Ok? ==>
        forall b | b in db.rbac.ofPrincipal :: b.0 != UserPrincipal(user)
    case _ => true
  }

  /** New bindings have their twins in `user_roles`, which are of employees, and nobody becomes a
    * customer. */
  lemma NoNewCustomer(before: Tenancy, rbac: RoleTables, after: Tenancy, written: RoleTables)
    requires NoneBound(before, rbac) && RolesSound(after, written)
    requires forall u | IsCustomer(after, u) :: IsCustomer(before, u)
    requires forall b | b in written.ofPrincipal && b.0.kind == UserKind ::
               b in rbac.ofPrincipal || (b.0.refId, b.1) in written.ofUser
    ensures NoneBound(after, written)
  {
  }

  lemma ClassChangeFrees(t: Tenancy, after: Tenancy, rbac: RoleTables, user: UserId)
    requires RolesSound(t, rbac) && NoneBound(t, rbac)
    requires forall u | IsCustomer(after, u) && u != user :: IsCustomer(t, u)
    requires IsCustomer(t, user) || !HasPlatformRole(rbac, user)
    ensures NoneBound(after, rbac)
  {
    hide HasPlatformRole;
    forall b | b in rbac.ofPrincipal && b.0.kind == UserKind
      ensures !IsCustomer(after, b.0.refId)
    {
      BoundHasRole(t, rbac, b);
    }
  }

  lemma SyncFreesIff(db: DB, user: UserId, rows: set<RoleId>)
    requires NoneBound(db.tenancy, db.rbac)
    ensures NoneBound(db.tenancy, InsertSynced(db.tenancy, db.rbac, user, rows))
            <==> CustomersKept(db, OnRole(SyncRoles(user, rows)))
  {
    var after := InsertSynced(db.tenancy, db.rbac, user, rows);
    if CustomersKept(db, OnRole(SyncRoles(user, rows))) {
      forall b | b in after.ofPrincipal && b.0.kind == UserKind
        ensures !IsCustomer(db.tenancy, b.0.refId)
      {
        if b !in db.rbac.ofPrincipal {
          assert b.1 in rows && b.0 == UserPrincipal(user);
        }
      }
    } else {
      var role :| role in rows;
      assert (UserPrincipal(user), role) in after.ofPrincipal && UserPrincipal(user).refId == user;
    }
  }

  lemma NewUserFreesIff(db: DB, user: UserId, row: User)
    requires NoneBound(db.tenancy, db.rbac)
    ensures NoneBound(CreateUser(db.tenancy, user, row).0, db.rbac) <==> CustomersKept(db, OnUser(NewUser(user, row)))
  {
    hide NameOrEmailTaken;
    var after := CreateUser(db.tenancy, user, row).0;
    if row.userClass == ExternalCustomer && CreateUser(db.tenancy, user, row).1.Ok? {
      assert IsCustomer(after, user);
      assert forall b | b in db.rbac.ofPrincipal && b.0.kind == UserKind && b.0.refId == user ::
               b.0 == UserPrincipal(user);
    }
  }

  lemma RoleOpFreesIff(db: DB, op: RoleOp)
    requires NoneBound(db.tenancy, db.rbac)
    requires RolesSound(ApplyRole(db, op).tenancy, ApplyRole(db, op).rbac)
    ensures NoneBound(ApplyRole(db, op).tenancy, ApplyRole(db, op).rbac) <==> CustomersKept(db, OnRole(op))
  {
    hide RolesSound, NoneBound, InsertSynced, SyncInserts, FirstRoleError, AssignmentError, UserRoleError;
    var after := ApplyRole(db, op);
    match op
    case SyncRoles(user, rows) => SyncFreesIff(db, user, rows);
    case _ => NoNewCustomer(db.tenancy, db.rbac, after.tenancy, after.rbac);
  }

  lemma UserOpFreesIff(db: DB, now: Time, op: UserOp)
    requires RolesSound(db.tenancy, db.rbac) && NoneBound(db.tenancy, db.rbac)
    requires RolesSound(ApplyUser(db, now, op).tenancy, ApplyUser(db, now, op).rbac)
    ensures NoneBound(ApplyUser(db, now, op).tenancy, ApplyUser(db, now, op).rbac) <==> CustomersKept(db, OnUser(op))
  {
    hide RolesSound, NoneBound, CreateUser, RevokeUserSessions, WithoutPrincipalSessions, WithoutProofsOf,
         NameOrEmailTaken, ProofsAfterUpdate, SessionsAfterUpdate, HasPlatformRole, Provision;
    var t, rbac, after := db.tenancy, db.rbac, ApplyUser(db, now, op);
    match op
    case NewUser(user, row) => NewUserFreesIff(db, user, row);
    case ProvisionUser(user, row, roles, seen) => ProvisionFrees(db, user, row, roles, seen);
    case ChangeClass(user, userClass) =>
      if IsCustomer(t, user) || !HasPlatformRole(rbac, user) {
        ClassChangeFrees(t, after.tenancy, rbac, user);
      } else {
        NoNewCustomer(t, rbac, after.tenancy, after.rbac);
      }
    case _ => NoNewCustomer(t, rbac, after.tenancy, after.rbac);
  }

  lemma ProvisionFrees(db: DB, id: UserId, row: User, roleIds: seq<RoleId>, seen: map<RoleId, Role>)
    requires RolesSound(db.tenancy, db.rbac) && NoneBound(db.tenancy, db.rbac)
    requires var after := Provision(db, id, row, roleIds, seen).0; RolesSound(after.tenancy, after.rbac)
    ensures var after := Provision(db, id, row, roleIds, seen).0; NoneBound(after.tenancy, after.rbac)
  {
    hide NameOrEmailTaken, FirstRoleError;
    var after := Provision(db, id, row, roleIds, seen).0;
    forall b | b in after.rbac.ofPrincipal && b.0.kind == UserKind
      ensures !IsCustomer(after.tenancy, b.0.refId)
    {
      if b in db.rbac.ofPrincipal {
        assert b.0 in db.tenancy.principals && b.0 == UserPrincipal(b.0.refId);
      } else {
        assert (b.0.refId, b.1) in after.rbac.ofUser;
      }
    }
  }

  lemma TenantOpFrees(db: DB, now: Time, op: TenantOp)
    requires RolesSound(db.tenancy, db.rbac) && NoneBound(db.tenancy, db.rbac)
    ensures NoneBound(ApplyTenant(db, now, op).tenancy, ApplyTenant(db, now, op).rbac)
  {
    hide NoneBound, HasPlatformRole, MembershipError, LockManagerContext, ManagerWriteError, JoinError,
         EndMemberSessions, RevokeWhere, DropPendingCodesOf, DropPendingCodesOfMember, ValidTransition, RolesSound;
    FewerCustomers(db.tenancy, ApplyTenant(db, now, op).tenancy, db.rbac);
  }

  lemma FewerCustomers(before: Tenancy, after: Tenancy, rbac: RoleTables)
    requires NoneBound(before, rbac) && forall u | IsCustomer(after, u) :: IsCustomer(before, u)
    ensures NoneBound(after, rbac)
  {
  }

  lemma ProofOpFrees(db: DB, now: Time, op: ProofOp)
    requires NoneBound(db.tenancy, db.rbac)
    ensures NoneBound(ApplyProof(db, now, op).tenancy, ApplyProof(db, now, op).rbac)
  {
    hide NoneBound, RevokeUserSessions, RevokePendingProofs, RevokeProofId, ProofConflict, Replace, RevokeIfPending;
    FewerCustomers(db.tenancy, ApplyProof(db, now, op).tenancy, db.rbac);
  }

  lemma CustomerStep(w: World, now: Time, op: Op)
    requires RolesSound(w.db.tenancy, w.db.rbac) && NoneBound(w.db.tenancy, w.db.rbac)
    requires RolesSound(Apply(w, now, op).tenancy, Apply(w, now, op).rbac)
    ensures NoneBound(Apply(w, now, op).tenancy, Apply(w, now, op).rbac) <==> CustomersKept(w.db, op)
  {
    hide RolesSound, NoneBound, SyncInserts, CreateUser, ApplySession, ApplyTenant, ApplyUser, ApplyRole, ApplyCode,
         ApplyProof;
    match op
    case OnTenant(o) => TenantOpFrees(w.db, now, o);
    case OnUser(o) => UserOpFreesIff(w.db, now, o);
    case OnRole(o) => RoleOpFreesIff(w.db, o);
    case OnProof(o) => ProofOpFrees(w.db, now, o);
    case _ =>
  }

  lemma NobodyYet()
    ensures NoneBound(EMPTY_DB.tenancy, EMPTY_DB.rbac)
  {
  }

  ghost predicate Free(w: World) {
    CustomersFree(w.db.tenancy, w.db.rbac)
  }

  /** Over a whole run no customer ever holds a platform role exactly when no repair inserts for a
    * customer and no customer is created under an id that has bindings. */
  lemma {:induction false} CustomersFreeIffKept(states: seq<World>, steps: seq<Step>, n: nat)
    requires IsRun(states, steps) && n < |states|
    ensures (forall i | 0 <= i <= n :: Free(states[i]))
            <==> (forall i | 0 <= i < n :: CustomersKept(states[i].db, steps[i].op))
  {
    hide Apply, NextHistory, Enabled, RolesSound, ReadsSound, NoneBound, CustomersFree, CustomersKept;
    SoundInvariant(states, steps, n);
    FreeIffNoneBound(states[n].db.tenancy, states[n].db.rbac);
    if n == 0 {
      NobodyYet();
    } else {
      CustomersFreeIffKept(states, steps, n - 1);
      SoundInvariant(states, steps, n - 1);
      FreeIffNoneBound(states[n - 1].db.tenancy, states[n - 1].db.rbac);
      if Free(states[n - 1]) {
        CustomerStep(states[n - 1], steps[n - 1].now, steps[n - 1].op);
      }
      assert (forall i | 0 <= i <= n :: Free(states[i]))
             <==> (forall i | 0 <= i <= n - 1 :: Free(states[i])) && Free(states[n]);
      assert (forall i | 0 <= i < n :: CustomersKept(states[i].db, steps[i].op))
             <==> (forall i | 0 <= i < n - 1 :: CustomersKept(states[i].db, steps[i].op))
                  && CustomersKept(states[n - 1].db, steps[n - 1].op);
    }
  }

  /** An employee loses their only role, which a repair has read, and becomes a customer. */
  lemma CustomerAwaitsRepair() returns (w: World)
    ensures Reachable(w) && (7, {1}) in w.hist.inFlight.syncs
    ensures w.db.rbac.roles == map[1 := ANY_ROLE] && UserPrincipal(7) in w.db.tenancy.principals
    ensures IsCustomer(w.db.tenancy, 7)
  {
    hide Reachable, ApplySession, ApplyTenant, ApplyCode, ApplyProof, SessionEnabled, MayBeChosen, RotationsAfter,
         HandlersAfter, IsRun;
    var w0 := SomeoneHoldsARole();
    assert SyncRows(w0.db.tenancy, w0.db.rbac, 7) == {1};
    var read, revoke := OnRole(ReadForSync(7)), OnRole(RevokeUserRole(7, 1));
    var w1 := Next(w0, w0.clock, read);
    NextIsReachable(w0, w0.clock, read);
    var w2 := Next(w1, w0.clock, revoke);
    NextIsReachable(w1, w0.clock, revoke);
    assert w2.db.rbac.ofUser == {} && w2.db.rbac.ofPrincipal == {};
    var demote := OnUser(ChangeClass(7, ExternalCustomer));
    NextIsReachable(w2, w0.clock, demote);
    w := Next(w2, w0.clock, demote);
  }

  /** The repair then inserts the role. */
  lemma CustomerHoldsARole()
    ensures exists w: World :: Reachable(w) && !Free(w)
  {
    hide Reachable, ApplySession, ApplyTenant, ApplyUser, ApplyCode, ApplyProof, NextHistory;
    var w := CustomerAwaitsRepair();
    var insert := OnRole(SyncRoles(7, {1}));
    NextIsReachable(w, w.clock, insert);
    var after := Next(w, w.clock, insert);
    assert (UserPrincipal(7), 1) in after.db.rbac.ofPrincipal && 1 in after.db.rbac.roles;
    assert IsCustomer(after.db.tenancy, 7) && HasPlatformRole(after.db.rbac, 7);
  }
}
