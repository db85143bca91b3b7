/** When the two permission checks, one over `user_roles` and one over `principal_roles`, agree. */
module RoleAnswers {
  import opened Schema
  import opened RefreshSession
  import opened Organizations
  import opened Users
  import opened PlatformRoles
  import opened AccountProofs
  import opened World
  import opened RoleSoundness
  import opened RoleAgreement

  /** The two checks agree for every user and permission. */
  ghost predicate OneAnswer(t: Tenancy, rbac: RoleTables) {
    forall user, permission ::
      UserHasPermission(t, rbac, user, permission)
      <==> PrincipalHasPermission(t, rbac, UserPrincipal(user), permission)
  }

  /** And would, whatever permissions the roles were given. */
  ghost predicate OneAnswerAlways(t: Tenancy, rbac: RoleTables) {
    forall grants :: OneAnswer(t, rbac.(permissions := grants))
  }

  predicate IsEmployee(t: Tenancy, user: UserId) {
    user in t.users && t.users[user].userClass == InternalEmployee
  }

  /** Every binding of an employee's principal has its twin in `user_roles`. */
  ghost predicate EmployeesTwinned(t: Tenancy, rbac: RoleTables) {
    forall b | b in rbac.ofPrincipal && b.0.kind == UserKind && IsEmployee(t, b.0.refId) ::
      (b.0.refId, b.1) in rbac.ofUser
  }

  lemma TwinnedPermission(t: Tenancy, rbac: RoleTables, user: UserId, permission: Text)
    requires EmployeesTwinned(t, rbac) && PrincipalHasPermission(t, rbac, UserPrincipal(user), permission)
    ensures UserHasPermission(t, rbac, user, permission)
  {
    var b, g :| b in rbac.ofPrincipal && g in rbac.permissions && g.0 == b.1 && b.0 == UserPrincipal(user)
                && b.1 in rbac.roles && rbac.roles[b.1].scope == PlatformScope
                && IsEmployee(t, user) && (g.1 == permission || g.1 == WILDCARD);
    var twin := (user, b.1);
    assert twin in rbac.ofUser && twin.0 == user && twin.1 == b.1;
  }

  /** A binding without its twin shows as soon as its role alone grants something. */
  lemma SplitShows(t: Tenancy, rbac: RoleTables, b: (PrincipalId, RoleId))
    requires RolesSound(t, rbac) && b in rbac.ofPrincipal && b.0.kind == UserKind && IsEmployee(t, b.0.refId)
    requires (b.0.refId, b.1) !in rbac.ofUser
    ensures !OneAnswer(t, rbac.(permissions := {(b.1, WILDCARD)}))
  {
    var alone := rbac.(permissions := {(b.1, WILDCARD)});
    var user, g := b.0.refId, (b.1, WILDCARD);
    assert b.0 == UserPrincipal(user) && g in alone.permissions && g.0 == b.1;
    assert PrincipalHasPermission(t, alone, UserPrincipal(user), WILDCARD);
    forall c | c in alone.ofUser && c.0 == user
      ensures c.1 != b.1
    {
      assert c == (user, c.1);
    }
  }

  /** The checks agree under every assignment of permissions exactly when no binding of an
    * employee's principal lacks its twin; bindings of others give no answer to either. */
  lemma OneAnswerIffTwinned(t: Tenancy, rbac: RoleTables)
    requires RolesSound(t, rbac)
    ensures OneAnswerAlways(t, rbac) <==> EmployeesTwinned(t, rbac)
  {
    hide UserHasPermission, PrincipalHasPermission;
    if EmployeesTwinned(t, rbac) {
      forall grants
        ensures OneAnswer(t, rbac.(permissions := grants))
      {
        AgreeUnder(t, rbac.(permissions := grants));
      }
    } else {
      var b :| b in rbac.ofPrincipal && b.0.kind == UserKind && IsEmployee(t, b.0.refId)
               && (b.0.refId, b.1) !in rbac.ofUser;
      SplitShows(t, rbac, b);
    }
  }

  lemma AgreeUnder(t: Tenancy, rbac: RoleTables)
    requires RolesSound(t, rbac) && EmployeesTwinned(t, rbac)
    ensures OneAnswer(t, rbac)
  {
    hide UserHasPermission, PrincipalHasPermission, RolesSound, EmployeesTwinned;
    forall user, permission
      ensures UserHasPermission(t, rbac, user, permission)
              <==> PrincipalHasPermission(t, rbac, UserPrincipal(user), permission)
    {
      if UserHasPermission(t, rbac, user, permission) {
        UserPermissionIsPrincipals(t, rbac, user, permission);
      } else if PrincipalHasPermission(t, rbac, UserPrincipal(user), permission) {
        TwinnedPermission(t, rbac, user, permission);
      }
    }
  }

  /** The two writes that can split the answers: a repair for an employee inserts only rows that
    * are still in `user_roles`, and an account created as an employee finds no binding under its id. */
  ghost predicate AnswersKept(db: DB, op: Op) {
    match op
    case OnRole(SyncRoles(user, rows)) => IsEmployee(db.tenancy, user) ==> SyncBacked(db, user, rows)
    case OnUser(NewUser(user, row)) =>
      row.userClass == InternalEmployee && CreateUser(db.tenancy, user, row).1.Ok? ==>
        forall b | b in db.rbac.ofPrincipal :: b.0 != UserPrincipal(user)
    case _ => true
  }

  /** The same bindings, and no new employee. */
  lemma NoNewEmployee(before: Tenancy, after: Tenancy, rbac: RoleTables)
    requires EmployeesTwinned(before, rbac)
    requires forall u | IsEmployee(after, u) :: IsEmployee(before, u)
    ensures EmployeesTwinned(after, rbac)
  {
  }

  /** Whoever changes class holds no role in either table. */
  lemma ClassChangeTwins(t: Tenancy, after: Tenancy, rbac: RoleTables, user: UserId)
    requires RolesSound(t, rbac) && EmployeesTwinned(t, rbac)
    requires forall u | IsEmployee(after, u) && u != user :: IsEmployee(t, u)
    requires IsEmployee(t, user) || !HasPlatformRole(rbac, user)
    ensures EmployeesTwinned(after, rbac)
  {
    hide HasPlatformRole;
    forall b | b in rbac.ofPrincipal && b.0.kind == UserKind && IsEmployee(after, b.0.refId)
      ensures (b.0.refId, b.1) in rbac.ofUser
    {
      BoundHasRole(t, rbac, b);
    }
  }

  lemma SyncAnswersIff(db: DB, user: UserId, rows: set<RoleId>)
    requires EmployeesTwinned(db.tenancy, db.rbac)
    ensures EmployeesTwinned(db.tenancy, InsertSynced(db.tenancy, db.rbac, user, rows))
            <==> AnswersKept(db, OnRole(SyncRoles(user, rows)))
  {
    var after := InsertSynced(db.tenancy, db.rbac, user, rows);
    if EmployeesTwinned(db.tenancy, after) && SyncInserts(db.tenancy, db.rbac, user, rows)
       && IsEmployee(db.tenancy, user) {
      forall role | role in rows
        ensures (user, role) in db.rbac.ofUser
      {
        var b := (UserPrincipal(user), role);
        assert b in after.ofPrincipal && (b.0.refId, b.1) in after.ofUser;
      }
    }
  }

  lemma NewUserAnswersIff(db: DB, user: UserId, row: User)
    requires RolesSound(db.tenancy, db.rbac) && EmployeesTwinned(db.tenancy, db.rbac)
    ensures EmployeesTwinned(CreateUser(db.tenancy, user, row).0, db.rbac)
            <==> AnswersKept(db, OnUser(NewUser(user, row)))
  {
    hide NameOrEmailTaken;
    var after := CreateUser(db.tenancy, user, row).0;
    if EmployeesTwinned(after, db.rbac) && row.userClass == InternalEmployee
       && CreateUser(db.tenancy, user, row).1.Ok? {
      assert IsEmployee(after, user);
      assert forall b | b in db.rbac.ofUser :: b.0 != user;
      assert forall b | b in db.rbac.ofPrincipal && b.0 == UserPrincipal(user) :: (user, b.1) in db.rbac.ofUser;
    }
  }

  lemma BindAnswers(t: Tenancy, rbac: RoleTables, user: UserId, roleIds: seq<RoleId>)
    requires EmployeesTwinned(t, rbac)
    ensures EmployeesTwinned(t, Bind(rbac, user, roleIds))
  {
  }

  lemma UnbindAnswers(t: Tenancy, rbac: RoleTables, user: UserId, role: RoleId)
    requires EmployeesTwinned(t, rbac)
    ensures EmployeesTwinned(t, Unbind(rbac, user, role))
  {
  }

  lemma RoleOpAnswersIff(db: DB, op: RoleOp)
    requires EmployeesTwinned(db.tenancy, db.rbac)
    ensures EmployeesTwinned(ApplyRole(db, op).tenancy, ApplyRole(db, op).rbac) <==> AnswersKept(db, OnRole(op))
  {
    hide Bind, Unbind, InsertSynced, SyncBacked, FirstRoleError;
    var t, rbac := db.tenancy, db.rbac;
    match op
    case AssignBatch(user, roles) => BindAnswers(t, rbac, user, roles);
    case RevokeUserRole(user, role) => UnbindAnswers(t, rbac, user, role);
    case AssignPrincipal(principal, role) => BindAnswers(t, rbac, principal.refId, [role]);
    case RevokePrincipalRole(principal, role) => UnbindAnswers(t, rbac, principal.refId, role);
    case SyncRoles(user, rows) => SyncAnswersIff(db, user, rows);
    case _ =>
  }

  lemma ProvisionAnswers(db: DB, id: UserId, row: User, roleIds: seq<RoleId>, seen: map<RoleId, Role>)
    requires RolesSound(db.tenancy, db.rbac) && EmployeesTwinned(db.tenancy, db.rbac)
    ensures var after := Provision(db, id, row, roleIds, seen).0; EmployeesTwinned(after.tenancy, after.rbac)
  {
    hide NameOrEmailTaken, FirstRoleError;
  }

  lemma DeleteAnswers(db: DB, now: Time, user: UserId)
    requires EmployeesTwinned(db.tenancy, db.rbac)
    ensures var after := DeleteUser(db, now, user).0; EmployeesTwinned(after.tenancy, after.rbac)
  {
    hide RevokeUserSessions, WithoutPrincipalSessions, WithoutProofsOf;
  }

  lemma UserOpAnswersIff(db: DB, now: Time, op: UserOp)
    requires RolesSound(db.tenancy, db.rbac) && EmployeesTwinned(db.tenancy, db.rbac)
    ensures EmployeesTwinned(ApplyUser(db, now, op).tenancy, ApplyUser(db, now, op).rbac)
            <==> AnswersKept(db, OnUser(op))
  {
    hide RolesSound, EmployeesTwinned, Provision, DeleteUser, CreateUser, RevokeUserSessions, NameOrEmailTaken,
         ProofsAfterUpdate, SessionsAfterUpdate, HasPlatformRole;
    var t, rbac, after := db.tenancy, db.rbac, ApplyUser(db, now, op);
    match op
    case NewUser(user, row) => NewUserAnswersIff(db, user, row);
    case ProvisionUser(user, row, roles, seen) => ProvisionAnswers(db, user, row, roles, seen);
    case RemoveUser(user) => DeleteAnswers(db, now, user);
    case ChangeClass(user, userClass) =>
      if IsEmployee(t, user) || !HasPlatformRole(rbac, user) {
        ClassChangeTwins(t, after.tenancy, rbac, user);
      } else {
        NoNewEmployee(t, after.tenancy, rbac);
      }
    case _ => NoNewEmployee(t, after.tenancy, rbac);
  }

  lemma TenantOpAnswers(db: DB, now: Time, op: TenantOp)
    requires RolesSound(db.tenancy, db.rbac) && EmployeesTwinned(db.tenancy, db.rbac)
    ensures EmployeesTwinned(ApplyTenant(db, now, op).tenancy, ApplyTenant(db, now, op).rbac)
  {
    hide RolesSound, EmployeesTwinned, HasPlatformRole, MembershipError, LockManagerContext, ManagerWriteError,
         JoinError, EndMemberSessions, RevokeWhere, DropPendingCodesOf, DropPendingCodesOfMember, ValidTransition;
    var t, rbac, after := db.tenancy, db.rbac, ApplyTenant(db, now, op);
    if op.PromoteUser? && (IsEmployee(t, op.user) || !HasPlatformRole(rbac, op.user)) {
      ClassChangeTwins(t, after.tenancy, rbac, op.user);
    } else {
      NoNewEmployee(t, after.tenancy, rbac);
    }
  }

  lemma ProofOpAnswers(db: DB, now: Time, op: ProofOp)
    requires EmployeesTwinned(db.tenancy, db.rbac)
    ensures EmployeesTwinned(ApplyProof(db, now, op).tenancy, ApplyProof(db, now, op).rbac)
  {
    hide EmployeesTwinned, RevokeUserSessions, RevokePendingProofs, RevokeProofId, ProofConflict, Replace,
         RevokeIfPending;
    NoNewEmployee(db.tenancy, ApplyProof(db, now, op).tenancy, db.rbac);
  }

  lemma AnswerStep(w: World, now: Time, op: Op)
    requires RolesSound(w.db.tenancy, w.db.rbac) && EmployeesTwinned(w.db.tenancy, w.db.rbac)
    ensures EmployeesTwinned(Apply(w, now, op).tenancy, Apply(w, now, op).rbac) <==> AnswersKept(w.db, op)
  {
    hide RolesSound, EmployeesTwinned, SyncBacked, CreateUser, ApplySession, ApplyTenant, ApplyUser, ApplyRole,
         ApplyCode, ApplyProof;
    match op
    case OnTenant(o) => TenantOpAnswers(w.db, now, o);
    case OnUser(o) => UserOpAnswersIff(w.db, now, o);
    case OnRole(o) => RoleOpAnswersIff(w.db, o);
    case OnProof(o) => ProofOpAnswers(w.db, now, o);
    case _ =>
  }

  lemma NothingBoundAnswers()
    ensures EmployeesTwinned(EMPTY_DB.tenancy, EMPTY_DB.rbac)
  {
  }

  ghost predicate AnswersAgree(w: World) {
    OneAnswerAlways(w.db.tenancy, w.db.rbac)
  }

  /** Over a whole run the two checks agree in every state, whatever permissions the roles have,
    * exactly when every repair and every new account kept the answers. */
  lemma {:induction false} AnswersAgreeIffKept(states: seq<World>, steps: seq<Step>, n: nat)
    requires IsRun(states, steps) && n < |states|
    ensures (forall i | 0 <= i <= n :: AnswersAgree(states[i]))
            <==> (forall i | 0 <= i < n :: AnswersKept(states[i].db, steps[i].op))
  {
    hide Apply, NextHistory, Enabled, RolesSound, ReadsSound, EmployeesTwinned, OneAnswerAlways, AnswersKept;
    SoundInvariant(states, steps, n);
    OneAnswerIffTwinned(states[n].db.tenancy, states[n].db.rbac);
    if n == 0 {
      NothingBoundAnswers();
    } else {
      AnswersAgreeIffKept(states, steps, n - 1);
      SoundInvariant(states, steps, n - 1);
      OneAnswerIffTwinned(states[n - 1].db.tenancy, states[n - 1].db.rbac);
      if AnswersAgree(states[n - 1]) {
        AnswerStep(states[n - 1], steps[n - 1].now, steps[n - 1].op);
      }
      assert (forall i | 0 <= i <= n :: AnswersAgree(states[i]))
             <==> (forall i | 0 <= i <= n - 1 :: AnswersAgree(states[i])) && AnswersAgree(states[n]);
      assert (forall i | 0 <= i < n :: AnswersKept(states[i].db, steps[i].op))
             <==> (forall i | 0 <= i < n - 1 :: AnswersKept(states[i].db, steps[i].op))
                  && AnswersKept(states[n - 1].db, steps[n - 1].op);
    }
  }
}
