/** A live tenant-scoped session always has a live tenant behind it. */
module TenantSafety {
  import opened Schema
  import opened RefreshSession
  import opened LegacyTokens
  import opened Organizations
  import opened Users
  import opened PlatformRoles
  import opened AccountProofs
  import opened World

  /** The organization, the membership and the account that a scoped session depends on. */
  predicate Backed(t: Tenancy, s: Session) {
    s.organization.Some? ==>
      && s.organization.value in t.organizations
      && t.organizations[s.organization.value].status == OrgActive
      && (s.organization.value, s.principal) in t.memberships
      && t.memberships[(s.organization.value, s.principal)].status == MemberActive
      && s.principal.kind == UserKind
      && s.principal.refId in t.users
      && t.users[s.principal.refId].active
  }

  ghost predicate TenantSafe(t: Tenancy, sessions: map<SessionId, Session>, now: Time) {
    forall sid | sid in sessions ::
      && sessions[sid].principal in t.principals
      && (Live(sessions[sid], now) ==> Backed(t, sessions[sid]))
  }

  /** Sessions only expire as the clock moves. */
  lemma Tick(t: Tenancy, sessions: map<SessionId, Session>, now: Time, later: Time)
    requires TenantSafe(t, sessions, now) && now <= later
    ensures TenantSafe(t, sessions, later)
  {
  }

  lemma CreateKeeps(t: Tenancy, r: RefreshTables, now: Time, p: CreateParams)
    requires TenantSafe(t, r.sessions, now)
    ensures TenantSafe(t, Create(t, r, p).0.sessions, now)
  {
  }

  /** Changing nothing but revocation columns and the current token id. */
  lemma RevokingKeeps(t: Tenancy, before: map<SessionId, Session>, after: map<SessionId, Session>, now: Time)
    requires TenantSafe(t, before, now)
    requires after.Keys <= before.Keys
    requires forall sid | sid in after ::
               && after[sid].principal == before[sid].principal
               && after[sid].organization == before[sid].organization
               && (Live(after[sid], now) ==> Live(before[sid], now))
    ensures TenantSafe(t, after, now)
  {
  }

  lemma RotateKeeps(t: Tenancy, r: RefreshTables, now: Time, p: RotateParams)
    requires TenantSafe(t, r.sessions, now)
    ensures TenantSafe(t, Rotate(t, r, now, p).0.sessions, now)
  {
    RevokingKeeps(t, r.sessions, Rotate(t, r, now, p).0.sessions, now);
  }

  lemma SessionStep(t: Tenancy, r: RefreshTables, pending: map<Token, Time>, now: Time, op: SessionOp)
    requires TenantSafe(t, r.sessions, now)
    ensures TenantSafe(t, ApplySession(t, r, pending, now, op).sessions, now)
  {
    hide TenantSafe;
    match op
    case CreateSession(p) => CreateKeeps(t, r, now, p);
    case ManagementSession(p) => CreateKeeps(t, r, now, p);
    case RotateSession(p) => RotateKeeps(t, r, now, p);
    case RevokeOne(sid, reason) => RevokingKeeps(t, r.sessions, RevokeById(r.sessions, sid, now, reason), now);
    case RevokeToken(token, reason) =>
      RevokingKeeps(t, r.sessions, RevokeByToken(r, now, token, reason).0.sessions, now);
    case RevokeMany(filter, reason) => RevokingKeeps(t, r.sessions, RevokeWhere(r.sessions, filter, now, reason), now);
    case _ =>
  }

  /** Leaving 'active' revokes every live session of the tenant; any other change of status
    * revokes none, and needs none revoked because a live session implies an active tenant. */
  lemma StatusKeeps(t: Tenancy, sessions: map<SessionId, Session>, now: Time, id: OrganizationId,
                    status: OrganizationStatus)
    requires TenantSafe(t, sessions, now) && id in t.organizations
    ensures LeavesActive(t.organizations[id].status, status) ==>
              TenantSafe(WithStatus(t, id, status),
                         RevokeWhere(sessions, OfOrganization(id), now, Some(OrganizationBecame(status))), now)
    ensures !LeavesActive(t.organizations[id].status, status) ==> TenantSafe(WithStatus(t, id, status), sessions, now)
  {
  }

  lemma StatusStep(db: DB, now: Time, id: OrganizationId, status: OrganizationStatus)
    requires TenantSafe(db.tenancy, db.refresh.sessions, now)
    ensures var after := SetStatus(db, now, id, status).0;
            TenantSafe(after.tenancy, after.refresh.sessions, now)
  {
    hide TenantSafe, RevokeWhere, DropPendingCodesOf;
    if id in db.tenancy.organizations {
      StatusKeeps(db.tenancy, db.refresh.sessions, now, id, status);
    }
  }

  /** Writing any other status than 'active' revokes the member's live sessions in the tenant. */
  lemma MembershipKeeps(t: Tenancy, r: RefreshTables, now: Time, p: MembershipParams)
    requires TenantSafe(t, r.sessions, now)
    ensures TenantSafe(WithMembership(t, p), EndMemberSessions(r, now, p).sessions, now)
    ensures p.status == MemberActive ==> TenantSafe(WithMembership(t, p), r.sessions, now)
  {
  }

  lemma MembershipStep(db: DB, now: Time, p: MembershipParams)
    requires TenantSafe(db.tenancy, db.refresh.sessions, now)
    ensures var after := UpsertMembership(db, now, p).0;
            TenantSafe(after.tenancy, after.refresh.sessions, now)
  {
    hide TenantSafe, EndMemberSessions, MembershipError, DropPendingCodesOfMember;
    MembershipKeeps(db.tenancy, db.refresh, now, p);
  }

  lemma ManagerStep(db: DB, now: Time, manager: PrincipalId, p: MembershipParams)
    requires TenantSafe(db.tenancy, db.refresh.sessions, now)
    ensures var after := UpsertMembershipAsManager(db, now, manager, p).0;
            TenantSafe(after.tenancy, after.refresh.sessions, now)
  {
    hide TenantSafe, EndMemberSessions, LockManagerContext, ManagerWriteError;
    MembershipKeeps(db.tenancy, db.refresh, now, p);
  }

  lemma JoinKeeps(t: Tenancy, sessions: map<SessionId, Session>, now: Time, id: OrganizationId, principal: PrincipalId)
    requires TenantSafe(t, sessions, now)
    ensures TenantSafe(Join(t, id, principal).0, sessions, now)
  {
  }

  lemma PromoteKeeps(t: Tenancy, rbac: RoleTables, sessions: map<SessionId, Session>, now: Time, user: UserId)
    requires TenantSafe(t, sessions, now)
    ensures TenantSafe(Promote(t, rbac, user).0, sessions, now)
  {
  }

  lemma TenantStep(db: DB, now: Time, op: TenantOp)
    requires TenantSafe(db.tenancy, db.refresh.sessions, now)
    ensures var after := ApplyTenant(db, now, op); TenantSafe(after.tenancy, after.refresh.sessions, now)
  {
    match op
    case NewOrganization(_, _) =>
    case ChangeStatus(id, status) => StatusStep(db, now, id, status);
    case PutMembership(p) => MembershipStep(db, now, p);
    case PutMembershipAsManager(manager, p) => ManagerStep(db, now, manager, p);
    case JoinOrganization(id, principal) => JoinKeeps(db.tenancy, db.refresh.sessions, now, id, principal);
    case PromoteUser(user) => PromoteKeeps(db.tenancy, db.rbac, db.refresh.sessions, now, user);
  }

  /** An account that stays active, or whose sessions are all revoked. */
  lemma AccountKeeps(t: Tenancy, r: RefreshTables, now: Time, user: UserId, row: User, reason: RevokeReason)
    requires TenantSafe(t, r.sessions, now)
    ensures var after := t.(users := t.users[user := row]);
            && TenantSafe(after, RevokeUserSessions(r, user, now, reason).sessions, now)
            && (row.active || (user in t.users && row.active == t.users[user].active)
                ==> TenantSafe(after, r.sessions, now))
  {
  }

  lemma DeleteKeeps(db: DB, now: Time, user: UserId)
    requires TenantSafe(db.tenancy, db.refresh.sessions, now)
    ensures var after := DeleteUser(db, now, user).0;
            TenantSafe(after.tenancy, after.refresh.sessions, now)
  {
    var after := DeleteUser(db, now, user).0;
    forall sid | sid in after.refresh.sessions
      ensures after.refresh.sessions[sid].principal in after.tenancy.principals
      ensures Live(after.refresh.sessions[sid], now) ==> Backed(after.tenancy, after.refresh.sessions[sid])
    {
      assert sid in db.refresh.sessions;
    }
  }

  lemma UpdateKeeps(db: DB, now: Time, user: UserId, u: UserUpdate)
    requires TenantSafe(db.tenancy, db.refresh.sessions, now)
    ensures var after := UpdateUser(db, now, user, u).0;
            TenantSafe(after.tenancy, after.refresh.sessions, now)
  {
    hide TenantSafe, RevokeUserSessions, ProofsAfterUpdate, NameOrEmailTaken;
    if user in db.tenancy.users {
      var row := UpdatedUser(db.tenancy.users[user], u);
      AccountKeeps(db.tenancy, db.refresh, now, user, row, UserDisabled);
      AccountKeeps(db.tenancy, db.refresh, now, user, row, PasswordUpdated);
    }
  }

  lemma PasswordKeeps(t: Tenancy, r: RefreshTables, now: Time, user: UserId, hash: Text, required: bool,
                      reason: RevokeReason)
    requires TenantSafe(t, r.sessions, now) && user in t.users
    ensures TenantSafe(WithPassword(t, user, hash, required), RevokeUserSessions(r, user, now, reason).sessions, now)
  {
    AccountKeeps(t, r, now, user, WithPassword(t, user, hash, required).users[user], reason);
  }

  lemma UserStep(db: DB, now: Time, op: UserOp)
    requires TenantSafe(db.tenancy, db.refresh.sessions, now)
    ensures var after := ApplyUser(db, now, op); TenantSafe(after.tenancy, after.refresh.sessions, now)
  {
    hide RevokeUserSessions, UpdateUser, DeleteUser, NameOrEmailTaken, HasPlatformRole, FirstRoleError, Bind;
    var t, r := db.tenancy, db.refresh;
    match op
    case NewUser(user, row) =>
    case ProvisionUser(user, row, roles, _) =>
    case ChangeClass(user, userClass) =>
    case ChangeUser(user, update) => UpdateKeeps(db, now, user, update);
    case ChangeActive(user, active) =>
      if user in t.users {
        AccountKeeps(t, r, now, user, t.users[user].(active := active), UserDisabled);
      }
    case RemoveUser(user) => DeleteKeeps(db, now, user);
    case AdminResetPassword(user, hash) =>
      if user in t.users {
        PasswordKeeps(t, r, now, user, hash, true, PasswordWasReset);
      }
    case OwnPasswordChange(user, verified, hash) =>
      if user in t.users {
        PasswordKeeps(t, r, now, user, hash, false, PasswordChanged);
      }
    case VerifyEmail(user) =>
  }

  /** No session of the account can be refreshed any more. */
  ghost predicate NoLiveSessionOf(r: RefreshTables, user: UserId) {
    forall sid | sid in r.sessions && r.sessions[sid].principal == UserPrincipal(user) :: r.sessions[sid].revoked.Some?
  }

  lemma RevocationEndsAll(r: RefreshTables, user: UserId, now: Time, reason: RevokeReason)
    ensures NoLiveSessionOf(RevokeUserSessions(r, user, now, reason), user)
  {
  }

  /** Disabling or deleting an account, and replacing its password in any way, ends all of its
    * sessions, scoped or not. */
  lemma AccountChangesEndSessions(db: DB, now: Time, user: UserId, u: UserUpdate, hash: Text)
    requires user in db.tenancy.users
    ensures NoLiveSessionOf(SetUserActive(db, now, user, false).0.refresh, user)
    ensures NoLiveSessionOf(DeleteUser(db, now, user).0.refresh, user)
    ensures NoLiveSessionOf(ResetUserPassword(db, now, user, hash).0.refresh, user)
    ensures ChangeUserPassword(db, now, user, true, hash).1
            ==> NoLiveSessionOf(ChangeUserPassword(db, now, user, true, hash).0.refresh, user)
    ensures UpdateUser(db, now, user, u).1.Ok? && (u.active == Some(false) || u.passwordHash.Some?)
            ==> NoLiveSessionOf(UpdateUser(db, now, user, u).0.refresh, user)
  {
    hide RevokeUserSessions, NoLiveSessionOf, NameOrEmailTaken, ProofsAfterUpdate, DeleteUser;
    RevocationEndsAll(db.refresh, user, now, UserDisabled);
    RevocationEndsAll(db.refresh, user, now, PasswordWasReset);
    RevocationEndsAll(db.refresh, user, now, PasswordChanged);
    RevocationEndsAll(db.refresh, user, now, PasswordUpdated);
    DeletionEndsAll(db, now, user);
  }

  lemma DeletionEndsAll(db: DB, now: Time, user: UserId)
    requires user in db.tenancy.users
    ensures NoLiveSessionOf(DeleteUser(db, now, user).0.refresh, user)
  {
    hide WithoutProofsOf;
  }

  /** What the bulk revocations are for: afterwards none of the sessions they are about can be
    * refreshed, and every other session is as it was. */
  lemma BulkRevocationsEnd(r: RefreshTables, now: Time, reason: Option<RevokeReason>, principal: PrincipalId,
                           client: ClientId, organization: OrganizationId, sid: SessionId)
    requires sid in r.sessions
    ensures var s := r.sessions[sid];
            && Ends(r, RevokeMatching(r, now, OfPrincipal(principal), reason), now, sid, s.principal == principal)
            && Ends(r, RevokeMatching(r, now, OfClient(client), reason), now, sid, s.client == client)
            && Ends(r, RevokeMatching(r, now, OfPrincipalClient(principal, client), reason), now, sid,
                    s.principal == principal && s.client == client)
            && Ends(r, RevokeMatching(r, now, OfOrganization(organization), reason), now, sid,
                    s.organization == Some(organization))
  {
  }

  predicate Ends(before: RefreshTables, after: RefreshTables, now: Time, sid: SessionId, meant: bool)
    requires sid in before.sessions
  {
    && sid in after.sessions
    && (if meant then !Live(after.sessions[sid], now) else after.sessions[sid] == before.sessions[sid])
  }

  lemma RoleStep(db: DB, now: Time, op: RoleOp)
    requires TenantSafe(db.tenancy, db.refresh.sessions, now)
    ensures var after := ApplyRole(db, op); TenantSafe(after.tenancy, after.refresh.sessions, now)
  {
  }

  lemma ProofStep(db: DB, now: Time, op: ProofOp)
    requires TenantSafe(db.tenancy, db.refresh.sessions, now)
    ensures var after := ApplyProof(db, now, op); TenantSafe(after.tenancy, after.refresh.sessions, now)
  {
    hide TenantSafe, RevokeUserSessions, RevokePendingProofs, RevokeIfPending;
    match op
    case UseResetProof(token, hash) =>
      if token in db.proofs.reset && db.proofs.reset[token].user in db.tenancy.users {
        PasswordKeeps(db.tenancy, db.refresh, now, db.proofs.reset[token].user, hash, true, PasswordWasReset);
      }
    case UseEmailProof(token) =>
      if token in db.proofs.email && db.proofs.email[token].user in db.tenancy.users {
        var user := db.proofs.email[token].user;
        AccountKeeps(db.tenancy, db.refresh, now, user, db.tenancy.users[user].(emailVerified := true), UserDisabled);
      }
    case _ =>
  }

  lemma Preserved(w: World, now: Time, op: Op)
    requires TenantSafe(w.db.tenancy, w.db.refresh.sessions, w.clock) && Enabled(w, now, op)
    ensures var after := Apply(w, now, op); TenantSafe(after.tenancy, after.refresh.sessions, now)
  {
    hide TenantSafe, ApplySession, ApplyTenant, ApplyUser, ApplyRole, ApplyCode, ApplyProof;
    Tick(w.db.tenancy, w.db.refresh.sessions, w.clock, now);
    match op
    case OnSession(o) =>
      SessionStep(w.db.tenancy, w.db.refresh, w.hist.handlers.managementPending, now, o);
    case OnTenant(o) => TenantStep(w.db, now, o);
    case OnUser(o) => UserStep(w.db, now, o);
    case OnRole(o) => RoleStep(w.db, now, o);
    case OnCode(o) =>
    case OnProof(o) => ProofStep(w.db, now, o);
  }

  /** In every state of every run, a live scoped session has an active organization, an active
    * membership of its principal in it, and an active account. */
  lemma {:induction false} TenantInvariant(states: seq<World>, steps: seq<Step>, i: nat)
    requires IsRun(states, steps) && i < |states|
    ensures TenantSafe(states[i].db.tenancy, states[i].db.refresh.sessions, states[i].clock)
  {
    hide Apply, NextHistory;
    if i > 0 {
      TenantInvariant(states, steps, i - 1);
      Preserved(states[i - 1], steps[i - 1].now, steps[i - 1].op);
    }
  }
}
