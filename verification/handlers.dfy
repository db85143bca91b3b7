/** The token handlers of src/handlers/auth.rs, each of which runs several transactions in a row. */
module AuthHandlers {
  import opened Schema
  import opened RefreshSession
  import opened LegacyTokens
  import opened Organizations
  import opened PlatformRoles
  import opened World
  import opened HandlerSteps
  import opened HandlerRuns
  import opened DatabaseTransactions

  /** `auth_refresh` as the steps it takes: `ops` is the log of its transactions. Run undisturbed from
    * any world with this database they have this effect; with fresh identifiers each is a step that
    * runs allow; and an answer means that one of them redeemed the token. */
  method AuthRefresh(db: Database, clients: Clients, now: Time, q: RefreshRequest, ghost clock: Time,
                     ghost hist: History)
    returns (answered: bool, ghost ops: seq<Op>)
    modifies db
    ensures (db.View(), answered) == Refresh(old(db.View()), clients, now, q)
    ensures ops == RefreshOps(old(db.View()), clients, now, q)
    ensures db.View() == After(World(clock, old(db.View()), hist), now, ops).db
    ensures clock <= now && FreshRequest(hist, q) ==> CanRun(World(clock, old(db.View()), hist), now, ops)
    ensures answered ==> SomeRedeems(World(clock, old(db.View()), hist), now, ops, q.rotate.token)
  {
    hide ActiveMembership, Rotate, ConsumeLegacy, Create, RevokeByToken, After, CanRun, FreshRequest, SomeRedeems;
    RefreshRuns(World(clock, db.View(), hist), clients, now, q);
    ops := [];
    var organization := q.rotate.expectedOrganization;
    if organization.Some? {
      if q.principal.None? || q.principal.value.kind != UserKind {
        return false, ops;
      }
      if ActiveMembership(db.tenancy, organization.value, q.principal.value).None? {
        var _ := db.RevokeRefreshSessionByToken(now, q.rotate.token, Some(MembershipInactive));
        ops := ops + [OnSession(RevokeToken(q.rotate.token, Some(MembershipInactive)))];
        return false, ops;
      }
    }
    var outcome, _ := db.ConsumeAndRotateRefreshSession(now, q.rotate);
    ops := ops + [OnSession(RotateSession(q.rotate))];
    match outcome {
      case Consumed(_, principal, _, _, _) =>
        if principal !in db.tenancy.principals || !db.tenancy.principals[principal].active {
          return false, ops;
        }
        return AccessClaims(db.tenancy, clients, principal), ops;
      case NotFound =>
        if organization.Some? {
          return false, ops;
        }
      case _ =>
        return false, ops;
    }
    var client := db.ConsumeRefreshToken(now, q.rotate.token);
    ops := ops + [OnSession(LegacyConsume(q.rotate.token))];
    if client.None? || client.value !in clients {
      return false, ops;
    }
    var principal := PrincipalId(ClientKind, client.value);
    db.tenancy := UpsertPrincipal(db.tenancy, principal, clients[client.value].active);
    ops := ops + [OnRole(PutPrincipal(principal, clients[client.value].active))];
    if !AccessClaims(db.tenancy, clients, principal) {
      return false, ops;
    }
    var created, _ := db.CreateRefreshSession(Migrated(q, client.value));
    ops := ops + [OnSession(CreateSession(Migrated(q, client.value)))];
    return created.Ok?, ops;
  }

  /** `auth_logout_refresh_token`: its last transaction completes a logout with the token. */
  method AuthLogout(db: Database, now: Time, token: Token, reason: RevokeReason, ghost clock: Time, ghost hist: History)
    returns (ghost ops: seq<Op>)
    modifies db
    ensures db.View() == old(db.View()).(refresh := LoggedOut(old(db.refresh), now, token, reason))
    ensures ops == LogoutOps(old(db.refresh), token, reason)
    ensures db.View() == After(World(clock, old(db.View()), hist), now, ops).db
    ensures clock <= now && token !in hist.handlers.managementPending ==>
              CanRun(World(clock, old(db.View()), hist), now, ops)
    ensures LastLogsOut(World(clock, old(db.View()), hist), now, ops, token)
  {
    hide RevokeByToken, RevokeLegacyByToken, After, CanRun, LastLogsOut;
    LogoutRuns(World(clock, db.View(), hist), now, token, reason);
    var session := db.RevokeRefreshSessionByToken(now, token, Some(reason));
    ops := [OnSession(RevokeToken(token, Some(reason)))];
    if session.None? {
      var _ := db.RevokeRefreshTokenByToken(token);
      ops := ops + [OnSession(LegacyRevokeToken(token))];
    }
  }

  /** `admin_token` for an authenticated client: the session policy, then the session row, then the
    * older row, both under the expiry of the signed token. Where the policy applies, success leaves
    * the client the new session and no other. */
  method AdminToken(db: Database, clients: Clients, now: Time, login: Login, ghost clock: Time, ghost hist: History)
    returns (r: Result<()>, ghost ops: seq<Op>)
    modifies db
    ensures (db.View(), r) == Managed(old(db.View()), clients, now, login)
    ensures ops == ManagedOps(old(db.View()), clients, now, login)
    ensures db.View() == After(World(clock, old(db.View()), hist), now, ops).db
    ensures clock <= now && FreshLogin(hist, login) ==> CanRun(World(clock, old(db.View()), hist), now, ops)
    ensures r.Ok? && login.single ==> OnlyLive(db.refresh, SessionOf(login).principal, login.session, now)
  {
    hide Create, CreateLegacy, After, CanRun, FreshLogin, HasLive, OnlyLive;
    ManagedRuns(World(clock, db.View(), hist), clients, now, login);
    PolicyLeavesOne(db.View(), clients, now, login);
    ops := [];
    var p := SessionOf(login);
    var known := login.client in clients;
    if known {
      db.tenancy := UpsertPrincipal(db.tenancy, p.principal, clients[login.client].active);
      ops := ops + [OnRole(PutPrincipal(p.principal, clients[login.client].active))];
      if login.single {
        if HasLive(db.refresh, p.principal, now) {
          if !login.force {
            return Err(ActiveSessionExists), ops;
          }
          db.refresh := RevokeMatching(db.refresh, now, OfPrincipal(p.principal), Some(SessionTakeover));
          ops := ops + [OnSession(RevokeMany(OfPrincipal(p.principal), Some(SessionTakeover)))];
        }
      }
      var created, _ := db.CreateRefreshSession(p);
      ops := ops + [OnSession(ManagementSession(p))];
      if created.Err? {
        return created, ops;
      }
    } else {
      ops := ops + [OnSession(ManagementNoPrincipal(login.token, login.expires))];
    }
    r := db.CreateRefreshToken(known, login.tokenId, login.client, login.token, ToTimestamp(login.expires));
    ops := ops + [LegacyRowOp(login, known)];
  }
}
