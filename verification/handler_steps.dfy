/** What the token handlers of src/handlers/auth.rs do, and which steps of a run that is. */
module HandlerSteps {
  import opened Schema
  import opened RefreshSession
  import opened LegacyTokens
  import opened Organizations
  import opened PlatformRoles
  import opened World
  import opened TwoStores

  /** A row of `clients`; the handlers only read that table. */
  datatype Client = Client(active: bool, admin: bool)

  type Clients = map<ClientId, Client>

  /** Whether `access_claims_for_principal` grants an access token. */
  predicate AccessClaims(t: Tenancy, clients: Clients, principal: PrincipalId) {
    match principal.kind
    case UserKind => principal.refId in t.users && t.users[principal.refId].active
    case ClientKind => principal.refId in clients && clients[principal.refId].active && clients[principal.refId].admin
    case _ => false
  }

  /** A decoded refresh token and what is generated for it: the replacement, and the session and the
    * token that take over from an older row. */
  datatype RefreshRequest = RefreshRequest(
    rotate: RotateParams,
    principal: Option<PrincipalId>,
    newSession: SessionId,
    migratedToken: Token,
    newExpires: int)

  predicate UserClaim(q: RefreshRequest) {
    q.principal.Some? && q.principal.value.kind == UserKind
  }

  /** The session that takes over from an older row. */
  function Migrated(q: RefreshRequest, client: ClientId): CreateParams {
    CreateParams(q.newSession, PrincipalId(ClientKind, client), client, None, q.rotate.newTokenId, q.migratedToken,
                 q.newExpires)
  }

  /** The compatibility path for tokens of the older table. */
  function LegacyRefresh(db: DB, clients: Clients, now: Time, q: RefreshRequest): (DB, bool) {
    var consumed := ConsumeLegacy(db.refresh, now, q.rotate.token);
    var db1 := db.(refresh := consumed.0);
    if consumed.1.None? || consumed.1.value !in clients then
      (db1, false)
    else
      var client := consumed.1.value;
      var t := UpsertPrincipal(db1.tenancy, PrincipalId(ClientKind, client), clients[client].active);
      if !AccessClaims(t, clients, PrincipalId(ClientKind, client)) then
        (db1.(tenancy := t), false)
      else
        var created := Create(t, db1.refresh, Migrated(q, client));
        (db1.(tenancy := t, refresh := created.0), created.1.Ok?)
  }

  /** `auth_refresh`: the database afterwards, and whether new tokens are handed out. */
  function Refresh(db: DB, clients: Clients, now: Time, q: RefreshRequest): (DB, bool) {
    var organization := q.rotate.expectedOrganization;
    if organization.Some? && !UserClaim(q) then
      (db, false)
    else if organization.Some? && ActiveMembership(db.tenancy, organization.value, q.principal.value).None? then
      (db.(refresh := RevokeByToken(db.refresh, now, q.rotate.token, Some(MembershipInactive)).0), false)
    else
      var rotated := Rotate(db.tenancy, db.refresh, now, q.rotate);
      var db1 := db.(refresh := rotated.0);
      match rotated.1
      case Consumed(_, principal, _, _, _) =>
        (db1, && principal in db.tenancy.principals
              && db.tenancy.principals[principal].active
              && AccessClaims(db.tenancy, clients, principal))
      case NotFound => if organization.Some? then (db1, false) else LegacyRefresh(db1, clients, now, q)
      case _ => (db1, false)
  }

  function LegacyOps(r: RefreshTables, clients: Clients, now: Time, q: RefreshRequest): seq<Op> {
    var consumed := ConsumeLegacy(r, now, q.rotate.token).1;
    if consumed.None? || consumed.value !in clients then
      [OnSession(LegacyConsume(q.rotate.token))]
    else
      var principal, row := PrincipalId(ClientKind, consumed.value), clients[consumed.value];
      if row.active && row.admin then
        [OnSession(LegacyConsume(q.rotate.token)), OnRole(PutPrincipal(principal, row.active)),
         OnSession(CreateSession(Migrated(q, consumed.value)))]
      else
        [OnSession(LegacyConsume(q.rotate.token)), OnRole(PutPrincipal(principal, row.active))]
  }

  /** The transactions of `auth_refresh`, in order. */
  function RefreshOps(db: DB, clients: Clients, now: Time, q: RefreshRequest): seq<Op> {
    var organization := q.rotate.expectedOrganization;
    if organization.Some? && !UserClaim(q) then
      []
    else if organization.Some? && ActiveMembership(db.tenancy, organization.value, q.principal.value).None? then
      [OnSession(RevokeToken(q.rotate.token, Some(MembershipInactive)))]
    else
      var rotated := Rotate(db.tenancy, db.refresh, now, q.rotate);
      [OnSession(RotateSession(q.rotate))]
      + if rotated.1.NotFound? && organization.None? then LegacyOps(rotated.0, clients, now, q) else []
  }

  /** `auth_logout_refresh_token`. */
  function LoggedOut(r: RefreshTables, now: Time, token: Token, reason: RevokeReason): RefreshTables {
    var revoked := RevokeByToken(r, now, token, Some(reason));
    if revoked.1.Some? then revoked.0 else RevokeLegacyByToken(revoked.0, token)
  }

  function LogoutOps(r: RefreshTables, token: Token, reason: RevokeReason): seq<Op> {
    if token in r.tokens then [OnSession(RevokeToken(token, Some(reason)))]
    else [OnSession(RevokeToken(token, Some(reason))), OnSession(LegacyRevokeToken(token))]
  }

  /** What a management login generates for its client; whether the session policy applies to
    * clients, and whether the request asks to take over. */
  datatype Login = Login(client: ClientId, session: SessionId, tokenId: TokenId, token: Token, expires: int,
                         single: bool, force: bool)

  function SessionOf(login: Login): CreateParams {
    CreateParams(login.session, PrincipalId(ClientKind, login.client), login.client, None, login.tokenId, login.token,
                 login.expires)
  }

  /** `has_active_refresh_session_for_principal`. */
  predicate HasLive(r: RefreshTables, principal: PrincipalId, now: Time) {
    exists sid | sid in r.sessions :: r.sessions[sid].principal == principal && Live(r.sessions[sid], now)
  }

  predicate MeetsPolicy(r: RefreshTables, now: Time, login: Login) {
    login.single && HasLive(r, SessionOf(login).principal, now)
  }

  /** `enforce_refresh_session_policy`: a live session is a conflict, or ends with all the others. */
  function AfterPolicy(r: RefreshTables, now: Time, login: Login): Option<RefreshTables> {
    if !MeetsPolicy(r, now, login) then Some(r)
    else if !login.force then None
    else Some(RevokeMatching(r, now, OfPrincipal(SessionOf(login).principal), Some(SessionTakeover)))
  }

  function PolicyOps(r: RefreshTables, now: Time, login: Login): seq<Op> {
    if MeetsPolicy(r, now, login) && login.force
    then [OnSession(RevokeMany(OfPrincipal(SessionOf(login).principal), Some(SessionTakeover)))]
    else []
  }

  /** `admin_token` for a client of the table, from its principal on. */
  function LogIn(t: Tenancy, r: RefreshTables, now: Time, login: Login): (RefreshTables, Result<()>) {
    var admitted := AfterPolicy(r, now, login);
    if admitted.None? then
      (r, Err(ActiveSessionExists))
    else
      var created := Create(t, admitted.value, SessionOf(login));
      if created.1.Err? then created
      else CreateLegacy(created.0, true, login.tokenId, login.client, login.token, ToTimestamp(login.expires))
  }

  /** `admin_token`, from the authenticated client on. */
  function Managed(db: DB, clients: Clients, now: Time, login: Login): (DB, Result<()>) {
    if login.client in clients then
      var t := UpsertPrincipal(db.tenancy, SessionOf(login).principal, clients[login.client].active);
      var done := LogIn(t, db.refresh, now, login);
      (db.(tenancy := t, refresh := done.0), done.1)
    else
      var done := CreateLegacy(db.refresh, false, login.tokenId, login.client, login.token, ToTimestamp(login.expires));
      (db.(refresh := done.0), done.1)
  }

  function LegacyRowOp(login: Login, known: bool): Op {
    OnSession(ManagementLegacy(login.tokenId, login.client, login.token, known))
  }

  function LogInOps(t: Tenancy, r: RefreshTables, now: Time, login: Login): seq<Op> {
    var admitted := AfterPolicy(r, now, login);
    if admitted.None? then
      []
    else
      PolicyOps(r, now, login) + [OnSession(ManagementSession(SessionOf(login)))]
      + if Create(t, admitted.value, SessionOf(login)).1.Ok? then [LegacyRowOp(login, true)] else []
  }

  function ManagedOps(db: DB, clients: Clients, now: Time, login: Login): seq<Op> {
    if login.client in clients then
      var principal, active := SessionOf(login).principal, clients[login.client].active;
      [OnRole(PutPrincipal(principal, active))]
      + LogInOps(UpsertPrincipal(db.tenancy, principal, active), db.refresh, now, login)
    else
      [OnSession(ManagementNoPrincipal(login.token, login.expires)), LegacyRowOp(login, false)]
  }

  /** The world after some operations at one time. */
  function After(w: World, now: Time, ops: seq<Op>): World {
    if ops == [] then w else Next(After(w, now, ops[..|ops| - 1]), now, ops[|ops| - 1])
  }

  ghost predicate CanRun(w: World, now: Time, ops: seq<Op>) {
    forall k | 0 <= k < |ops| :: Enabled(After(w, now, ops[..k]), now, ops[k])
  }

  ghost predicate SomeRedeems(w: World, now: Time, ops: seq<Op>, x: Token) {
    exists k | 0 <= k < |ops| :: Redeems(After(w, now, ops[..k]), now, ops[k], x)
  }

  ghost predicate LastLogsOut(w: World, now: Time, ops: seq<Op>, x: Token) {
    ops != [] && LogsOut(After(w, now, ops[..|ops| - 1]), ops[|ops| - 1], x)
  }

  lemma {:induction false} AfterBoth(w: World, now: Time, a: seq<Op>, b: seq<Op>)
    ensures After(w, now, a + b) == After(After(w, now, a), now, b)
  {
    hide Next;
    if b == [] {
      assert a + b == a;
    } else {
      var init := b[..|b| - 1];
      assert (a + b)[..|a + b| - 1] == a + init;
      AfterBoth(w, now, a, init);
    }
  }

  lemma BothRun(w: World, now: Time, a: seq<Op>, b: seq<Op>)
    requires CanRun(w, now, a) && CanRun(After(w, now, a), now, b)
    ensures CanRun(w, now, a + b)
  {
    hide Next, Enabled, After;
    forall k | 0 <= k < |a + b|
      ensures Enabled(After(w, now, (a + b)[..k]), now, (a + b)[k])
    {
      if k < |a| {
        assert (a + b)[..k] == a[..k];
      } else {
        assert (a + b)[..k] == a + b[..k - |a|];
        AfterBoth(w, now, a, b[..k - |a|]);
      }
    }
  }

  lemma LaterRedeems(w: World, now: Time, a: seq<Op>, b: seq<Op>, x: Token)
    requires SomeRedeems(After(w, now, a), now, b, x)
    ensures SomeRedeems(w, now, a + b, x)
  {
    hide Next, Redeems, After;
    var k :| 0 <= k < |b| && Redeems(After(After(w, now, a), now, b[..k]), now, b[k], x);
    assert (a + b)[..|a| + k] == a + b[..k];
    AfterBoth(w, now, a, b[..k]);
    assert Redeems(After(w, now, (a + b)[..|a| + k]), now, (a + b)[|a| + k], x);
  }

  lemma OneStep(w: World, now: Time, op: Op)
    ensures After(w, now, [op]) == Next(w, now, op)
    ensures Enabled(w, now, op) ==> CanRun(w, now, [op])
    ensures forall x | Redeems(w, now, op, x) :: SomeRedeems(w, now, [op], x)
  {
    hide Next, Enabled, Redeems;
    assert [op][..0] == [];
    forall x | Redeems(w, now, op, x)
      ensures SomeRedeems(w, now, [op], x)
    {
      assert Redeems(After(w, now, [op][..0]), now, [op][0], x);
    }
  }

  /** The steps that the handlers take, seen from outside. */
  lemma RotateStep(w: World, now: Time, p: RotateParams)
    ensures var after := Next(w, now, OnSession(RotateSession(p)));
            && after.clock == now
            && after.db == w.db.(refresh := Rotate(w.db.tenancy, w.db.refresh, now, p).0)
            && after.hist.secrets == w.hist.secrets + {p.token, p.newToken}
            && after.hist.sessionIds == w.hist.sessionIds
            && (RotateAnswer(w.db.tenancy, w.db.refresh, now, p).NotFound? && p.expectedOrganization.None? ==>
                  p.token in after.hist.handlers.fallback)
  {
    hide Rotate, RotateAnswer, RotationsAfter;
  }

  lemma ConsumeStep(w: World, now: Time, x: Token)
    ensures var after := Next(w, now, OnSession(LegacyConsume(x)));
            && after.clock == now
            && after.db == w.db.(refresh := ConsumeLegacy(w.db.refresh, now, x).0)
            && after.hist.secrets == w.hist.secrets
            && after.hist.sessionIds == w.hist.sessionIds
  {
    hide ConsumeLegacy, RotationsAfter;
  }

  lemma PutStep(w: World, now: Time, principal: PrincipalId, active: bool)
    ensures var after := Next(w, now, OnRole(PutPrincipal(principal, active)));
            && after.clock == now
            && after.db == w.db.(tenancy := UpsertPrincipal(w.db.tenancy, principal, active))
            && after.hist == w.hist
  {
  }

  lemma CreateStep(w: World, now: Time, p: CreateParams)
    ensures Next(w, now, OnSession(CreateSession(p))).db == w.db.(refresh := Create(w.db.tenancy, w.db.refresh, p).0)
  {
    hide Create, NextHistory;
  }

  /** The generated secrets and ids are new, and the presented token is one that was handed out. */
  ghost predicate FreshRequest(h: History, q: RefreshRequest) {
    && q.rotate.token != q.rotate.newToken && q.rotate.newToken !in h.secrets
    && q.migratedToken !in h.secrets + {q.rotate.token, q.rotate.newToken}
    && q.newSession !in h.sessionIds
    && q.rotate.token !in h.handlers.managementPending
  }

  /** The same, once the rotation has found no session. */
  ghost predicate FreshMigration(h: History, q: RefreshRequest) {
    q.rotate.token in h.handlers.fallback && q.migratedToken !in h.secrets && q.newSession !in h.sessionIds
  }

  lemma LegacyRuns(w: World, clients: Clients, now: Time, q: RefreshRequest)
    ensures var ops := LegacyOps(w.db.refresh, clients, now, q);
            var done := LegacyRefresh(w.db, clients, now, q);
            && After(w, now, ops).db == done.0
            && (w.clock <= now && FreshMigration(w.hist, q) ==> CanRun(w, now, ops))
            && (done.1 ==> SomeRedeems(w, now, ops, q.rotate.token))
  {
    hide Next, After, CanRun, SomeRedeems, ConsumeLegacy, Create;
    var x := q.rotate.token;
    var consume := OnSession(LegacyConsume(x));
    OneStep(w, now, consume);
    ConsumeStep(w, now, x);
    var ops := LegacyOps(w.db.refresh, clients, now, q);
    var consumed := ConsumeLegacy(w.db.refresh, now, x).1;
    if consumed.Some? && consumed.value in clients {
      var w1 := Next(w, now, consume);
      var principal, row := PrincipalId(ClientKind, consumed.value), clients[consumed.value];
      var put := OnRole(PutPrincipal(principal, row.active));
      OneStep(w1, now, put);
      PutStep(w1, now, principal, row.active);
      AfterBoth(w, now, [consume], [put]);
      if CanRun(w, now, [consume]) {
        BothRun(w, now, [consume], [put]);
      }
      if row.active && row.admin {
        var w2 := Next(w1, now, put);
        var create := OnSession(CreateSession(Migrated(q, consumed.value)));
        OneStep(w2, now, create);
        CreateStep(w2, now, create.session.create);
        assert ops == [consume] + [put] + [create];
        AfterBoth(w, now, [consume] + [put], [create]);
        if CanRun(w, now, [consume] + [put]) && CanRun(w2, now, [create]) {
          BothRun(w, now, [consume] + [put], [create]);
        }
        assert Redeems(w, now, consume, x);
        EarlierRedeems(w, now, [consume], [put] + [create], x);
        assert ops == [consume] + ([put] + [create]);
      } else {
        assert ops == [consume] + [put];
      }
    }
  }

  lemma EarlierRedeems(w: World, now: Time, a: seq<Op>, b: seq<Op>, x: Token)
    requires SomeRedeems(w, now, a, x)
    ensures SomeRedeems(w, now, a + b, x)
  {
    hide Next, Redeems, After;
    var k :| 0 <= k < |a| && Redeems(After(w, now, a[..k]), now, a[k], x);
    assert (a + b)[..k] == a[..k];
    assert Redeems(After(w, now, (a + b)[..k]), now, (a + b)[k], x);
  }

  /** A refresh is a sequence of steps, each allowed where it happens; if it is answered, one of
    * them redeemed the token. */
  lemma RefreshRuns(w: World, clients: Clients, now: Time, q: RefreshRequest)
    ensures var ops := RefreshOps(w.db, clients, now, q);
            var done := Refresh(w.db, clients, now, q);
            && After(w, now, ops).db == done.0
            && (w.clock <= now && FreshRequest(w.hist, q) ==> CanRun(w, now, ops))
            && (done.1 ==> SomeRedeems(w, now, ops, q.rotate.token))
  {
    hide Next, CanRun, SomeRedeems, ActiveMembership, Rotate, RotateAnswer, RevokeByToken, LegacyOps, LegacyRefresh;
    var organization := q.rotate.expectedOrganization;
    if organization.Some? && !UserClaim(q) {
      NothingRuns(w, now);
    } else if organization.Some? && ActiveMembership(w.db.tenancy, organization.value, q.principal.value).None? {
      RevokeStep(w, now, q.rotate.token, Some(MembershipInactive));
    } else {
      RotationRuns(w, clients, now, q);
    }
  }

  lemma NothingRuns(w: World, now: Time)
    ensures CanRun(w, now, []) && After(w, now, []) == w
  {
  }

  lemma RevokeStep(w: World, now: Time, x: Token, reason: Option<RevokeReason>)
    ensures var op := OnSession(RevokeToken(x, reason));
            var after := Next(w, now, op);
            && After(w, now, [op]) == after
            && after.clock == now
            && after.db == w.db.(refresh := RevokeByToken(w.db.refresh, now, x, reason).0)
            && (x !in w.db.refresh.tokens ==> x in after.hist.handlers.logoutPending)
            && (w.clock <= now && x !in w.hist.handlers.managementPending ==> CanRun(w, now, [op]))
  {
    hide RevokeByToken, RotationsAfter;
    OneStep(w, now, OnSession(RevokeToken(x, reason)));
  }

  lemma RotationRuns(w: World, clients: Clients, now: Time, q: RefreshRequest)
    requires q.rotate.expectedOrganization.Some? ==>
               UserClaim(q)
               && ActiveMembership(w.db.tenancy, q.rotate.expectedOrganization.value, q.principal.value).Some?
    ensures var ops := RefreshOps(w.db, clients, now, q);
            var done := Refresh(w.db, clients, now, q);
            && After(w, now, ops).db == done.0
            && (w.clock <= now && FreshRequest(w.hist, q) ==> CanRun(w, now, ops))
            && (done.1 ==> SomeRedeems(w, now, ops, q.rotate.token))
  {
    hide Next, After, CanRun, SomeRedeems, ActiveMembership, RotateAnswer, LegacyOps, LegacyRefresh, RevokeByToken;
    var rotate := OnSession(RotateSession(q.rotate));
    OneStep(w, now, rotate);
    RotateStep(w, now, q.rotate);
    var rotated := Rotate(w.db.tenancy, w.db.refresh, now, q.rotate);
    if rotated.1.NotFound? && q.rotate.expectedOrganization.None? {
      var w1 := Next(w, now, rotate);
      var rest := LegacyOps(w1.db.refresh, clients, now, q);
      LegacyRuns(w1, clients, now, q);
      assert RefreshOps(w.db, clients, now, q) == [rotate] + rest;
      AfterBoth(w, now, [rotate], rest);
      if CanRun(w, now, [rotate]) && CanRun(w1, now, rest) {
        BothRun(w, now, [rotate], rest);
      }
      if SomeRedeems(w1, now, rest, q.rotate.token) {
        LaterRedeems(w, now, [rotate], rest, q.rotate.token);
      }
    } else {
      assert RefreshOps(w.db, clients, now, q) == [rotate] + [];
      assert [rotate] + [] == [rotate];
    }
  }

  lemma LogoutRuns(w: World, now: Time, x: Token, reason: RevokeReason)
    ensures var ops := LogoutOps(w.db.refresh, x, reason);
            && After(w, now, ops).db == w.db.(refresh := LoggedOut(w.db.refresh, now, x, reason))
            && (w.clock <= now && x !in w.hist.handlers.managementPending ==> CanRun(w, now, ops))
            && LastLogsOut(w, now, ops, x)
  {
    hide Next, CanRun, RevokeLegacyByToken;
    var revoke := OnSession(RevokeToken(x, Some(reason)));
    RevokeStep(w, now, x, Some(reason));
    if x in w.db.refresh.tokens {
      assert [revoke][..0] == [];
    } else {
      var w1 := Next(w, now, revoke);
      var legacy := OnSession(LegacyRevokeToken(x));
      OneStep(w1, now, legacy);
      LegacyRevokeStep(w1, now, x);
      AfterBoth(w, now, [revoke], [legacy]);
      assert LogoutOps(w.db.refresh, x, reason) == [revoke] + [legacy];
      if CanRun(w, now, [revoke]) && CanRun(w1, now, [legacy]) {
        BothRun(w, now, [revoke], [legacy]);
      }
    }
  }

  lemma LegacyRevokeStep(w: World, now: Time, x: Token)
    ensures Next(w, now, OnSession(LegacyRevokeToken(x))).db == w.db.(refresh := RevokeLegacyByToken(w.db.refresh, x))
  {
    hide RevokeLegacyByToken, NextHistory;
  }

  ghost predicate FreshLogin(h: History, login: Login) {
    login.token !in h.secrets && login.session !in h.sessionIds
  }

  lemma ManagementStep(w: World, now: Time, p: CreateParams)
    ensures var after := Next(w, now, OnSession(ManagementSession(p)));
            var created := Create(w.db.tenancy, w.db.refresh, p);
            && after.clock == now
            && after.db == w.db.(refresh := created.0)
            && (created.1.Ok? ==> && p.token in after.hist.handlers.managementPending
                                  && after.hist.handlers.managementPending[p.token] == ToTimestamp(p.expires))
  {
    hide Create, RotationsAfter;
  }

  lemma NoPrincipalStep(w: World, now: Time, x: Token, expires: int)
    ensures var after := Next(w, now, OnSession(ManagementNoPrincipal(x, expires)));
            && after.clock == now
            && after.db == w.db
            && x in after.hist.handlers.managementPending
            && after.hist.handlers.managementPending[x] == ToTimestamp(expires)
  {
    hide RotationsAfter;
  }

  lemma LegacyRowStep(w: World, now: Time, id: TokenId, client: ClientId, x: Token, known: bool)
    requires x in w.hist.handlers.managementPending
    ensures Next(w, now, OnSession(ManagementLegacy(id, client, x, known))).db
            == w.db.(refresh := CreateLegacy(w.db.refresh, known, id, client, x,
                                             w.hist.handlers.managementPending[x]).0)
  {
    hide CreateLegacy, NextHistory;
  }

  /** The takeover, or nothing. */
  lemma PolicyRuns(w: World, now: Time, login: Login)
    requires AfterPolicy(w.db.refresh, now, login).Some? && w.clock == now
    ensures var ops := PolicyOps(w.db.refresh, now, login);
            var after := After(w, now, ops);
            && after.clock == now
            && after.db == w.db.(refresh := AfterPolicy(w.db.refresh, now, login).value)
            && after.hist.secrets == w.hist.secrets
            && after.hist.sessionIds == w.hist.sessionIds
            && CanRun(w, now, ops)
  {
    hide RevokeMatching, HasLive;
    var takeover := OnSession(RevokeMany(OfPrincipal(SessionOf(login).principal), Some(SessionTakeover)));
    OneStep(w, now, takeover);
  }

  /** The rest of a management login, once its principal is there. */
  lemma LogInRuns(w: World, now: Time, login: Login)
    requires w.clock == now
    ensures var ops := LogInOps(w.db.tenancy, w.db.refresh, now, login);
            && After(w, now, ops).db == w.db.(refresh := LogIn(w.db.tenancy, w.db.refresh, now, login).0)
            && (FreshLogin(w.hist, login) ==> CanRun(w, now, ops))
  {
    hide Next, After, CanRun, Create, CreateLegacy, AfterPolicy, PolicyOps;
    var p := SessionOf(login);
    var create := OnSession(ManagementSession(p));
    if AfterPolicy(w.db.refresh, now, login).Some? {
      var policy := PolicyOps(w.db.refresh, now, login);
      PolicyRuns(w, now, login);
      var w1 := After(w, now, policy);
      OneStep(w1, now, create);
      ManagementStep(w1, now, p);
      AfterBoth(w, now, policy, [create]);
      if CanRun(w1, now, [create]) {
        BothRun(w, now, policy, [create]);
      }
      if Create(w1.db.tenancy, w1.db.refresh, p).1.Ok? {
        LegacyRowRuns(w, now, policy + [create], Next(w1, now, create), login, true);
      } else {
        assert policy + [create] + [] == policy + [create];
      }
    } else {
      NothingRuns(w, now);
    }
  }

  /** A management login is a sequence of steps, each allowed where it happens. */
  lemma ManagedRuns(w: World, clients: Clients, now: Time, login: Login)
    ensures var ops := ManagedOps(w.db, clients, now, login);
            && After(w, now, ops).db == Managed(w.db, clients, now, login).0
            && (w.clock <= now && FreshLogin(w.hist, login) ==> CanRun(w, now, ops))
  {
    hide Next, After, CanRun, CreateLegacy, LogIn, LogInOps;
    var ops := ManagedOps(w.db, clients, now, login);
    if login.client in clients {
      var principal, active := SessionOf(login).principal, clients[login.client].active;
      var put := OnRole(PutPrincipal(principal, active));
      var w1 := Next(w, now, put);
      OneStep(w, now, put);
      PutStep(w, now, principal, active);
      LogInRuns(w1, now, login);
      var rest := LogInOps(w1.db.tenancy, w1.db.refresh, now, login);
      assert ops == [put] + rest;
      AfterBoth(w, now, [put], rest);
      if CanRun(w, now, [put]) && CanRun(w1, now, rest) {
        BothRun(w, now, [put], rest);
      }
    } else {
      var start := OnSession(ManagementNoPrincipal(login.token, login.expires));
      OneStep(w, now, start);
      NoPrincipalStep(w, now, login.token, login.expires);
      assert ops == [start] + [LegacyRowOp(login, false)];
      LegacyRowRuns(w, now, [start], Next(w, now, start), login, false);
    }
  }

  lemma LegacyRowRuns(w: World, now: Time, ops: seq<Op>, w1: World, login: Login, known: bool)
    requires After(w, now, ops) == w1 && w1.clock == now
    requires login.token in w1.hist.handlers.managementPending
    requires w1.hist.handlers.managementPending[login.token] == ToTimestamp(login.expires)
    ensures var legacy := LegacyRowOp(login, known);
            && After(w, now, ops + [legacy]).db
               == w1.db.(refresh := CreateLegacy(w1.db.refresh, known, login.tokenId, login.client, login.token,
                                                 ToTimestamp(login.expires)).0)
            && (CanRun(w, now, ops) ==> CanRun(w, now, ops + [legacy]))
  {
    hide Next, After, CanRun, CreateLegacy;
    var legacy := LegacyRowOp(login, known);
    OneStep(w1, now, legacy);
    LegacyRowStep(w1, now, login.tokenId, login.client, login.token, known);
    AfterBoth(w, now, ops, [legacy]);
    if CanRun(w, now, ops) {
      BothRun(w, now, ops, [legacy]);
    }
  }
}
