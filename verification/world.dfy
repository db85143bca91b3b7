/** Runs: any interleaving of the modelled transactions, over one clock.
  *
  * A transaction that decides on rows it has locked is one step. One that writes on the strength of
  * rows it has only read is two, a read and a write, and a request handler that issues several
  * transactions is several: what is carried from one step to the next is part of the history, so
  * other requests may run in between.
  */
module World {
  import opened Schema
  import opened RefreshSession
  import opened LegacyTokens
  import opened Organizations
  import opened Users
  import opened PlatformRoles
  import opened Oidc
  import opened AccountProofs

  /** What request handlers carry between their transactions. */
  datatype Handlers = Handlers(
    fallback: set<Token>,                      // refreshes that go on to the legacy table
    managementPending: map<Token, Time>,       // management logins yet to write the legacy row
    logoutPending: set<Token>)                 // logouts that go on to the legacy table

  /** What unlocked reads saw, for the writes that follow them. */
  datatype Reads = Reads(
    roleIds: set<RoleId>,                      // every role id generated so far
    roleTables: set<map<RoleId, Role>>,        // role rows seen by provisionings
    syncs: set<(UserId, set<RoleId>)>,         // rows found by repairs of a user's roles
    issuing: map<Code, CodeGrant>)             // grants whose context was found, yet to be inserted

  /** Facts about the past of a run that no table stores. */
  datatype History = History(
    secrets: set<Text>,                        // every secret generated or presented so far
    sessionIds: set<SessionId>,                // every session id generated so far
    rotations: map<SessionId, nat>,            // successful rotations of each session
    issuedUnder: map<Code, ClientBoundary>,    // the client boundary each issue found
    handlers: Handlers,
    inFlight: Reads)

  datatype World = World(clock: Time, db: DB, hist: History)

  datatype SessionOp =
    | CreateSession(create: CreateParams)
    | RotateSession(rotate: RotateParams)
    | RevokeOne(sid: SessionId, reason: Option<RevokeReason>)
    | RevokeToken(token: Token, reason: Option<RevokeReason>)
    | RevokeMany(filter: SessionFilter, reason: Option<RevokeReason>)
    | ManagementSession(create: CreateParams)
    | ManagementNoPrincipal(token: Token, expires: int)
    | ManagementLegacy(id: TokenId, client: ClientId, token: Token, known: bool)
    | LegacyConsume(token: Token)
    | LegacyRevokeToken(token: Token)
    | LegacyRevokeId(id: TokenId)
    | LegacyRevokeClient(client: ClientId)
    | LegacyCleanup

  datatype TenantOp =
    | NewOrganization(id: OrganizationId, kind: OrganizationKind)
    | ChangeStatus(id: OrganizationId, status: OrganizationStatus)
    | PutMembership(membership: MembershipParams)
    | PutMembershipAsManager(manager: PrincipalId, membership: MembershipParams)
    | JoinOrganization(id: OrganizationId, principal: PrincipalId)
    | PromoteUser(user: UserId)

  datatype UserOp =
    | NewUser(user: UserId, row: User)
    | ProvisionUser(user: UserId, row: User, roles: seq<RoleId>, seen: map<RoleId, Role>)
    | ChangeClass(user: UserId, userClass: UserClass)
    | ChangeUser(user: UserId, update: UserUpdate)
    | ChangeActive(user: UserId, active: bool)
    | RemoveUser(user: UserId)
    | AdminResetPassword(user: UserId, hash: Text)
    | OwnPasswordChange(user: UserId, verified: bool, hash: Text)
    | VerifyEmail(user: UserId)

  datatype RoleOp =
    | PutPrincipal(principal: PrincipalId, active: bool)
    | NewRole(role: RoleId, row: Role)
    | RemoveRole(role: RoleId)
    | ChangeAssignable(role: RoleId, assignableTo: Assignable)
    | Grant(role: RoleId, permission: Text)
    | Withdraw(role: RoleId, permission: Text)
    | AssignBatch(user: UserId, roles: seq<RoleId>)
    | RevokeUserRole(user: UserId, role: RoleId)
    | AssignPrincipal(principal: PrincipalId, role: RoleId)
    | RevokePrincipalRole(principal: PrincipalId, role: RoleId)
    | ReadRoles
    | ReadForSync(user: UserId)
    | SyncRoles(user: UserId, rows: set<RoleId>)

  datatype CodeOp =
    | NewClient(client: ClientId, scope: ClientScope, confidential: bool, secretHash: Option<Text>,
                boundary: ClientBoundary)
    | ChangeClient(client: ClientId, scope: ClientScope, clientUpdate: ClientUpdate)
    | NewClientSecret(client: ClientId, scope: ClientScope, newSecretHash: Text)
    | ReadContext(code: Code, grant: CodeGrant)
    | NewCode(code: Code, grant: CodeGrant)
    | RedeemCode(code: Code)
    | RedeemCodeForClient(code: Code, client: ClientId, organization: Option<OrganizationId>)

  datatype ProofOp =
    | NewResetProof(identifier: Text, chosen: Option<UserId>, proof: NewProof)
    | UseResetProof(token: Token, hash: Text)
    | DropResetProof(id: ProofId)
    | NewEmailProof(user: UserId, proof: NewProof)
    | UseEmailProof(token: Token)
    | DropEmailProof(id: ProofId)

  datatype Op =
    | OnSession(session: SessionOp)
    | OnTenant(tenant: TenantOp)
    | OnUser(account: UserOp)
    | OnRole(role: RoleOp)
    | OnCode(code: CodeOp)
    | OnProof(proof: ProofOp)

  function ApplySession(t: Tenancy, r: RefreshTables, pending: map<Token, Time>, now: Time, op: SessionOp)
    : RefreshTables
  {
    match op
    case CreateSession(p) => Create(t, r, p).0
    case RotateSession(p) => Rotate(t, r, now, p).0
    case RevokeOne(sid, reason) => RevokeSession(r, now, sid, reason).0
    case RevokeToken(token, reason) => RevokeByToken(r, now, token, reason).0
    case RevokeMany(filter, reason) => RevokeMatching(r, now, filter, reason)
    case ManagementSession(p) => Create(t, r, p).0
    case ManagementNoPrincipal(_, _) => r
    case ManagementLegacy(id, client, token, known) =>
      if token in pending then CreateLegacy(r, known, id, client, token, pending[token]).0 else r
    case LegacyConsume(token) => ConsumeLegacy(r, now, token).0
    case LegacyRevokeToken(token) => RevokeLegacyByToken(r, token)
    case LegacyRevokeId(id) => RevokeLegacyById(r, id)
    case LegacyRevokeClient(client) => RevokeLegacyOfClient(r, client)
    case LegacyCleanup => CleanupLegacy(r, now)
  }

  function ApplyTenant(db: DB, now: Time, op: TenantOp): DB {
    match op
    case NewOrganization(id, kind) => db.(tenancy := CreateOrganization(db.tenancy, id, kind).0)
    case ChangeStatus(id, status) => SetStatus(db, now, id, status).0
    case PutMembership(p) => UpsertMembership(db, now, p).0
    case PutMembershipAsManager(manager, p) => UpsertMembershipAsManager(db, now, manager, p).0
    case JoinOrganization(id, principal) => db.(tenancy := Join(db.tenancy, id, principal).0)
    case PromoteUser(user) => db.(tenancy := Promote(db.tenancy, db.rbac, user).0)
  }

  function ApplyUser(db: DB, now: Time, op: UserOp): DB {
    match op
    case NewUser(user, row) => db.(tenancy := CreateUser(db.tenancy, user, row).0)
    case ProvisionUser(user, row, roles, seen) => Provision(db, user, row, roles, seen).0
    case ChangeClass(user, userClass) => db.(tenancy := SetUserClass(db.tenancy, db.rbac, user, userClass).0)
    case ChangeUser(user, update) => UpdateUser(db, now, user, update).0
    case ChangeActive(user, active) => SetUserActive(db, now, user, active).0
    case RemoveUser(user) => DeleteUser(db, now, user).0
    case AdminResetPassword(user, hash) => ResetUserPassword(db, now, user, hash).0
    case OwnPasswordChange(user, verified, hash) => ChangeUserPassword(db, now, user, verified, hash).0
    case VerifyEmail(user) => db.(tenancy := MarkEmailVerified(db.tenancy, user).0)
  }

  function ApplyRole(db: DB, op: RoleOp): DB {
    match op
    case PutPrincipal(principal, active) => db.(tenancy := UpsertPrincipal(db.tenancy, principal, active))
    case NewRole(role, row) => db.(rbac := CreateRole(db.rbac, role, row).0)
    case RemoveRole(role) => db.(rbac := DeleteRole(db.rbac, role).0)
    case ChangeAssignable(role, assignableTo) => db.(rbac := WriteAssignableTo(db.rbac, role, assignableTo))
    case Grant(role, permission) => db.(rbac := GrantPermission(db.rbac, role, permission))
    case Withdraw(role, permission) => db.(rbac := WithdrawPermission(db.rbac, role, permission))
    case AssignBatch(user, roles) => db.(rbac := AssignRolesToUser(db.tenancy, db.rbac, user, roles).0)
    case RevokeUserRole(user, role) => db.(rbac := RevokeRoleFromUser(db.tenancy, db.rbac, user, role).0)
    case AssignPrincipal(principal, role) => db.(rbac := AssignRoleToPrincipal(db.tenancy, db.rbac, principal, role).0)
    case RevokePrincipalRole(principal, role) =>
      db.(rbac := RevokeRoleFromPrincipal(db.tenancy, db.rbac, principal, role).0)
    case ReadRoles => db
    case ReadForSync(_) => db
    case SyncRoles(user, rows) => db.(rbac := InsertSynced(db.tenancy, db.rbac, user, rows))
  }

  function ApplyCode(t: Tenancy, o: OidcTables, now: Time, op: CodeOp): OidcTables {
    match op
    case NewClient(client, scope, confidential, secretHash, boundary) =>
      CreateClient(t, o, client, scope, confidential, secretHash, boundary).0
    case ChangeClient(client, scope, update) => UpdateClient(t, o, client, scope, update).0
    case NewClientSecret(client, scope, secretHash) => RotateSecret(t, o, client, scope, secretHash).0
    case ReadContext(_, _) => o
    case NewCode(code, grant) => InsertCode(t, o, code, grant).0
    case RedeemCode(code) => ConsumeCode(o, now, code).0
    case RedeemCodeForClient(code, client, organization) =>
      ConsumeCodeForClient(t, o, now, code, client, organization).0
  }

  function ApplyProof(db: DB, now: Time, op: ProofOp): DB {
    match op
    case NewResetProof(_, chosen, n) => db.(proofs := IssueReset(db.tenancy, db.proofs, now, chosen, n).0)
    case UseResetProof(token, hash) => ConsumeReset(db, now, token, hash).0
    case DropResetProof(id) => db.(proofs := db.proofs.(reset := RevokeProofId(db.proofs.reset, id, now)))
    case NewEmailProof(user, n) => db.(proofs := IssueVerification(db.tenancy, db.proofs, now, user, n).0)
    case UseEmailProof(token) => ConsumeVerification(db, now, token).0
    case DropEmailProof(id) => db.(proofs := db.proofs.(email := RevokeProofId(db.proofs.email, id, now)))
  }

  function Apply(w: World, now: Time, op: Op): DB {
    match op
    case OnSession(o) =>
      w.db.(refresh := ApplySession(w.db.tenancy, w.db.refresh, w.hist.handlers.managementPending, now, o))
    case OnTenant(o) => ApplyTenant(w.db, now, o)
    case OnUser(o) => ApplyUser(w.db, now, o)
    case OnRole(o) => ApplyRole(w.db, o)
    case OnCode(o) => w.db.(oidc := ApplyCode(w.db.tenancy, w.db.oidc, now, o))
    case OnProof(o) => ApplyProof(w.db, now, o)
  }

  predicate Created(w: World, op: SessionOp) {
    (op.CreateSession? || op.ManagementSession?) && Create(w.db.tenancy, w.db.refresh, op.create).1.Ok?
  }

  function Rotated(w: World, now: Time, op: SessionOp): Option<RotateResult> {
    if op.RotateSession? then Some(RotateAnswer(w.db.tenancy, w.db.refresh, now, op.rotate)) else None
  }

  function RotationsAfter(w: World, now: Time, op: SessionOp): map<SessionId, nat> {
    var rotations := w.hist.rotations;
    match Rotated(w, now, op)
    case Some(Consumed(sid, _, _, _, _)) =>
      if sid in rotations then rotations[sid := rotations[sid] + 1] else rotations
    case _ => if Created(w, op) then rotations[op.create.session := 0] else rotations
  }

  /** The secrets an operation generates or is presented with. */
  function SecretsOf(op: Op): set<Text> {
    match op
    case OnSession(CreateSession(p)) => {p.token}
    case OnSession(ManagementSession(p)) => {p.token}
    case OnSession(ManagementNoPrincipal(token, _)) => {token}
    case OnSession(RotateSession(p)) => {p.token, p.newToken}
    case OnSession(RevokeToken(token, _)) => {token}
    case OnCode(ReadContext(code, _)) => {code}
    case OnProof(NewResetProof(_, _, n)) => {n.token}
    case OnProof(NewEmailProof(_, n)) => {n.token}
    case _ => {}
  }

  function HandlersAfter(w: World, now: Time, op: SessionOp): Handlers {
    var h := w.hist.handlers;
    match op
    case RotateSession(p) =>
      if Rotated(w, now, op) == Some(NotFound) && p.expectedOrganization.None?
      then h.(fallback := h.fallback + {p.token}) else h
    case RevokeToken(token, _) =>
      if token in w.db.refresh.tokens then h else h.(logoutPending := h.logoutPending + {token})
    case ManagementSession(p) =>
      if Created(w, op) then h.(managementPending := h.managementPending[p.token := ToTimestamp(p.expires)]) else h
    case ManagementNoPrincipal(token, expires) =>
      h.(managementPending := h.managementPending[token := ToTimestamp(expires)])
    case ManagementLegacy(_, _, token, _) => h.(managementPending := h.managementPending - {token})
    case _ => h
  }

  /** Reads are kept: any number of requests may have made the same one. */
  function RoleReadsAfter(db: DB, inFlight: Reads, op: RoleOp): Reads {
    match op
    case NewRole(role, _) => inFlight.(roleIds := inFlight.roleIds + {role})
    case ReadRoles => inFlight.(roleTables := inFlight.roleTables + {db.rbac.roles})
    case ReadForSync(user) => inFlight.(syncs := inFlight.syncs + {(user, SyncRows(db.tenancy, db.rbac, user))})
    case _ => inFlight
  }

  function NextHistory(w: World, now: Time, op: Op): History {
    var h := w.hist.(secrets := w.hist.secrets + SecretsOf(op));
    match op
    case OnSession(o) =>
      h.(sessionIds := if o.CreateSession? || o.ManagementSession? then h.sessionIds + {o.create.session}
                       else h.sessionIds,
         rotations := RotationsAfter(w, now, o),
         handlers := HandlersAfter(w, now, o))
    case OnRole(o) => h.(inFlight := RoleReadsAfter(w.db, w.hist.inFlight, o))
    case OnCode(ReadContext(code, g)) =>
      if ClientUserContext(w.db.tenancy, w.db.oidc, g.client, g.organization, g.user)
      then h.(issuedUnder := h.issuedUnder[code := w.db.oidc.clients[g.client].boundary],
              inFlight := h.inFlight.(issuing := h.inFlight.issuing[code := g]))
      else h
    case OnCode(NewCode(code, _)) => h.(inFlight := h.inFlight.(issuing := h.inFlight.issuing - {code}))
    case _ => h
  }

  function Next(w: World, now: Time, op: Op): World {
    World(now, Apply(w, now, op), NextHistory(w, now, op))
  }

  lemma HistoryGrows(w: World, now: Time, op: Op)
    ensures var h := NextHistory(w, now, op);
            w.hist.secrets <= h.secrets && w.hist.sessionIds <= h.sessionIds && SecretsOf(op) <= h.secrets
  {
    hide RotationsAfter, HandlersAfter;
  }

  /** Generated secrets and ids are fresh, a client presents only secrets that were handed out
    * or never generated, and a handler's later step follows its earlier one. */
  ghost predicate SessionEnabled(h: History, op: SessionOp) {
    match op
    case CreateSession(p) => p.token !in h.secrets && p.session !in h.sessionIds
    case RotateSession(p) =>
      p.token != p.newToken && p.newToken !in h.secrets && p.token !in h.handlers.managementPending
    case RevokeToken(token, _) => token !in h.handlers.managementPending
    case ManagementSession(p) =>
      && p.token !in h.secrets
      && p.session !in h.sessionIds
      && p.principal == PrincipalId(ClientKind, p.client)
      && p.organization.None?
    case ManagementNoPrincipal(token, _) => token !in h.secrets
    case ManagementLegacy(_, _, token, _) => token in h.handlers.managementPending
    case LegacyConsume(token) => token in h.handlers.fallback
    case LegacyRevokeToken(token) => token in h.handlers.logoutPending
    case _ => true
  }

  ghost predicate Enabled(w: World, now: Time, op: Op) {
    && w.clock <= now
    && match op
       case OnSession(o) => SessionEnabled(w.hist, o)
       case OnUser(ProvisionUser(_, _, _, seen)) => seen in w.hist.inFlight.roleTables
       case OnRole(NewRole(role, _)) => role !in w.hist.inFlight.roleIds
       case OnRole(SyncRoles(user, rows)) => (user, rows) in w.hist.inFlight.syncs
       case OnCode(ReadContext(code, _)) => code !in w.hist.secrets
       case OnCode(NewCode(code, g)) => code in w.hist.inFlight.issuing && w.hist.inFlight.issuing[code] == g
       case OnProof(NewResetProof(identifier, chosen, n)) =>
         n.token !in w.hist.secrets && MayBeChosen(w.db.tenancy.users, identifier, chosen)
       case OnProof(NewEmailProof(_, n)) => n.token !in w.hist.secrets
       case _ => true
  }

  const NO_HISTORY: History :=
    History({}, {}, map[], map[], Handlers({}, map[], {}), Reads({}, {}, {}, map[]))

  ghost predicate Initial(w: World) {
    w.db == EMPTY_DB && w.hist == NO_HISTORY
  }

  datatype Step = Step(now: Time, op: Op)

  /** `states[i]` is the world before `steps[i]`. */
  ghost predicate IsRun(states: seq<World>, steps: seq<Step>) {
    && |states| == |steps| + 1
    && Initial(states[0])
    && forall i | 0 <= i < |steps| ::
         && Enabled(states[i], steps[i].now, steps[i].op)
         && states[i + 1] == Next(states[i], steps[i].now, steps[i].op)
  }

  /** Some run ends in this world. */
  ghost predicate Reachable(w: World) {
    exists states, steps :: IsRun(states, steps) && states[|states| - 1] == w
  }

  lemma StartIsReachable()
    ensures Reachable(World(0, EMPTY_DB, NO_HISTORY))
  {
    assert IsRun([World(0, EMPTY_DB, NO_HISTORY)], []);
  }

  lemma NextIsReachable(w: World, now: Time, op: Op)
    requires Reachable(w) && Enabled(w, now, op)
    ensures Reachable(Next(w, now, op))
  {
    hide Next, Enabled;
    var states, steps :| IsRun(states, steps) && states[|states| - 1] == w;
    var longer, more := states + [Next(w, now, op)], steps + [Step(now, op)];
    forall i | 0 <= i < |more|
      ensures Enabled(longer[i], more[i].now, more[i].op) && longer[i + 1] == Next(longer[i], more[i].now, more[i].op)
    {
      assert longer[i] == states[i];
      if i < |steps| {
        assert more[i] == steps[i] && longer[i + 1] == states[i + 1];
      }
    }
    assert IsRun(longer, more);
  }
}
