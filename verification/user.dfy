/** Account transactions (src/db/user.rs). Password hashing and verification are parameters. */
module Users {
  import opened Schema
  import opened RefreshSession
  import opened Organizations
  import opened PlatformRoles

  /** `username` and `email` are UNIQUE. */
  predicate NameOrEmailTaken(users: map<UserId, User>, except: UserId, username: Text, email: Text) {
    exists u | u in users && u != except :: users[u].username == username || users[u].email == email
  }

  function CreateUser(t: Tenancy, id: UserId, row: User): (r: (Tenancy, Result<User>)) {
    if id in t.users || NameOrEmailTaken(t.users, id, row.username, row.email) then
      (t, Err(ConstraintViolated))
    else
      (t.(users := t.users[id := row]), Ok(row))
  }

  function SetUserClass(t: Tenancy, rbac: RoleTables, user: UserId, userClass: UserClass)
    : (r: (Tenancy, Result<Option<User>>))
  {
    if user !in t.users then
      (t, Ok(None))
    else if t.users[user].userClass != userClass && HasPlatformRole(rbac, user) then
      (t, Err(if userClass == ExternalCustomer then CannotDemoteUserWithPlatformRoles
              else CannotPromoteUserWithExistingPlatformRoles))
    else
      var row := t.users[user].(userClass := userClass);
      (t.(users := t.users[user := row]), Ok(Some(row)))
  }

  datatype UserUpdate = UserUpdate(
    username: Option<Text>,
    email: Option<Text>,
    passwordHash: Option<Text>,
    active: Option<bool>)

  function GetOr<T>(o: Option<T>, default: T): T {
    if o.Some? then o.value else default
  }

  function UpdatedUser(row: User, u: UserUpdate): User {
    row.(username := GetOr(u.username, row.username),
         email := GetOr(u.email, row.email),
         emailVerified := row.emailVerified && GetOr(u.email, row.email) == row.email,
         passwordHash := Coalesce(u.passwordHash, row.passwordHash),
         active := GetOr(u.active, row.active))
  }

  predicate Pending(p: Proof) {
    p.consumed.None? && p.revoked.None?
  }

  /** Every pending proof of the account, `consumed_at IS NULL AND revoked_at IS NULL`, is revoked. */
  function RevokePendingProofs(proofs: map<Token, Proof>, user: UserId, now: Time): map<Token, Proof> {
    map x | x in proofs ::
      if proofs[x].user == user && Pending(proofs[x]) then proofs[x].(revoked := Some(now)) else proofs[x]
  }

  /** `principal_id IN (SELECT id FROM principals WHERE principal_type = 'user' AND ref_id = $1)`;
    * sessions reference existing principals, so the subquery is the comparison below. */
  function RevokeUserSessions(r: RefreshTables, user: UserId, now: Time, reason: RevokeReason): RefreshTables {
    r.(sessions := RevokeWhere(r.sessions, OfPrincipal(UserPrincipal(user)), now, Some(reason)))
  }

  function ProofsAfterUpdate(p: ProofTables, user: UserId, emailChanged: bool, now: Time): ProofTables {
    if emailChanged
    then ProofTables(RevokePendingProofs(p.reset, user, now), RevokePendingProofs(p.email, user, now))
    else p
  }

  function SessionsAfterUpdate(r: RefreshTables, user: UserId, u: UserUpdate, now: Time): RefreshTables {
    if u.active == Some(false) then RevokeUserSessions(r, user, now, UserDisabled)
    else if u.passwordHash.Some? then RevokeUserSessions(r, user, now, PasswordUpdated)
    else r
  }

  function UpdateUser(db: DB, now: Time, user: UserId, u: UserUpdate): (r: (DB, Result<Option<User>>)) {
    if user !in db.tenancy.users then
      (db, Ok(None))
    else
      var previous := db.tenancy.users[user];
      var row := UpdatedUser(previous, u);
      if NameOrEmailTaken(db.tenancy.users, user, row.username, row.email) then
        (db, Err(ConstraintViolated))
      else
        (db.(tenancy := db.tenancy.(users := db.tenancy.users[user := row]),
             proofs := ProofsAfterUpdate(db.proofs, user, row.email != previous.email, now),
             refresh := SessionsAfterUpdate(db.refresh, user, u, now)),
         Ok(Some(row)))
  }

  function SetUserActive(db: DB, now: Time, user: UserId, active: bool): (r: (DB, bool)) {
    if user !in db.tenancy.users then
      (db, false)
    else
      var users := db.tenancy.users[user := db.tenancy.users[user].(active := active)];
      (db.(tenancy := db.tenancy.(users := users),
           refresh := if active then db.refresh else RevokeUserSessions(db.refresh, user, now, UserDisabled)),
       true)
  }

  /** Sessions, and through them their tokens, reference the principal ON DELETE CASCADE. */
  function WithoutPrincipalSessions(r: RefreshTables, principal: PrincipalId): RefreshTables {
    var sessions := map sid | sid in r.sessions && r.sessions[sid].principal != principal :: r.sessions[sid];
    r.(sessions := sessions, tokens := map x | x in r.tokens && r.tokens[x].session in sessions :: r.tokens[x])
  }

  function WithoutProofsOf(proofs: map<Token, Proof>, user: UserId): map<Token, Proof> {
    map x | x in proofs && proofs[x].user != user :: proofs[x]
  }

  /** Rows that reference the account or its principal go with them (ON DELETE CASCADE). */
  function DeleteUser(db: DB, now: Time, user: UserId): (r: (DB, bool)) {
    if user !in db.tenancy.users then
      (db, false)
    else
      var principal := UserPrincipal(user);
      var t := db.tenancy;
      (DB(Tenancy(t.organizations, t.principals - {principal}, t.users - {user},
                  map k | k in t.memberships && k.1 != principal :: t.memberships[k]),
          WithoutPrincipalSessions(RevokeUserSessions(db.refresh, user, now, UserDeleted), principal),
          db.oidc.(codes := map c | c in db.oidc.codes && db.oidc.codes[c].user != user :: db.oidc.codes[c]),
          db.rbac.(ofUser := (set b | b in db.rbac.ofUser && b.0 != user),
                   ofPrincipal := (set b | b in db.rbac.ofPrincipal && b.0 != principal)),
          ProofTables(WithoutProofsOf(db.proofs.reset, user), WithoutProofsOf(db.proofs.email, user))),
       true)
  }

  function WithPassword(t: Tenancy, user: UserId, hash: Text, changeRequired: bool): Tenancy
    requires user in t.users
  {
    t.(users := t.users[user := t.users[user].(passwordHash := Some(hash), passwordChangeRequired := changeRequired)])
  }

  function ResetUserPassword(db: DB, now: Time, user: UserId, hash: Text): (r: (DB, bool)) {
    if user !in db.tenancy.users then
      (db, false)
    else
      (db.(tenancy := WithPassword(db.tenancy, user, hash, true),
           refresh := RevokeUserSessions(db.refresh, user, now, PasswordWasReset)),
       true)
  }

  /** `verified` is bcrypt's answer for the current password. */
  function ChangeUserPassword(db: DB, now: Time, user: UserId, verified: bool, hash: Text): (r: (DB, bool)) {
    var users := db.tenancy.users;
    if user !in users || !users[user].active || users[user].passwordHash.None? || !verified then
      (db, false)
    else
      (db.(tenancy := WithPassword(db.tenancy, user, hash, false),
           refresh := RevokeUserSessions(db.refresh, user, now, PasswordChanged)),
       true)
  }

  function MarkEmailVerified(t: Tenancy, user: UserId): (r: (Tenancy, bool)) {
    if user !in t.users || t.users[user].emailVerified then (t, false)
    else (t.(users := t.users[user := t.users[user].(emailVerified := true)]), true)
  }

  /** One account, its principal and its role bindings, or nothing. `seen` are the role rows that
    * the transaction read, without locking them, before it checked and bound the roles. */
  function Provision(db: DB, id: UserId, row: User, roleIds: seq<RoleId>, seen: map<RoleId, Role>)
    : (r: (DB, Result<User>))
  {
    var t := db.tenancy;
    if id in t.users || NameOrEmailTaken(t.users, id, row.username, row.email) || UserPrincipal(id) in t.principals then
      (db, Err(ConstraintViolated))
    else
      var error := FirstRoleError(seen, roleIds, row.userClass, RoleNotBound);
      if error.Some? then
        (db, Err(error.value))
      else if exists role | role in roleIds :: role !in db.rbac.roles then
        (db, Err(ConstraintViolated))
      else
        (db.(tenancy := t.(users := t.users[id := row],
                           principals := t.principals[UserPrincipal(id) := Principal(true)]),
             rbac := Bind(db.rbac, id, roleIds)),
         Ok(row))
  }
}
