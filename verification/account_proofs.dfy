/** One-time account proofs (src/db/password_reset.rs and src/db/email_verification.rs). */
module AccountProofs {
  import opened Schema
  import opened Users

  predicate ResetEligible(u: User) {
    u.active && u.emailVerified && u.passwordHash.Some?
  }

  predicate EligibleByEmail(users: map<UserId, User>, identifier: Text, user: UserId) {
    user in users && ResetEligible(users[user]) && users[user].email == identifier
  }

  predicate EligibleByUsername(users: map<UserId, User>, identifier: Text, user: UserId) {
    user in users && ResetEligible(users[user]) && users[user].username == identifier
  }

  /** `eligible_user`: by email first, by username only when no email matches. */
  ghost predicate EligibleUser(users: map<UserId, User>, identifier: Text, choice: Option<UserId>) {
    match choice
    case Some(user) =>
      || EligibleByEmail(users, identifier, user)
      || (EligibleByUsername(users, identifier, user) && forall u :: !EligibleByEmail(users, identifier, u))
    case None =>
      forall u :: !EligibleByEmail(users, identifier, u) && !EligibleByUsername(users, identifier, u)
  }

  /** What `eligible_user` may answer when other requests run between its two lookups: the account
    * that it locks is eligible, but an email match may have come or gone meanwhile. */
  predicate MayBeChosen(users: map<UserId, User>, identifier: Text, choice: Option<UserId>) {
    choice.Some? ==>
      EligibleByEmail(users, identifier, choice.value) || EligibleByUsername(users, identifier, choice.value)
  }

  /** `Utc::now().timestamp() + lifetime.max(1)`. */
  function ProofExpiry(now: Time, lifetime: int): Time {
    ToTimestamp(now / MICROS_PER_SECOND + if lifetime < 1 then 1 else lifetime)
  }

  datatype NewProof = NewProof(id: ProofId, token: Token, lifetime: int)

  /** `token_hash` is UNIQUE and `id` the primary key. */
  predicate ProofConflict(proofs: map<Token, Proof>, n: NewProof) {
    n.token in proofs || exists t | t in proofs :: proofs[t].id == n.id
  }

  /** Older pending proofs of the account are revoked and one new proof takes their place. */
  function Replace(proofs: map<Token, Proof>, now: Time, user: UserId, email: Text, n: NewProof): map<Token, Proof> {
    var row := Proof(n.id, user, email, ProofExpiry(now, n.lifetime), None, None);
    RevokePendingProofs(proofs, user, now)[n.token := row]
  }

  /** `chosen` is the account that `eligible_user` selected. */
  function IssueReset(t: Tenancy, proofs: ProofTables, now: Time, chosen: Option<UserId>, n: NewProof)
    : (r: (ProofTables, Result<bool>))
  {
    if chosen.None? || chosen.value !in t.users then
      (proofs, Ok(false))
    else if ProofConflict(proofs.reset, n) then
      (proofs, Err(ConstraintViolated))
    else
      (proofs.(reset := Replace(proofs.reset, now, chosen.value, t.users[chosen.value].email, n)), Ok(true))
  }

  function IssueVerification(t: Tenancy, proofs: ProofTables, now: Time, user: UserId, n: NewProof)
    : (r: (ProofTables, Result<bool>))
  {
    if user !in t.users || !t.users[user].active || t.users[user].emailVerified then
      (proofs, Ok(false))
    else if ProofConflict(proofs.email, n) then
      (proofs, Err(ConstraintViolated))
    else
      (proofs.(email := Replace(proofs.email, now, user, t.users[user].email, n)), Ok(true))
  }

  predicate ResetInvalid(p: Proof, u: User, now: Time) {
    || !Pending(p)
    || p.expires <= now
    || !u.active
    || !u.emailVerified
    || u.passwordHash.None?
    || u.email != p.emailSnapshot
  }

  predicate VerificationInvalid(p: Proof, u: User, now: Time) {
    !Pending(p) || p.expires <= now || !u.active || u.email != p.emailSnapshot
  }

  function RevokeIfPending(proofs: map<Token, Proof>, token: Token, now: Time): map<Token, Proof> {
    if token in proofs && Pending(proofs[token]) then proofs[token := proofs[token].(revoked := Some(now))] else proofs
  }

  datatype ResetOutcome = Reset(user: UserId) | ResetRefused
  datatype VerificationOutcome = Verified(user: UserId) | VerificationRefused

  function ConsumeReset(db: DB, now: Time, token: Token, hash: Text): (r: (DB, ResetOutcome)) {
    var proofs := db.proofs.reset;
    if token !in proofs || proofs[token].user !in db.tenancy.users then
      (db, ResetRefused)
    else
      var p := proofs[token];
      if ResetInvalid(p, db.tenancy.users[p.user], now) then
        (db.(proofs := db.proofs.(reset := RevokeIfPending(proofs, token, now))), ResetRefused)
      else
        (db.(tenancy := WithPassword(db.tenancy, p.user, hash, true),
             refresh := RevokeUserSessions(db.refresh, p.user, now, PasswordWasReset),
             proofs := db.proofs.(reset :=
               RevokePendingProofs(proofs[token := p.(consumed := Some(now))], p.user, now))),
         Reset(p.user))
  }

  function ConsumeVerification(db: DB, now: Time, token: Token): (r: (DB, VerificationOutcome)) {
    var proofs := db.proofs.email;
    if token !in proofs || proofs[token].user !in db.tenancy.users then
      (db, VerificationRefused)
    else
      var p := proofs[token];
      if VerificationInvalid(p, db.tenancy.users[p.user], now) then
        (db.(proofs := db.proofs.(email := RevokeIfPending(proofs, token, now))), VerificationRefused)
      else
        (db.(tenancy := WithVerifiedEmail(db.tenancy, p.user),
             proofs := db.proofs.(email := proofs[token := p.(consumed := Some(now))])),
         Verified(p.user))
  }

  function WithVerifiedEmail(t: Tenancy, user: UserId): Tenancy
    requires user in t.users
  {
    t.(users := t.users[user := t.users[user].(emailVerified := true)])
  }

  /** `revoke_*_token` by proof id, after a failed delivery. */
  function RevokeProofId(proofs: map<Token, Proof>, id: ProofId, now: Time): map<Token, Proof> {
    map x | x in proofs ::
      if proofs[x].id == id && Pending(proofs[x]) then proofs[x].(revoked := Some(now)) else proofs[x]
  }
}
