/** One-time account proofs over whole runs: at most one pending per account and kind, bound to
  * the current email, with absorbing ends. */
module ProofRuns {
  import opened Schema
  import opened RefreshSession
  import opened Organizations
  import opened Users
  import opened PlatformRoles
  import opened AccountProofs
  import opened World

  /** The proof's account exists with the email the proof was made out to; a reset proof's
    * account also has a verified email and a password to replace. */
  predicate Grounded(users: map<UserId, User>, p: Proof, reset: bool) {
    && p.user in users
    && users[p.user].email == p.emailSnapshot
    && (reset ==> users[p.user].emailVerified && users[p.user].passwordHash.Some?)
  }

  ghost predicate OnePending(proofs: map<Token, Proof>) {
    forall x, y | x in proofs && y in proofs && Pending(proofs[x]) && Pending(proofs[y])
                  && proofs[x].user == proofs[y].user :: x == y
  }

  ghost predicate TableSafe(users: map<UserId, User>, proofs: map<Token, Proof>, reset: bool) {
    && (forall x | x in proofs && Pending(proofs[x]) :: Grounded(users, proofs[x], reset))
    && OnePending(proofs)
  }

  ghost predicate ProofsSafe(t: Tenancy, p: ProofTables) {
    TableSafe(t.users, p.reset, true) && TableSafe(t.users, p.email, false)
  }

  /** No account loses its email, its verification or its password. */
  ghost predicate AccountsSteady(before: map<UserId, User>, after: map<UserId, User>) {
    forall u | u in before ::
      && u in after
      && after[u].email == before[u].email
      && (before[u].emailVerified ==> after[u].emailVerified)
      && (before[u].passwordHash.Some? ==> after[u].passwordHash.Some?)
  }

  lemma SteadyKeeps(before: Tenancy, after: Tenancy, p: ProofTables)
    requires ProofsSafe(before, p) && AccountsSteady(before.users, after.users)
    ensures ProofsSafe(after, p)
  {
  }

  /** Nothing new is pending. */
  ghost predicate Settled(before: map<Token, Proof>, after: map<Token, Proof>) {
    forall x | x in after && Pending(after[x]) :: x in before && after[x] == before[x]
  }

  lemma SettledKeeps(users: map<UserId, User>, before: map<Token, Proof>, after: map<Token, Proof>, reset: bool)
    requires TableSafe(users, before, reset) && Settled(before, after)
    ensures TableSafe(users, after, reset)
  {
  }

  /** An account whose pending proofs are all revoked may change in any way. */
  lemma RevokedAccountKeeps(users: map<UserId, User>, row: User, proofs: map<Token, Proof>, user: UserId, now: Time,
                            reset: bool)
    requires TableSafe(users, proofs, reset)
    ensures TableSafe(users[user := row], RevokePendingProofs(proofs, user, now), reset)
  {
  }

  lemma DeletedAccountKeeps(users: map<UserId, User>, proofs: map<Token, Proof>, user: UserId, reset: bool)
    requires TableSafe(users, proofs, reset)
    ensures TableSafe(users - {user}, WithoutProofsOf(proofs, user), reset)
  {
  }

  lemma ReplaceKeeps(users: map<UserId, User>, proofs: map<Token, Proof>, now: Time, user: UserId, n: NewProof,
                     reset: bool)
    requires TableSafe(users, proofs, reset) && user in users
    requires reset ==> users[user].emailVerified && users[user].passwordHash.Some?
    ensures TableSafe(users, Replace(proofs, now, user, users[user].email, n), reset)
  {
  }

  lemma UpdateKeeps(db: DB, now: Time, user: UserId, u: UserUpdate)
    requires ProofsSafe(db.tenancy, db.proofs)
    ensures var after := UpdateUser(db, now, user, u).0; ProofsSafe(after.tenancy, after.proofs)
  {
    hide TableSafe, NameOrEmailTaken, SessionsAfterUpdate, RevokePendingProofs, ProofsSafe;
    if user in db.tenancy.users {
      var previous := db.tenancy.users[user];
      var row := UpdatedUser(previous, u);
      var t := db.tenancy.(users := db.tenancy.users[user := row]);
      if row.email != previous.email {
        EmailChangeKeeps(db, row, user, now);
      } else {
        SteadyKeeps(db.tenancy, t, db.proofs);
      }
    }
  }

  lemma EmailChangeKeeps(db: DB, row: User, user: UserId, now: Time)
    requires ProofsSafe(db.tenancy, db.proofs)
    ensures ProofsSafe(db.tenancy.(users := db.tenancy.users[user := row]),
                       ProofsAfterUpdate(db.proofs, user, true, now))
  {
    hide TableSafe, RevokePendingProofs;
    RevokedAccountKeeps(db.tenancy.users, row, db.proofs.reset, user, now, true);
    RevokedAccountKeeps(db.tenancy.users, row, db.proofs.email, user, now, false);
  }

  lemma DeleteKeeps(db: DB, now: Time, user: UserId)
    requires ProofsSafe(db.tenancy, db.proofs)
    ensures var after := DeleteUser(db, now, user).0; ProofsSafe(after.tenancy, after.proofs)
  {
    hide TableSafe, WithoutProofsOf, WithoutPrincipalSessions, RevokeUserSessions;
    DeletedAccountKeeps(db.tenancy.users, db.proofs.reset, user, true);
    DeletedAccountKeeps(db.tenancy.users, db.proofs.email, user, false);
  }

  lemma UserOpKeeps(db: DB, now: Time, op: UserOp)
    requires ProofsSafe(db.tenancy, db.proofs)
    ensures var after := ApplyUser(db, now, op); ProofsSafe(after.tenancy, after.proofs)
  {
    hide ProofsSafe, UpdateUser, DeleteUser, NameOrEmailTaken, RevokeUserSessions, HasPlatformRole, FirstRoleError,
         Bind;
    match op
    case ChangeUser(user, update) => UpdateKeeps(db, now, user, update);
    case RemoveUser(user) => DeleteKeeps(db, now, user);
    case _ => SteadyKeeps(db.tenancy, ApplyUser(db, now, op).tenancy, db.proofs);
  }

  lemma TenantOpKeeps(db: DB, now: Time, op: TenantOp)
    requires ProofsSafe(db.tenancy, db.proofs)
    ensures var after := ApplyTenant(db, now, op); ProofsSafe(after.tenancy, after.proofs)
  {
    hide ProofsSafe, LockManagerContext, MembershipError, ManagerWriteError, EndMemberSessions, RevokeWhere,
         DropPendingCodesOf, DropPendingCodesOfMember, HasPlatformRole, JoinError;
    SteadyKeeps(db.tenancy, ApplyTenant(db, now, op).tenancy, db.proofs);
  }

  lemma ConsumeResetKeeps(db: DB, now: Time, token: Token, hash: Text)
    requires ProofsSafe(db.tenancy, db.proofs)
    ensures var after := ConsumeReset(db, now, token, hash).0; ProofsSafe(after.tenancy, after.proofs)
  {
    hide TableSafe, RevokeUserSessions, ProofsSafe;
    var after := ConsumeReset(db, now, token, hash).0;
    SteadyKeeps(db.tenancy, after.tenancy, db.proofs);
    SettledTablesKeep(after.tenancy, db.proofs, after.proofs);
  }

  lemma ConsumeVerificationKeeps(db: DB, now: Time, token: Token)
    requires ProofsSafe(db.tenancy, db.proofs)
    ensures var after := ConsumeVerification(db, now, token).0; ProofsSafe(after.tenancy, after.proofs)
  {
    hide TableSafe, ProofsSafe;
    var after := ConsumeVerification(db, now, token).0;
    SteadyKeeps(db.tenancy, after.tenancy, db.proofs);
    SettledTablesKeep(after.tenancy, db.proofs, after.proofs);
  }

  lemma SettledTablesKeep(t: Tenancy, before: ProofTables, after: ProofTables)
    requires ProofsSafe(t, before) && Settled(before.reset, after.reset) && Settled(before.email, after.email)
    ensures ProofsSafe(t, after)
  {
    SettledKeeps(t.users, before.reset, after.reset, true);
    SettledKeeps(t.users, before.email, after.email, false);
  }

  lemma IssueKeeps(db: DB, now: Time, op: ProofOp)
    requires ProofsSafe(db.tenancy, db.proofs)
    requires (op.NewResetProof? && MayBeChosen(db.tenancy.users, op.identifier, op.chosen)) || op.NewEmailProof?
    ensures var after := ApplyProof(db, now, op); ProofsSafe(after.tenancy, after.proofs)
  {
    hide TableSafe, ProofConflict, Replace;
    var t, p := db.tenancy, db.proofs;
    match op
    case NewResetProof(_, chosen, n) =>
      if chosen.Some? && chosen.value in t.users {
        ReplaceKeeps(t.users, p.reset, now, chosen.value, n, true);
      }
    case NewEmailProof(user, n) =>
      if user in t.users {
        ReplaceKeeps(t.users, p.email, now, user, n, false);
      }
  }

  lemma ProofOpKeeps(db: DB, now: Time, op: ProofOp)
    requires ProofsSafe(db.tenancy, db.proofs)
    requires op.NewResetProof? ==> MayBeChosen(db.tenancy.users, op.identifier, op.chosen)
    ensures var after := ApplyProof(db, now, op); ProofsSafe(after.tenancy, after.proofs)
  {
    hide ProofsSafe, ConsumeReset, ConsumeVerification, IssueReset, IssueVerification;
    match op
    case UseResetProof(token, hash) => ConsumeResetKeeps(db, now, token, hash);
    case UseEmailProof(token) => ConsumeVerificationKeeps(db, now, token);
    case DropResetProof(id) => SettledTablesKeep(db.tenancy, db.proofs, ApplyProof(db, now, op).proofs);
    case DropEmailProof(id) => SettledTablesKeep(db.tenancy, db.proofs, ApplyProof(db, now, op).proofs);
    case _ => IssueKeeps(db, now, op);
  }

  lemma Preserved(w: World, now: Time, op: Op)
    requires ProofsSafe(w.db.tenancy, w.db.proofs) && Enabled(w, now, op)
    ensures var after := Apply(w, now, op); ProofsSafe(after.tenancy, after.proofs)
  {
    hide ProofsSafe, ApplySession, ApplyTenant, ApplyUser, ApplyCode, ApplyProof, MayBeChosen;
    match op
    case OnSession(_) =>
    case OnTenant(o) => TenantOpKeeps(w.db, now, o);
    case OnUser(o) => UserOpKeeps(w.db, now, o);
    case OnRole(_) => SteadyKeeps(w.db.tenancy, Apply(w, now, op).tenancy, w.db.proofs);
    case OnCode(_) =>
    case OnProof(o) => ProofOpKeeps(w.db, now, o);
  }

  /** In every state of every run, an account has at most one pending proof of each kind, made
    * out to its current email; a pending reset proof also has a verified email and a password
    * behind it. */
  lemma {:induction false} ProofInvariant(states: seq<World>, steps: seq<Step>, i: nat)
    requires IsRun(states, steps) && i < |states|
    ensures ProofsSafe(states[i].db.tenancy, states[i].db.proofs)
  {
    hide Apply, NextHistory, Enabled;
    if i > 0 {
      ProofInvariant(states, steps, i - 1);
      Preserved(states[i - 1], steps[i - 1].now, steps[i - 1].op);
    }
  }

  /** In every reachable state a reset proof resets exactly when it is pending and unexpired and
    * its account is active; the remaining checks can no longer fail. */
  lemma PendingResetWorks(states: seq<World>, steps: seq<Step>, i: nat, now: Time, token: Token, hash: Text)
    requires IsRun(states, steps) && i < |states|
    ensures var db := states[i].db;
            ConsumeReset(db, now, token, hash).1.Reset?
            <==> (&& token in db.proofs.reset
                  && Pending(db.proofs.reset[token])
                  && db.proofs.reset[token].expires > now
                  && db.proofs.reset[token].user in db.tenancy.users
                  && db.tenancy.users[db.proofs.reset[token].user].active)
  {
    hide Next, Enabled, RevokeUserSessions, RevokePendingProofs, RevokeIfPending;
    ProofInvariant(states, steps, i);
  }

  /** A reset replaces the password, asks for a new one, ends every session of the account and
    * leaves no pending reset proof; every other account and its sessions stay as they were. */
  lemma ResetTakesEffect(db: DB, now: Time, token: Token, hash: Text)
    requires ConsumeReset(db, now, token, hash).1.Reset?
    ensures var user := ConsumeReset(db, now, token, hash).1.user;
            var after := ConsumeReset(db, now, token, hash).0;
            && token in db.proofs.reset && db.proofs.reset[token].user == user
            && user in after.tenancy.users
            && after.tenancy.users[user].passwordHash == Some(hash)
            && after.tenancy.users[user].passwordChangeRequired
            && (forall x | x in after.proofs.reset && after.proofs.reset[x].user == user ::
                  !Pending(after.proofs.reset[x]))
            && (forall sid | sid in after.refresh.sessions ::
                  && sid in db.refresh.sessions
                  && (if db.refresh.sessions[sid].principal == UserPrincipal(user)
                      then after.refresh.sessions[sid].revoked.Some?
                      else after.refresh.sessions[sid] == db.refresh.sessions[sid]))
            && (forall other | other in db.tenancy.users && other != user ::
                  other in after.tenancy.users && after.tenancy.users[other] == db.tenancy.users[other])
  {
  }

  /** A freshly issued proof is pending and has not expired. */
  lemma NewProofUsable(proofs: map<Token, Proof>, now: Time, user: UserId, email: Text, n: NewProof)
    ensures var p := Replace(proofs, now, user, email, n)[n.token]; Pending(p) && p.expires > now && p.user == user
  {
  }

  /** Taking back an undelivered proof ends it if it is pending and changes nothing else. */
  lemma DroppedProofEnds(proofs: map<Token, Proof>, id: ProofId, now: Time, x: Token)
    requires x in proofs
    ensures var after := RevokeProofId(proofs, id, now);
            && x in after
            && (proofs[x].id == id ==> !Pending(after[x]))
            && (proofs[x].id != id || !Pending(proofs[x]) ==> after[x] == proofs[x])
  {
  }

  /** A known proof keeps what it says, never returns once gone, and stays exactly as it is once
    * it is consumed or revoked. */
  ghost predicate ProofAdvances(before: map<Token, Proof>, after: map<Token, Proof>, x: Token) {
    x in after ==>
      && x in before
      && after[x].user == before[x].user
      && after[x].emailSnapshot == before[x].emailSnapshot
      && after[x].expires == before[x].expires
      && (!Pending(before[x]) ==> after[x] == before[x])
  }

  ghost predicate TablesAdvance(before: ProofTables, after: ProofTables, x: Token) {
    ProofAdvances(before.reset, after.reset, x) && ProofAdvances(before.email, after.email, x)
  }

  ghost predicate Known(w: World, x: Token) {
    && (x in w.db.proofs.reset || x in w.db.proofs.email ==> x in w.hist.secrets)
    && !(x in w.db.proofs.reset && x in w.db.proofs.email)
  }

  lemma UseAdvances(db: DB, now: Time, op: ProofOp, x: Token)
    requires op.UseResetProof? || op.UseEmailProof?
    ensures TablesAdvance(db.proofs, ApplyProof(db, now, op).proofs, x)
  {
    hide RevokeUserSessions;
  }

  lemma IssueOrDropAdvances(db: DB, now: Time, op: ProofOp, x: Token)
    requires !op.UseResetProof? && !op.UseEmailProof?
    requires (op.NewResetProof? || op.NewEmailProof?) ==> x != op.proof.token
    ensures TablesAdvance(db.proofs, ApplyProof(db, now, op).proofs, x)
  {
    hide ProofConflict;
  }

  lemma IssueTouchesOneTable(db: DB, now: Time, op: ProofOp)
    ensures op.NewResetProof? ==> ApplyProof(db, now, op).proofs.email == db.proofs.email
    ensures op.NewEmailProof? ==> ApplyProof(db, now, op).proofs.reset == db.proofs.reset
  {
    hide ProofConflict, Replace;
  }

  lemma AccountChangeAdvances(db: DB, now: Time, op: UserOp, x: Token)
    ensures TablesAdvance(db.proofs, ApplyUser(db, now, op).proofs, x)
  {
    hide RevokeUserSessions, WithoutPrincipalSessions, NameOrEmailTaken, SessionsAfterUpdate, HasPlatformRole,
         FirstRoleError, Bind;
  }

  lemma TenantChangeKeepsProofs(db: DB, now: Time, op: TenantOp)
    ensures ApplyTenant(db, now, op).proofs == db.proofs
  {
    hide RevokeWhere, LockManagerContext, MembershipError, ManagerWriteError, EndMemberSessions, DropPendingCodesOf,
         DropPendingCodesOfMember, HasPlatformRole, JoinError;
  }

  lemma ProofStep(w: World, now: Time, op: Op, x: Token)
    requires Known(w, x) && Enabled(w, now, op)
    ensures x in w.hist.secrets ==> TablesAdvance(w.db.proofs, Apply(w, now, op).proofs, x)
    ensures Known(Next(w, now, op), x)
  {
    hide ApplySession, ApplyTenant, ApplyUser, ApplyCode, ApplyProof, MayBeChosen, RotationsAfter, HandlersAfter;
    match op
    case OnTenant(o) => TenantChangeKeepsProofs(w.db, now, o);
    case OnUser(o) => AccountChangeAdvances(w.db, now, o, x);
    case OnProof(o) =>
      if o.UseResetProof? || o.UseEmailProof? {
        UseAdvances(w.db, now, o, x);
      } else if (o.NewResetProof? || o.NewEmailProof?) && o.proof.token == x {
        IssueTouchesOneTable(w.db, now, o);
      } else {
        IssueOrDropAdvances(w.db, now, o, x);
      }
    case _ =>
  }

  lemma {:induction false} KnownInvariant(states: seq<World>, steps: seq<Step>, i: nat, x: Token)
    requires IsRun(states, steps) && i < |states|
    ensures Known(states[i], x)
  {
    hide Apply, NextHistory, Enabled;
    if i > 0 {
      KnownInvariant(states, steps, i - 1, x);
      ProofStep(states[i - 1], steps[i - 1].now, steps[i - 1].op, x);
    }
  }

  lemma {:induction false} ProofsEvolve(states: seq<World>, steps: seq<Step>, i: nat, j: nat, x: Token)
    requires IsRun(states, steps) && i <= j < |states| && x in states[i].hist.secrets
    ensures x in states[j].hist.secrets && TablesAdvance(states[i].db.proofs, states[j].db.proofs, x)
    decreases j
  {
    hide Apply, NextHistory, Enabled;
    if i < j {
      ProofsEvolve(states, steps, i, j - 1, x);
      KnownInvariant(states, steps, j - 1, x);
      ProofStep(states[j - 1], steps[j - 1].now, steps[j - 1].op, x);
      HistoryGrows(states[j - 1], steps[j - 1].now, steps[j - 1].op);
    }
  }

  /** The step acts on the account by the proof `x`. */
  predicate ProofWorks(w: World, now: Time, op: Op, x: Token) {
    match op
    case OnProof(UseResetProof(token, hash)) => token == x && ConsumeReset(w.db, now, token, hash).1.Reset?
    case OnProof(UseEmailProof(token)) => token == x && ConsumeVerification(w.db, now, token).1.Verified?
    case _ => false
  }

  /** No pending proof of either kind is known by `x`. */
  ghost predicate Ended(p: ProofTables, x: Token) {
    (x in p.reset ==> !Pending(p.reset[x])) && (x in p.email ==> !Pending(p.email[x]))
  }

  lemma EndedIsRefused(w: World, now: Time, op: Op, x: Token)
    requires Ended(w.db.proofs, x)
    ensures !ProofWorks(w, now, op, x)
  {
    hide RevokeUserSessions, RevokePendingProofs, RevokeIfPending;
  }

  lemma WorkingEnds(w: World, now: Time, op: Op, x: Token)
    requires ProofWorks(w, now, op, x) && Known(w, x)
    ensures Ended(Apply(w, now, op).proofs, x) && x in w.hist.secrets
  {
    hide RevokeUserSessions, ApplySession, ApplyTenant, ApplyUser, ApplyCode, ApplyRole;
  }

  /** Consumed and revoked are final: a proof that ended never acts on an account again. */
  lemma EndedProofIsFinal(states: seq<World>, steps: seq<Step>, i: nat, j: nat, x: Token)
    requires IsRun(states, steps) && i <= j < |steps| && x in states[i].hist.secrets && Ended(states[i].db.proofs, x)
    ensures !ProofWorks(states[j], steps[j].now, steps[j].op, x)
  {
    hide Next, Enabled, ProofWorks;
    ProofsEvolve(states, steps, i, j, x);
    EndedIsRefused(states[j], steps[j].now, steps[j].op, x);
  }

  /** Each proof acts at most once in a run. */
  lemma ProofWorksAtMostOnce(states: seq<World>, steps: seq<Step>, i: nat, j: nat, x: Token)
    requires IsRun(states, steps) && i < j < |steps| && ProofWorks(states[i], steps[i].now, steps[i].op, x)
    ensures !ProofWorks(states[j], steps[j].now, steps[j].op, x)
  {
    hide Apply, NextHistory, Enabled, ProofWorks;
    KnownInvariant(states, steps, i, x);
    WorkingEnds(states[i], steps[i].now, steps[i].op, x);
    HistoryGrows(states[i], steps[i].now, steps[i].op);
    EndedProofIsFinal(states, steps, i + 1, j, x);
  }
}
