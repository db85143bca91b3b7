/** Whole calls of the token handlers, inside runs. */
module HandlerRuns {
  import opened Schema
  import opened RefreshSession
  import opened LegacyTokens
  import opened Organizations
  import opened PlatformRoles
  import opened World
  import opened TwoStores
  import opened HandlerSteps

  /** Steps `i`, `i + 1`, ... of the run are these operations at one time. */
  ghost predicate Block(steps: seq<Step>, i: nat, now: Time, ops: seq<Op>) {
    i + |ops| <= |steps| && forall k | 0 <= k < |ops| :: steps[i + k] == Step(now, ops[k])
  }

  lemma {:induction false} BlockAfter(states: seq<World>, steps: seq<Step>, i: nat, now: Time, ops: seq<Op>, n: nat)
    requires IsRun(states, steps) && Block(steps, i, now, ops) && n <= |ops|
    ensures states[i + n] == After(states[i], now, ops[..n])
  {
    hide Next, Enabled;
    if n > 0 {
      BlockAfter(states, steps, i, now, ops, n - 1);
      assert ops[..n][..n - 1] == ops[..n - 1];
      assert steps[i + (n - 1)] == Step(now, ops[n - 1]);
    }
  }

  /** The refresh request ran undisturbed from step `i` on. */
  ghost predicate RefreshCall(states: seq<World>, steps: seq<Step>, i: nat, clients: Clients, now: Time,
                              q: RefreshRequest)
    requires i < |states|
  {
    Block(steps, i, now, RefreshOps(states[i].db, clients, now, q))
  }

  lemma AnswerRedeems(states: seq<World>, steps: seq<Step>, i: nat, clients: Clients, now: Time, q: RefreshRequest)
    returns (k: nat)
    requires IsRun(states, steps) && i < |states| && RefreshCall(states, steps, i, clients, now, q)
    requires Refresh(states[i].db, clients, now, q).1
    ensures i <= k < i + |RefreshOps(states[i].db, clients, now, q)|
    ensures k < |steps| && Redeems(states[k], steps[k].now, steps[k].op, q.rotate.token)
  {
    hide Next, Enabled, Redeems, RefreshOps, Refresh, After;
    var w := states[i];
    var ops := RefreshOps(w.db, clients, now, q);
    RefreshRuns(w, clients, now, q);
    var n :| 0 <= n < |ops| && Redeems(After(w, now, ops[..n]), now, ops[n], q.rotate.token);
    BlockAfter(states, steps, i, now, ops, n);
    assert steps[i + n] == Step(now, ops[n]);
    k := i + n;
  }

  /** Two refresh requests with one token are never both answered. */
  lemma RefreshedAtMostOnce(states: seq<World>, steps: seq<Step>, i: nat, clients: Clients, now: Time,
                            q: RefreshRequest, j: nat, laterClients: Clients, later: Time, again: RefreshRequest)
    requires IsRun(states, steps) && i < |states| && j < |states|
    requires RefreshCall(states, steps, i, clients, now, q)
    requires RefreshCall(states, steps, j, laterClients, later, again)
    requires i + |RefreshOps(states[i].db, clients, now, q)| <= j
    requires q.rotate.token == again.rotate.token
    ensures !(Refresh(states[i].db, clients, now, q).1 && Refresh(states[j].db, laterClients, later, again).1)
  {
    hide IsRun, RefreshOps, Refresh, Redeems;
    if Refresh(states[i].db, clients, now, q).1 && Refresh(states[j].db, laterClients, later, again).1 {
      var k := AnswerRedeems(states, steps, i, clients, now, q);
      var l := AnswerRedeems(states, steps, j, laterClients, later, again);
      RedeemedAtMostOnce(states, steps, k, l, q.rotate.token);
    }
  }

  /** After a logout with the token no refresh with it is answered. */
  lemma NoRefreshAfterLogout(states: seq<World>, steps: seq<Step>, i: nat, now: Time, x: Token, reason: RevokeReason,
                             j: nat, clients: Clients, later: Time, q: RefreshRequest)
    requires IsRun(states, steps) && i < |states| && j < |states|
    requires Block(steps, i, now, LogoutOps(states[i].db.refresh, x, reason))
    requires RefreshCall(states, steps, j, clients, later, q) && q.rotate.token == x
    requires i + |LogoutOps(states[i].db.refresh, x, reason)| <= j
    ensures !Refresh(states[j].db, clients, later, q).1
  {
    hide IsRun, RefreshOps, Refresh, Redeems, LogsOut, After, LogoutOps, Next;
    if Refresh(states[j].db, clients, later, q).1 {
      var w := states[i];
      var ops := LogoutOps(w.db.refresh, x, reason);
      LogoutRuns(w, now, x, reason);
      var n := |ops| - 1;
      BlockAfter(states, steps, i, now, ops, n);
      assert steps[i + n] == Step(now, ops[n]);
      var l := AnswerRedeems(states, steps, j, clients, later, q);
      LoggedOutIsFinal(states, steps, i + n, l, x);
    }
  }

  /** A refresh whose two transactions on `x` are these steps, whatever happens between them. */
  datatype Interrupted = Interrupted(rotateAt: nat, consumeAt: Option<nat>)

  predicate IsCall(steps: seq<Step>, c: Interrupted, x: Token) {
    && c.rotateAt < |steps|
    && steps[c.rotateAt].op.OnSession? && steps[c.rotateAt].op.session.RotateSession?
    && steps[c.rotateAt].op.session.rotate.token == x
    && (c.consumeAt.Some? ==>
          && c.rotateAt < c.consumeAt.value < |steps|
          && steps[c.consumeAt.value].op == OnSession(LegacyConsume(x)))
  }

  /** One of them accepted the token; every later check of the handler only refuses more. */
  predicate Accepted(states: seq<World>, steps: seq<Step>, c: Interrupted, x: Token)
    requires |states| == |steps| + 1 && IsCall(steps, c, x)
  {
    || Redeems(states[c.rotateAt], steps[c.rotateAt].now, steps[c.rotateAt].op, x)
    || (c.consumeAt.Some?
        && Redeems(states[c.consumeAt.value], steps[c.consumeAt.value].now, steps[c.consumeAt.value].op, x))
  }

  /** Two different refreshes with one token, interleaved with each other and with anything else. */
  lemma InterruptedAtMostOnce(states: seq<World>, steps: seq<Step>, a: Interrupted, b: Interrupted, x: Token)
    requires IsRun(states, steps) && IsCall(steps, a, x) && IsCall(steps, b, x)
    requires a.rotateAt != b.rotateAt
    requires a.consumeAt.Some? && b.consumeAt.Some? ==> a.consumeAt != b.consumeAt
    ensures !(Accepted(states, steps, a, x) && Accepted(states, steps, b, x))
  {
    hide Next, Enabled, Redeems;
    if Accepted(states, steps, a, x) && Accepted(states, steps, b, x) {
      var i := if Redeems(states[a.rotateAt], steps[a.rotateAt].now, steps[a.rotateAt].op, x) then a.rotateAt
               else a.consumeAt.value;
      var j := if Redeems(states[b.rotateAt], steps[b.rotateAt].now, steps[b.rotateAt].op, x) then b.rotateAt
               else b.consumeAt.value;
      assert i != j;
      if i < j {
        RedeemedAtMostOnce(states, steps, i, j, x);
      } else {
        RedeemedAtMostOnce(states, steps, j, i, x);
      }
    }
  }

  /** The token of a management login of an active administrative client is refreshed once, and
    * then never again. */
  lemma LoginRefreshesOnce(db: DB, clients: Clients, start: Time, login: Login, now: Time, q: RefreshRequest,
                           later: Time, again: RefreshRequest)
    requires Managed(db, clients, start, login).1.Ok? && login.client in clients
    requires clients[login.client].active && clients[login.client].admin
    requires now < ToTimestamp(login.expires) && now <= later
    requires q.rotate.token == login.token && q.rotate.expectedOrganization.None?
    requires again.rotate.token == login.token && again.rotate.expectedOrganization.None?
    requires var r := Managed(db, clients, start, login).0.refresh;
             q.rotate.newToken !in r.tokens && !TokenIdTaken(r.tokens, q.rotate.newTokenId)
    ensures var first := Refresh(Managed(db, clients, start, login).0, clients, now, q);
            first.1 && !Refresh(first.0, clients, later, again).1
  {
    hide TokenIdTaken, HasLive;
    var after := Managed(db, clients, start, login).0;
    assert after.refresh.sessions[login.session] == NewSession(SessionOf(login));
    assert RotateAnswer(after.tenancy, after.refresh, now, q.rotate).Consumed?;
    var first := Refresh(after, clients, now, q);
    var r := first.0.refresh;
    assert Spent(r.tokens[login.token], r.sessions[login.session]);
    assert r.legacy[login.token].expires == r.tokens[login.token].expires == r.sessions[login.session].expires;
  }

  /** The principal has no live session but this one. */
  ghost predicate OnlyLive(r: RefreshTables, principal: PrincipalId, session: SessionId, now: Time) {
    && session in r.sessions
    && r.sessions[session].principal == principal
    && r.sessions[session].revoked.None?
    && forall sid | sid in r.sessions && sid != session && r.sessions[sid].principal == principal ::
         !Live(r.sessions[sid], now)
  }

  /** An undisturbed login under the single-session policy leaves one session; without `force` it is
    * refused exactly when there is one. */
  lemma PolicyLeavesOne(db: DB, clients: Clients, now: Time, login: Login)
    ensures var done := Managed(db, clients, now, login);
            var principal := SessionOf(login).principal;
            && (done.1.Ok? && login.single ==> OnlyLive(done.0.refresh, principal, login.session, now))
            && (done.1 == Err(ActiveSessionExists)
                <==> && login.client in clients && login.single && !login.force
                     && HasLive(db.refresh, principal, now))
  {
    hide TokenIdTaken;
  }

  /** The membership lookup before a scoped refresh and the locked check inside the rotation are
    * written apart, in SQL and step by step; for users they accept the same contexts. */
  lemma PrecheckAgrees(t: Tenancy, organization: OrganizationId, principal: PrincipalId)
    requires principal.kind == UserKind
    ensures ActiveMembership(t, organization, principal).Some? <==> ContextActive(t, organization, principal)
  {
  }

  /** With the claims of its own session, a scoped refresh is answered exactly when the rotation
    * redeems the token: the lookup before it and the checks after it refuse nothing that the
    * rotation accepts. */
  lemma ScopedRefreshIsRotation(db: DB, clients: Clients, now: Time, q: RefreshRequest)
    requires q.rotate.expectedOrganization.Some?
    requires q.rotate.token in db.refresh.tokens && db.refresh.tokens[q.rotate.token].session in db.refresh.sessions
    requires q.principal == Some(db.refresh.sessions[db.refresh.tokens[q.rotate.token].session].principal)
    ensures Refresh(db, clients, now, q).1 <==> RotateAnswer(db.tenancy, db.refresh, now, q.rotate).Consumed?
  {
    hide TokenIdTaken, ActiveMembership;
    var principal := q.principal.value;
    if principal.kind == UserKind {
      PrecheckAgrees(db.tenancy, q.rotate.expectedOrganization.value, principal);
    }
  }

  /** The client of an older row, or None. */
  function LegacyClient(r: RefreshTables, now: Time, x: Token): Option<ClientId> {
    ConsumeLegacy(r, now, x).1
  }

  /** The token of an older row is spent even when its client may not have a new one; then no
    * session takes over. */
  lemma RefusedRefreshCostsTheToken(db: DB, clients: Clients, now: Time, q: RefreshRequest)
    requires q.rotate.expectedOrganization.None? && q.rotate.token !in db.refresh.tokens
    requires LegacyClient(db.refresh, now, q.rotate.token).Some?
    requires var client := LegacyClient(db.refresh, now, q.rotate.token).value;
             client !in clients || !clients[client].active || !clients[client].admin
    ensures var done := Refresh(db, clients, now, q);
            && !done.1
            && done.0.refresh.sessions == db.refresh.sessions
            && done.0.refresh.tokens == db.refresh.tokens
            && forall later :: LegacyClient(done.0.refresh, later, q.rotate.token).None?
  {
  }
}
