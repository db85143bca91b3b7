/** A run in which a code outlives a reconfiguration of its client: the issue reads the client, the
  * reconfiguration drops the pending codes, and the issue then stores its code. */
module CodeRaces {
  import opened Schema
  import opened RefreshSession
  import opened Organizations
  import opened PlatformRoles
  import opened Oidc
  import opened World
  import opened CodeRuns

  /** The reconfiguration leaves the client active and changes its boundary. */
  predicate Reconfigures(client: OidcClient, u: ClientUpdate) {
    && UpdatedClient(client, u).active
    && UpdatedClient(client, u).boundary != client.boundary
  }

  /** Wherever a code could be issued, for a platform client or a tenant's, this can happen, provided
    * that someone may reconfigure the client. */
  lemma StaleIssueOutlives(w: World, c: Code, g: CodeGrant, scope: ClientScope, u: ClientUpdate)
    requires Reachable(w) && c !in w.hist.secrets && c !in w.db.oidc.codes
    requires ClientUserContext(w.db.tenancy, w.db.oidc, g.client, g.organization, g.user)
    requires ScopeOrganization(scope) == g.organization && ScopeError(w.db.tenancy, scope).None?
    requires Reconfigures(w.db.oidc.clients[g.client], u) && ToTimestamp(g.expires) > w.clock
    ensures var w1 := Next(w, w.clock, OnCode(ReadContext(c, g)));
            var w2 := Next(w1, w.clock, OnCode(ChangeClient(g.client, scope, u)));
            var w3 := Next(w2, w.clock, OnCode(NewCode(c, g)));
            && Reachable(w3)
            && RedeemsCode(w3, w3.clock, OnCode(RedeemCodeForClient(c, g.client, g.organization)), c)
            && c in w3.hist.issuedUnder
            && g.client in w3.db.oidc.clients
            && w3.hist.issuedUnder[c] != w3.db.oidc.clients[g.client].boundary
  {
    hide Reachable, ApplySession, ApplyTenant, ApplyUser, ApplyRole, ApplyProof, RotationsAfter, HandlersAfter,
         RoleReadsAfter, DropPendingCodesOfClient, ScopeError;
    var read, change, store := OnCode(ReadContext(c, g)), OnCode(ChangeClient(g.client, scope, u)),
                               OnCode(NewCode(c, g));
    var w1 := Next(w, w.clock, read);
    NextIsReachable(w, w.clock, read);
    var w2 := Next(w1, w.clock, change);
    NextIsReachable(w1, w.clock, change);
    DroppingAddsNothing(w1.db.oidc.codes, g.client, c);
    NextIsReachable(w2, w.clock, store);
  }

  lemma DroppingAddsNothing(codes: map<Code, AuthorizationCode>, client: ClientId, c: Code)
    requires c !in codes
    ensures c !in DropPendingCodesOfClient(codes, client)
  {
  }

  const BOUNDARY: ClientBoundary := ClientBoundary([1], [], [])
  const GRANT: CodeGrant := CodeGrant(1, None, 7, 1, [], 60)
  const MOVED: ClientUpdate := ClientUpdate(Some([2]), None, None, None)

  lemma SomeoneCanBeIssuedACode() returns (w: World)
    ensures Reachable(w) && w.clock == 0 && w.hist.secrets == {} && w.db.oidc.codes == map[]
    ensures ClientUserContext(w.db.tenancy, w.db.oidc, 1, None, 7)
    ensures w.db.oidc.clients == map[1 := OidcClient(None, false, None, true, BOUNDARY)]
  {
    hide Reachable, ApplySession, ApplyTenant, ApplyProof, RotationsAfter, HandlersAfter;
    var client := OnCode(NewClient(1, PlatformClient, false, None, BOUNDARY));
    var account := OnUser(NewUser(7, User(7, 7, true, false, InternalEmployee, None, true)));
    var principal := OnRole(PutPrincipal(UserPrincipal(7), true));
    var w0 := World(0, EMPTY_DB, NO_HISTORY);
    StartIsReachable();
    NextIsReachable(w0, 0, client);
    var w1 := Next(w0, 0, client);
    NextIsReachable(w1, 0, account);
    var w2 := Next(w1, 0, account);
    NextIsReachable(w2, 0, principal);
    w := Next(w2, 0, principal);
  }

  /** Nor does the closure of a tenant end a code whose issue it overtook: the code is stored all the
    * same, and pending in a tenant that is not active. */
  lemma StaleIssueSurvivesClosure(w: World, c: Code, g: CodeGrant, status: OrganizationStatus)
    requires Reachable(w) && c !in w.hist.secrets && c !in w.db.oidc.codes && g.organization.Some?
    requires ClientUserContext(w.db.tenancy, w.db.oidc, g.client, g.organization, g.user)
    requires status != OrgActive && ValidTransition(OrgActive, status)
    ensures var w1 := Next(w, w.clock, OnCode(ReadContext(c, g)));
            var w2 := Next(w1, w.clock, OnTenant(ChangeStatus(g.organization.value, status)));
            var w3 := Next(w2, w.clock, OnCode(NewCode(c, g)));
            && Reachable(w3)
            && PendingCode(w3.db.oidc, c)
            && g.organization.value in w3.db.tenancy.organizations
            && w3.db.tenancy.organizations[g.organization.value].status == status
  {
    hide Reachable, ApplySession, ApplyUser, ApplyRole, ApplyProof, RotationsAfter, HandlersAfter, RoleReadsAfter,
         RevokeWhere, DropPendingCodesOf;
    var read, change, store := OnCode(ReadContext(c, g)), OnTenant(ChangeStatus(g.organization.value, status)),
                               OnCode(NewCode(c, g));
    var w1 := Next(w, w.clock, read);
    NextIsReachable(w, w.clock, read);
    var w2 := Next(w1, w.clock, change);
    NextIsReachable(w1, w.clock, change);
    ClosingAddsNothing(w1.db.oidc.codes, g.organization.value, c);
    NextIsReachable(w2, w.clock, store);
  }

  lemma ClosingAddsNothing(codes: map<Code, AuthorizationCode>, organization: OrganizationId, c: Code)
    requires c !in codes
    ensures c !in DropPendingCodesOf(codes, organization)
  {
  }

  /** So some run redeems a code under a registration other than the one it was issued under. */
  lemma RedeemedUnderOtherTerms()
    ensures exists w: World, op: Op ::
              && Reachable(w)
              && RedeemsCode(w, w.clock, op, 9)
              && 9 in w.hist.issuedUnder
              && 1 in w.db.oidc.clients
              && w.hist.issuedUnder[9] != w.db.oidc.clients[1].boundary
  {
    hide Reachable, Next, RedeemsCode;
    var w := SomeoneCanBeIssuedACode();
    StaleIssueOutlives(w, 9, GRANT, PlatformClient, MOVED);
  }
}
