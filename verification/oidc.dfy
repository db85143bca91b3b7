/** Relying parties and authorization codes (src/db/oidc.rs). */
module Oidc {
  import opened Schema
  import opened Organizations

  /** Platform registrations pass no organization; delegated ones name it and the manager. */
  datatype ClientScope = PlatformClient | TenantClient(organization: OrganizationId, actor: PrincipalId)

  function ScopeOrganization(scope: ClientScope): Option<OrganizationId> {
    if scope.TenantClient? then Some(scope.organization) else None
  }

  /** `lock_active_organization_manager` for a delegated write, nothing for a platform one. */
  function ScopeError(t: Tenancy, scope: ClientScope): Option<Error> {
    if scope.PlatformClient? then
      None
    else
      var locked := LockManagerContext(t, scope.organization, scope.actor, scope.actor);
      if locked.Err? then Some(locked.error) else None
  }

  function CreateClient(t: Tenancy, o: OidcTables, id: ClientId, scope: ClientScope, confidential: bool,
                        secretHash: Option<Text>, boundary: ClientBoundary): (r: (OidcTables, Result<OidcClient>))
  {
    var error := ScopeError(t, scope);
    if error.Some? then
      (o, Err(error.value))
    else if id in o.clients then
      (o, Err(ConstraintViolated))
    else
      var client := OidcClient(ScopeOrganization(scope), confidential, secretHash, true, boundary);
      (o.(clients := o.clients[id := client]), Ok(client))
  }

  datatype ClientUpdate = ClientUpdate(
    redirectUris: Option<seq<Text>>,
    grantTypes: Option<seq<Text>>,
    scopes: Option<seq<Text>>,
    active: Option<bool>)

  function UpdatedClient(c: OidcClient, u: ClientUpdate): OidcClient {
    c.(active := if u.active.Some? then u.active.value else c.active,
       boundary := ClientBoundary(
         if u.redirectUris.Some? then u.redirectUris.value else c.boundary.redirectUris,
         if u.grantTypes.Some? then u.grantTypes.value else c.boundary.grantTypes,
         if u.scopes.Some? then u.scopes.value else c.boundary.scopes))
  }

  predicate TrustBoundaryChanged(previous: OidcClient, client: OidcClient) {
    && previous.active
    && (|| !client.active
        || previous.boundary.redirectUris != client.boundary.redirectUris
        || previous.boundary.grantTypes != client.boundary.grantTypes
        || previous.boundary.scopes != client.boundary.scopes)
  }

  function DropPendingCodesOfClient(codes: map<Code, AuthorizationCode>, client: ClientId)
    : map<Code, AuthorizationCode>
  {
    map c | c in codes && !(codes[c].client == client && codes[c].consumed.None?) :: codes[c]
  }

  function UpdateClient(t: Tenancy, o: OidcTables, id: ClientId, scope: ClientScope, u: ClientUpdate)
    : (r: (OidcTables, Result<Option<OidcClient>>))
  {
    var error := ScopeError(t, scope);
    if error.Some? then
      (o, Err(error.value))
    else if id !in o.clients || o.clients[id].organization != ScopeOrganization(scope) then
      (o, Ok(None))
    else
      var client := UpdatedClient(o.clients[id], u);
      (OidcTables(o.clients[id := client],
                  if TrustBoundaryChanged(o.clients[id], client) then DropPendingCodesOfClient(o.codes, id)
                  else o.codes),
       Ok(Some(client)))
  }

  function RotateSecret(t: Tenancy, o: OidcTables, id: ClientId, scope: ClientScope, secretHash: Text)
    : (r: (OidcTables, Result<bool>))
  {
    var error := ScopeError(t, scope);
    if error.Some? then
      (o, Err(error.value))
    else if id !in o.clients || o.clients[id].organization != ScopeOrganization(scope)
         || !o.clients[id].confidential || !o.clients[id].active then
      (o, Ok(false))
    else
      (OidcTables(o.clients[id := o.clients[id].(secretHash := Some(secretHash))],
                  map c | c in o.codes && !(&& o.codes[c].client == id
                                            && o.codes[c].organization == ScopeOrganization(scope)
                                            && o.codes[c].consumed.None?) :: o.codes[c]),
       Ok(true))
  }

  /** The live context that the SELECT of the issue and the redeeming UPDATE join against. */
  predicate ClientUserContext(t: Tenancy, o: OidcTables, client: ClientId, organization: Option<OrganizationId>,
                              user: UserId)
  {
    && client in o.clients
    && o.clients[client].active
    && o.clients[client].organization == organization
    && user in t.users
    && t.users[user].active
    && UserPrincipal(user) in t.principals
    && t.principals[UserPrincipal(user)].active
    && (organization.Some? ==>
          && organization.value in t.organizations
          && t.organizations[organization.value].status == OrgActive
          && (organization.value, UserPrincipal(user)) in t.memberships
          && t.memberships[(organization.value, UserPrincipal(user))].status == MemberActive)
  }

  datatype CodeGrant = CodeGrant(
    client: ClientId,
    organization: Option<OrganizationId>,
    user: UserId,
    redirectUri: Text,
    scopes: seq<Text>,
    expires: int)

  /** The INSERT of `create_authorization_code`, for a grant whose context its SELECT has found.
    * Only keys and foreign keys are looked at again. */
  function InsertCode(t: Tenancy, o: OidcTables, code: Code, g: CodeGrant): (r: (OidcTables, Result<()>)) {
    if || code in o.codes
       || g.client !in o.clients
       || g.user !in t.users
       || (g.organization.Some? && g.organization.value !in t.organizations) then
      (o, Err(ConstraintViolated))
    else
      var row := AuthorizationCode(g.client, g.organization, g.user, g.redirectUri, g.scopes,
                                   ToTimestamp(g.expires), None);
      (o.(codes := o.codes[code := row]), Ok(()))
  }

  predicate Redeemable(c: AuthorizationCode, now: Time) {
    c.consumed.None? && c.expires > now
  }

  function ConsumeCode(o: OidcTables, now: Time, code: Code): (r: (OidcTables, Option<AuthorizationCode>)) {
    if code in o.codes && Redeemable(o.codes[code], now)
    then (o.(codes := o.codes[code := o.codes[code].(consumed := Some(now))]), Some(o.codes[code]))
    else (o, None)
  }

  /** Redemption also rechecks the exact client and the live user context. */
  function ConsumeCodeForClient(t: Tenancy, o: OidcTables, now: Time, code: Code, client: ClientId,
                                organization: Option<OrganizationId>): (r: (OidcTables, Option<AuthorizationCode>))
  {
    if && code in o.codes
       && o.codes[code].client == client
       && o.codes[code].organization == organization
       && ClientUserContext(t, o, client, organization, o.codes[code].user)
    then ConsumeCode(o, now, code)
    else (o, None)
  }
}
