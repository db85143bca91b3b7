/** The tables that Keylo's transactions share, as values.
  *
  * Each table is a map from its primary key to a row; a row keeps the columns that some
  * modelled branch reads or writes. Text columns constrained by a CHECK are enumerations.
  * Refresh tokens, codes and proofs are keyed by the secret itself, since only its injective
  * hash is stored. Timestamps count microseconds.
  */
module Schema {

  datatype Option<+T> = None | Some(value: T)

  datatype Result<+T> = Ok(value: T) | Err(error: Error)

  /** The error strings of the source, by name. */
  datatype Error =
    | ActiveSessionExists
    | CannotDemoteUserWithPlatformRoles
    | CannotPromoteUserWithExistingPlatformRoles
    | ConstraintViolated
    | ExternalCustomerCannotReceivePlatformRole
    | ExternalCustomerRequiresCustomerOrganization
    | InvalidOrganizationStatusTransition
    | OidcClientUserContextInactive
    | OrganizationInvitationNotFound
    | OrganizationJoinRequiresUserPrincipal
    | OrganizationManagementRoleRequiresUserPrincipal
    | OrganizationManagerMembershipNotActive
    | OrganizationManagerMembershipNotFound
    | OrganizationManagerPrincipalInactive
    | OrganizationManagerPrincipalNotFound
    | OrganizationManagerRequiresUserPrincipal
    | OrganizationManagerRoleRequired
    | OrganizationMembershipNotJoinable
    | OrganizationNotActive
    | OrganizationNotFound
    | OrganizationOrPrincipalNotFound
    | OrganizationOwnerRoleRequired
    | OrganizationPrincipalUserNotFound
    | OrganizationRoleRequiresOrganizationBinding
    | OrganizationSessionContextInactive
    | OrganizationTargetPrincipalInactive
    | OrganizationTargetPrincipalNotFound
    | OrganizationTargetUserNotFound
    | PrincipalNotActive
    | PrincipalOrRoleNotFound
    | RoleNotAssignable
    | RoleNotBound
    | RoleNotFound
    | UserNotFound

  /** SQL COALESCE of two nullable columns. */
  function Coalesce<T>(first: Option<T>, second: Option<T>): Option<T> {
    if first.Some? then first else second
  }

  type Time = int

  const MICROS_PER_SECOND: int := 1_000_000

  /** `to_timestamp(seconds)`. */
  function ToTimestamp(seconds: int): Time {
    seconds * MICROS_PER_SECOND
  }

  /** `extract(epoch from t)::bigint`, which rounds to the nearest second. */
  function EpochSeconds(t: Time): int {
    (t + MICROS_PER_SECOND / 2) / MICROS_PER_SECOND
  }

  /** Re-encoding a stored expiry through whole seconds loses nothing. */
  lemma EpochRoundTrip(seconds: int)
    ensures EpochSeconds(ToTimestamp(seconds)) == seconds
  {
  }

  /** Identifiers, secrets and free text are compared for equality and nothing else, so opaque
    * numbers stand for them. */
  type Text = int

  type OrganizationId = Text
  type UserId = Text
  type SessionId = Text
  type TokenId = Text
  type Token = Text
  type ClientId = Text
  type RoleId = Text
  type Code = Text
  type ProofId = Text

  /** The tenant that bootstrap accounts join (`org-internal`). */
  const INTERNAL_ORGANIZATION: OrganizationId := 0

  datatype OrganizationStatus = OrgActive | OrgDisabled | OrgArchived
  datatype OrganizationKind = CustomerOrg | InternalOrg
  datatype Organization = Organization(kind: OrganizationKind, status: OrganizationStatus)

  datatype PrincipalKind = UserKind | ServiceKind | DeviceKind | ClientKind

  /** Principals are identified by `(principal_type, ref_id)`, which is UNIQUE; every writer uses
    * the textual key `{type}-{ref}`, and no type name contains a dash, so the two agree. */
  datatype PrincipalId = PrincipalId(kind: PrincipalKind, refId: Text)
  datatype Principal = Principal(active: bool)

  function UserPrincipal(user: UserId): PrincipalId {
    PrincipalId(UserKind, user)
  }

  datatype UserClass = InternalEmployee | ExternalCustomer
  datatype User = User(
    username: Text,
    email: Text,
    emailVerified: bool,
    passwordChangeRequired: bool,
    userClass: UserClass,
    passwordHash: Option<Text>,
    active: bool)

  datatype MembershipStatus = MemberPending | MemberActive | MemberSuspended | MemberRemoved
  datatype ManagementRole = RoleMember | RoleAdmin | RoleOwner
  datatype Membership = Membership(
    status: MembershipStatus,
    managementRole: ManagementRole)

  /** The revoke-reason strings of the source, by name; callers may also pass their own text. */
  datatype RevokeReason =
    | OrganizationBecame(organizationStatus: OrganizationStatus)
    | MembershipBecame(membershipStatus: MembershipStatus)
    | MembershipInactive
    | TenantInactive
    | TokenReplay
    | UserDisabled
    | UserDeleted
    | PasswordUpdated
    | PasswordWasReset
    | PasswordChanged
    | SessionTakeover
    | Given(text: Text)

  datatype Session = Session(
    principal: PrincipalId,
    client: ClientId,
    organization: Option<OrganizationId>,
    currentTokenId: TokenId,
    expires: Time,
    revoked: Option<Time>,
    reason: Option<RevokeReason>)

  datatype SessionToken = SessionToken(
    tokenId: TokenId,
    session: SessionId,
    expires: Time,
    consumed: Option<Time>,
    revoked: Option<Time>)

  /** A row of the older `refresh_tokens` table. */
  datatype LegacyToken = LegacyToken(id: TokenId, client: ClientId, expires: Time, revoked: bool)

  /** The part of a relying-party registration whose change invalidates pending codes. */
  datatype ClientBoundary = ClientBoundary(
    redirectUris: seq<Text>,
    grantTypes: seq<Text>,
    scopes: seq<Text>)

  /** `scope_kind` is 'organization' exactly when `organization_id` is set (CHECK constraint). */
  datatype OidcClient = OidcClient(
    organization: Option<OrganizationId>,
    confidential: bool,
    secretHash: Option<Text>,
    active: bool,
    boundary: ClientBoundary)

  datatype AuthorizationCode = AuthorizationCode(
    client: ClientId,
    organization: Option<OrganizationId>,
    user: UserId,
    redirectUri: Text,
    scopes: seq<Text>,
    expires: Time,
    consumed: Option<Time>)

  datatype Assignable = AssignableTo(kind: PrincipalKind) | AssignableToAll
  datatype RoleScope = PlatformScope | OrganizationScope
  datatype Role = Role(assignableTo: Assignable, scope: RoleScope)

  /** A row of `password_reset_tokens` or of `email_verification_tokens`. */
  datatype Proof = Proof(
    id: ProofId,
    user: UserId,
    emailSnapshot: Text,
    expires: Time,
    consumed: Option<Time>,
    revoked: Option<Time>)

  datatype Tenancy = Tenancy(
    organizations: map<OrganizationId, Organization>,
    principals: map<PrincipalId, Principal>,
    users: map<UserId, User>,
    memberships: map<(OrganizationId, PrincipalId), Membership>)

  datatype RefreshTables = RefreshTables(
    sessions: map<SessionId, Session>,
    tokens: map<Token, SessionToken>,
    legacy: map<Token, LegacyToken>)

  datatype OidcTables = OidcTables(
    clients: map<ClientId, OidcClient>,
    codes: map<Code, AuthorizationCode>)

  datatype RoleTables = RoleTables(
    roles: map<RoleId, Role>,
    permissions: set<(RoleId, Text)>,
    ofUser: set<(UserId, RoleId)>,
    ofPrincipal: set<(PrincipalId, RoleId)>)

  datatype ProofTables = ProofTables(
    reset: map<Token, Proof>,
    email: map<Token, Proof>)

  datatype DB = DB(
    tenancy: Tenancy,
    refresh: RefreshTables,
    oidc: OidcTables,
    rbac: RoleTables,
    proofs: ProofTables)

  /** Freshly migrated tables: no rows but the internal organization. */
  const EMPTY_DB: DB := DB(
    Tenancy(map[INTERNAL_ORGANIZATION := Organization(InternalOrg, OrgActive)], map[], map[], map[]),
    RefreshTables(map[], map[], map[]),
    OidcTables(map[], map[]),
    RoleTables(map[], {}, {}, {}),
    ProofTables(map[], map[]))
}
