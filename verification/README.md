# Keylo in Dafny

A model of the stateful core of Keylo, an authentication and authorization server, with proofs of
the properties its transactions are written for. `dafny verify dfyconfig.toml` checks the project.

Keylo keeps its state in SQL tables that many transactions share. The model has three layers.

* **Tables and transactions as values.** `schema.dfy` holds the tables; `refresh_session.dfy`,
  `legacy_tokens.dfy`, `organization.dfy`, `user.dfy`, `platform_roles.dfy`, `oidc.dfy` and
  `account_proofs.dfy` give the effect of each transaction of the source file of the same name.
  A statement that is one SQL query stays one function.
* **The transactions statement by statement.** `database.dfy` has the multi-statement transactions
  as methods of a class `Database` that reassign its tables in the order of the source, with
  explicit rollback; each is proved to have the effect of its value-level form and to guarantee
  what `guarantees.dfy` states, and the tenant transactions to lock as `lock_log.dfy` states.
  `handlers.dfy` has the token handlers, which call several of them; `handler_steps.dfy` shows that
  a call is a sequence of steps of a run and `handler_runs.dfy` what follows for whole calls.
* **Runs.** `world.dfy` composes every transaction into one machine over a clock: a run is any
  interleaving, and a handler that issues several transactions is several steps. The theorems
  about runs are in `tenant_safety.dfy`, `session_families.dfy`, `family_runs.dfy`,
  `two_stores.dfy`, `role_soundness.dfy`, `role_agreement.dfy`, `role_answers.dfy`,
  `customer_roles.dfy`, `role_fit.dfy`, `code_runs.dfy`, `proof_runs.dfy` and
  `owner_stability.dfy`; `role_races.dfy` and `code_races.dfy` hold runs in which a property fails.

Separate from the tables: `lock_order.dfy` (row locks and deadlock), `resource_forest.dfy`,
`forest_meaning.dfy`, `forest_building.dfy`, `forest_chains.dfy` and `visibility.dfy` (the resource
tree), `rate_limit.dfy`, `redis_limit.dfy` and `lockout.dfy` (the in-process and Redis counters),
`cursor_text.dfy`, `audit_export.dfy` and `export_end.dfy` (paged export), `text_order.dfy` (the
order of text).

Assumptions, each a rule of the machine in `World.Enabled` or of the data model:

* A transaction that decides on rows it has locked, by SELECT ... FOR UPDATE or by updating or
  deleting them, is one step. Four write on the strength of rows they have only read, and are a
  read and a write each: `update_role`, the role lookup of a provisioning, the repair of a user's
  roles and the issue of an authorization code (both one INSERT ... SELECT). Two read something
  beside what they lock: a redemption joins client, account and tenant to the code it updates, and
  the platform membership write looks at the user class. Their step stands where they read; they
  write only rows they lock, and a code that is consumed or deleted meanwhile is not redeemed.
  The lookup by email and the lookup by username of a reset request may be apart: the machine lets
  it choose any eligible account that either finds.
* The clock does not run backwards. Timestamps count microseconds.
* Generated tokens, codes, proofs and session ids are fresh, and a secret is not presented before
  it is handed out. Only hashes are stored; the hash is injective on issued secrets, so rows are
  keyed by the secret.
* Identifiers and texts that are only compared are opaque numbers; error and reason texts and
  CHECK-constrained columns are enumerations, so texts outside them are refused by type.
* `ensure_user_principal` and `ensure_client_principal` read and write in separate statements, so
  the machine lets them write any active flag at any time. The check of `update_role` changes
  nothing, so the machine has its write alone, without the check. Role ids are not used again;
  account ids may be.
* Foreign keys cascade as in the repository's migrations.

Six properties are false of the code as it stands. Each has a run that shows it and the exact
condition under which it holds, over whole runs and in terms of what the writes find:

* Every platform binding fits its role's `assignable_to`: `RoleRaces.StaleCheckMisfits` and
  `RoleRaces.StaleReadMisfits`; `RoleFit.BindingsFitIffGuardsHold`.
* The two role tables agree on users: `RoleRaces.StaleSyncSplits`;
  `RoleAgreement.RolesAgreeIffSyncsBacked`.
* The two permission checks agree: `RoleRaces.StaleSyncDiffers`;
  `RoleAnswers.AnswersAgreeIffKept`, for whatever permissions the roles are given.
* External customers hold no platform role: `CustomerRoles.CustomerHoldsARole`;
  `CustomerRoles.CustomersFreeIffKept`.
* A code is redeemed under the registration it was issued under:
  `CodeRaces.RedeemedUnderOtherTerms`; `CodeRuns.SafeIffInsertStood` and
  `CodeRuns.RedeemedUnderUnbrokenTerms`.
* Paging through the audit log ends: `ExportEnd.PagingNeedNotEnd`; `ExportEnd.GoesOnIff`, which says
  of every number of pages whether it was the last.

Two bounds hold only under a condition that the model states both ways: the Redis counters need a
positive window (`RedisLimit.BucketAdmits`), and after an expired lock the maximum number of login
failures locks unless a check falls between them (`Lockout.ExpiredLockForgets`,
`Lockout.ExpiredLockLocksIff`).

## Model

| member | source | states |
|---|---|---|
| `DatabaseTransactions.Database.LockActiveOrganizationSessionContext` | src/db/refresh_session.rs:57-151 | the step-by-step checks accept exactly the contexts `ContextActive` describes; rows are locked in the order of `Disciplined`, and a positive answer rests on locked rows only |
| `DatabaseTransactions.Database.CreateRefreshSession` | src/db/refresh_session.rs:157-209 | both rows are written or, on an inactive context or a violated key, the database is as before; a scoped creation holds the locks of its whole context |
| `DatabaseTransactions.Database.ConsumeAndRotateRefreshSession` | src/db/refresh_session.rs:215-402 | whole new state and answer of a rotation: not found, scope mismatch, inactive context, replay, conflict (rolled back) and success; a scoped success holds the locks of its context, then of the session and the token |
| `DatabaseTransactions.Database.RevokeRefreshSessionByToken` | src/db/refresh_session.rs:425-477 | a known token and its session end up revoked, at the earlier time if there was one, and no other row changes; an unknown token changes nothing |
| `DatabaseTransactions.Database.SetOrganizationStatus` | src/db/organization.rs:398-470 | after leaving 'active' no session of the tenant can be refreshed and no code of it is pending; other tenants, and everything on other changes or refusals, stay as they were; every row it rewrites is locked, under the tenant's lock |
| `DatabaseTransactions.Database.UpsertOrganizationMembership` | src/db/organization.rs:473-609 | the row asked for and no other; unless it is active no session of the member in the tenant can be refreshed and no code of the member is pending; refusals change nothing; every row it rewrites is locked in order |
| `DatabaseTransactions.Database.LockOrganizationManagerContext` | src/db/organization.rs:84-242 | the checks of a delegated write in the source's order; principals, accounts and memberships of both are locked ascending, and a context handed on rests on locked rows only |
| `DatabaseTransactions.Database.UpsertOrganizationMembershipAsManager` | src/db/organization.rs:680-793 | the row asked for and no other, with the member's sessions ended unless active, or an active member left as is by a retried invitation; a manager who is no owner changes no owner; every row it rewrites is locked in order |
| `DatabaseTransactions.Database.JoinOrganizationMembership` | src/db/organization.rs:838-932 | an invited member becomes active, an active one is left as is, every other case is refused unchanged; organization, principal, account and membership are locked in order |
| `DatabaseTransactions.Database.PromoteUserToInternalEmployee` | src/db/organization.rs:1198-1311 | class, principal and internal membership change together or not at all; account, principal and membership are locked in this order, as far as they exist |
| `DatabaseTransactions.Database.SetUserClass` | src/db/user.rs:176-261 | only the class of the account changes, and where it does the account holds no platform role in either table; refusals change nothing |
| `DatabaseTransactions.Database.UpdateUser` | src/db/user.rs:264-380 | the updated account, with proofs revoked when the email changes and sessions revoked on disable or new password; a taken name or email changes nothing |
| `DatabaseTransactions.Database.SetUserActive` | src/db/user.rs:383-427 | only the flag of the account changes; on disable all its sessions, and no others, are revoked |
| `DatabaseTransactions.Database.DeleteUser` | src/db/user.rs:430-478 | the account, its principal and everything that cascades from the two are gone, the rest unchanged |
| `DatabaseTransactions.Database.ResetUserPassword` | src/db/user.rs:502-550 | of a known account only the password changes, to be changed again, all its sessions and no others are revoked; an unknown account changes nothing |
| `DatabaseTransactions.Database.ChangeUserPassword` | src/db/user.rs:588-673 | a change needs an active account and the verified current password; then only the password changes and all its sessions, and no others, are revoked |
| `DatabaseTransactions.Database.ProvisionUserWithRoles` | src/db/user.rs:894-1043 | account, principal and all role bindings, checked against the role rows read earlier, or an untouched database with the first refusal met; a role deleted since then undoes everything |
| `DatabaseTransactions.Database.CheckRoles` | src/db/rbac.rs:715-720 | the loop returns the first refusal of the list, or none |
| `DatabaseTransactions.Database.BindRoles` | src/db/rbac.rs:722-738 | the loop adds exactly the listed bindings to both tables |
| `DatabaseTransactions.Database.AssignRolesToUserBatch` | src/db/rbac.rs:691-741 | every role of the batch in both tables, or none, with the first refusal |
| `DatabaseTransactions.Database.RevokeRoleFromUser` | src/db/rbac.rs:744-773 | the binding is in neither table and every other one is where it was; the answer tells whether anything changed |
| `DatabaseTransactions.Database.AssignRoleToPrincipal` | src/db/principal.rs:189-257 | on success the principal may hold the role and the binding is there, in both tables for a user, and every other one where it was; on refusal nothing changed |
| `DatabaseTransactions.Database.RevokeRoleFromPrincipal` | src/db/principal.rs:286-332 | the binding is in no table, every other one where it was, and the answer tells whether anything changed; a missing account is an error without effect |
| `DatabaseTransactions.Database.UpdateOidcClient` | src/db/oidc.rs:319-386 | the pending codes of an active client survive exactly when it stays active with the same boundary; consumed codes and those of other clients stay in any case |
| `DatabaseTransactions.Database.RotateOidcClientSecret` | src/db/oidc.rs:415-452 | a new secret is given only to an active confidential client in scope and leaves no pending code of it there; otherwise nothing changes |
| `DatabaseTransactions.Database.FindEligibleUser` | src/db/password_reset.rs:47-74 | an eligible account by email, else by username, else none |
| `DatabaseTransactions.Database.IssuePasswordResetToken` | src/db/password_reset.rs:84-128 | older pending proofs are revoked and one new proof stored, or nothing |
| `DatabaseTransactions.Database.ConsumePasswordResetToken` | src/db/password_reset.rs:140-267 | refusal revokes a pending proof; success consumes it, resets the password and ends sessions and sibling proofs |
| `DatabaseTransactions.Database.IssueEmailVerificationToken` | src/db/email_verification.rs:35-92 | one new proof in place of older ones for an active unverified account, or nothing |
| `DatabaseTransactions.Database.ConsumeEmailVerificationToken` | src/db/email_verification.rs:103-185 | refusal revokes a pending proof; success consumes it and verifies the email |
| `DatabaseTransactions.Database.CreateRefreshToken` | src/db/mod.rs:554-573 | on success the token is honoured for its client until exactly its expiry; an unknown client or a taken key changes nothing |
| `DatabaseTransactions.Database.ConsumeRefreshToken` | src/db/mod.rs:593-606 | once consumed, the table never honours the token again at any time; a refusal changes nothing; no other row changes |
| `DatabaseTransactions.Database.RevokeRefreshTokenByToken` | src/db/mod.rs:618-628 | the table never honours the token again at any time, and no other row changes; tells whether there was one |
| `AuthHandlers.AuthRefresh` | src/handlers/auth.rs:1807-2011 | the call is a sequence of steps that runs allow, with their effect; if it is answered one of them redeemed the token |
| `AuthHandlers.AdminToken` | src/handlers/auth.rs:818-899 | principal, session policy, session row and older row in this order, each failure keeping what came before it; a sequence of steps that runs allow; under the policy one live session is left |
| `AuthHandlers.AuthLogout` | src/handlers/auth.rs:2026-2038 | the session is revoked, or else the older row; steps that runs allow, the last of which completes a logout with the token |
| `HandlerRuns.PrecheckAgrees` | src/db/organization.rs:936-974 | for users the membership lookup and the locked session check accept the same contexts |
| `HandlerRuns.ScopedRefreshIsRotation` | src/handlers/auth.rs:1820-1916 | with its own claims a scoped refresh is answered exactly when the rotation redeems the token |
| `HandlerSteps.RefreshRuns` | src/handlers/auth.rs:1820-2011 | from any world a refresh request has the effect of its steps, each enabled where it happens; an answer needs a redeeming step |
| `HandlerSteps.LegacyRuns` | src/handlers/auth.rs:1946-1998 | so has the compatibility path: consumption, principal, access claims, session |
| `HandlerSteps.ManagedRuns` | src/handlers/auth.rs:818-899 | a management login has the effect of its steps, each enabled where it happens |
| `HandlerRuns.RefreshedAtMostOnce` | src/handlers/auth.rs:1807-2011 | of two refresh requests of a run with one token at most one is answered |
| `HandlerRuns.InterruptedAtMostOnce` | src/handlers/auth.rs:1867-1950 | two refreshes with one token, interleaved with each other and with anything, are not both accepted |
| `HandlerRuns.NoRefreshAfterLogout` | src/handlers/auth.rs:2013-2055 | after a logout request no refresh request with that token is answered |
| `HandlerRuns.LoginRefreshesOnce` | src/handlers/auth.rs:818-899 | the token of a management login of an active administrative client is refreshed once and then refused for good |
| `HandlerRuns.PolicyLeavesOne` | src/handlers/auth.rs:268-308 | an undisturbed login under the single-session policy leaves exactly its own session live, and without takeover is refused exactly when another is |
| `HandlerRuns.RefusedRefreshCostsTheToken` | src/handlers/auth.rs:231-239 | an older token whose client is gone, inactive or not administrative is spent without an answer or a session |
| `Guarantees.SetStatusGuarantee` | src/db/organization.rs:398-470 | the effect of a status change on every table, as `SetOrganizationStatus` promises it |
| `Guarantees.UpsertGuarantee` | src/db/organization.rs:473-609 | the effect of a membership write on every table |
| `Guarantees.ManagerUpsertGuarantee` | src/db/organization.rs:680-793 | the effect of a delegated membership write; it keeps all codes |
| `Guarantees.AssignPrincipalGuarantee` | src/db/principal.rs:189-257 | a role is bound only to a principal that may hold it, in every table it belongs to |
| `Guarantees.UpdateClientGuarantee` | src/db/oidc.rs:351-363 | which pending codes survive a reconfiguration |
| `TenantSafety.TenantInvariant` | src/db/refresh_session.rs:157-209 | in every state of every run a live scoped session has an active organization, an active membership and an active account |
| `TenantSafety.Preserved` | src/db/organization.rs:398-470 | every step of every transaction keeps that, over a clock that never runs back |
| `TenantSafety.StatusKeeps` | src/db/organization.rs:437-463 | leaving 'active' needs the revocation; every other status change, disabled to archived included, needs none because of the invariant |
| `TenantSafety.MembershipKeeps` | src/db/organization.rs:569-588 | writing any status but 'active' ends exactly the live sessions that would break the invariant |
| `TenantSafety.AccountKeeps` | src/db/user.rs:337-351 | an account that stays active, or whose sessions are revoked, keeps the invariant |
| `TenantSafety.AccountChangesEndSessions` | src/db/user.rs:383-427 | disable, delete and every password replacement leave no unrevoked session of the account, scoped or not |
| `TenantSafety.BulkRevocationsEnd` | src/db/refresh_session.rs:653-742 | each bulk revocation ends exactly the sessions it is about and leaves every other as it was |
| `FamilyRuns.FamilyInvariant` | src/db/refresh_session.rs:348-401 | in every state of every run families have their shape and every id in use is on record |
| `SessionFamilies.ExactlyOneUnconsumed` | src/db/refresh_session.rs:174-205 | every session has exactly one unconsumed token, the current one; tokens minus one equals rotations; every token has the session's expiry |
| `SessionFamilies.CreateKeepsShape` | src/db/refresh_session.rs:174-205 | creation starts a family of one token and no rotation |
| `SessionFamilies.RotateKeepsShape` | src/db/refresh_session.rs:348-401 | rotation consumes the one unconsumed token, adds its successor and counts one more rotation |
| `SessionFamilies.StepOnlyRevokes` | src/db/refresh_session.rs:404-477 | every other step only revokes sessions or removes whole user-owned families |
| `FamilyRuns.FamiliesEvolve` | src/db/refresh_session.rs:404-477 | between any two moments of a run scope, owner and expiry stand, revocation times and reasons are write-once, and a row once gone stays gone |
| `FamilyRuns.RevokedIsFinal` | src/db/refresh_session.rs:331-346 | no token of a revoked session is redeemed at any later step |
| `FamilyRuns.ReplayKillsFamily` | src/db/refresh_session.rs:331-346 | a spent token presented before expiry, in scope and in an active context is answered as replay, revokes the session, and no token of it is redeemed later |
| `FamilyRuns.ScopeMismatchIsInert` | src/db/refresh_session.rs:249-254 | a token of another scope is refused and no row changes |
| `FamilyRuns.RotationKeepsScope` | src/db/refresh_session.rs:348-401 | what a rotation hands back at any later step is the owner, client, organization and expiry seen earlier |
| `FamilyRuns.CreatedScopeIsKept` | src/db/refresh_session.rs:157-209 | and it is, to the second, what the session was created with, by a login or a management login |
| `FamilyRuns.OnlyNewestIsRedeemed` | src/db/refresh_session.rs:348-401 | only the current token is redeemed, and its successor is the current one afterwards |
| `FamilyRuns.LiveSessionRefreshes` | src/db/refresh_session.rs:215-402 | the current token of a live session is redeemed exactly when the session is unscoped or the account fits the tenant; no other check can refuse it |
| `TwoStores.RedeemedAtMostOnce` | src/handlers/auth.rs:1870-1950 | over every run a token string is redeemed at most once across both tables, although one login writes it to both |
| `TwoStores.LoggedOutIsFinal` | src/handlers/auth.rs:2026-2038 | a logged-out token is never redeemed afterwards, from either table |
| `TwoStores.AgreeInvariant` | src/handlers/auth.rs:870-899 | both rows of a token share one expiry and a client-owned session, and a refresh falls back only when the session row is missing or expired |
| `TwoStores.NotFoundMeansExpired` | src/db/refresh_session.rs:324-327 | the rotation answers not-found for a known token only after its expiry |
| `TwoStores.LegacyStep` | src/db/mod.rs:593-649 | rows of the older table come from pending logins only, and no step undoes a revocation there |
| `TwoStores.CleanupChangesNoAnswer` | src/db/mod.rs:643-649 | cleanup of the older table changes no later answer |
| `TwoStores.DeadStaysDead` | src/db/mod.rs:593-606 | once neither table can honour a token, no step revives it |
| `RoleSoundness.SoundInvariant` | src/db/rbac.rs:667-773 | in every state of every run bindings are of platform roles to existing holders, `user_roles` have twins in `principal_roles`, and their accounts are employees |
| `RoleAgreement.RolesAgreeIffSyncsBacked` | src/db/principal.rs:259-284 | over a run the two tables agree on users in every state exactly when every repair, at its insert, found the rows it had read still there |
| `RoleAgreement.SyncTwinsIffBacked` | src/db/principal.rs:259-284 | one repair keeps the agreement exactly then |
| `RoleAgreement.OnePermissionAnswer` | src/db/rbac.rs:930-956 | in every state a user's permission is the principal's; while repairs were backed both checks give one answer and customers hold no platform role; the exact conditions are the next rows |
| `RoleAnswers.OneAnswerIffTwinned` | src/db/principal.rs:465-492 | the two checks agree under every assignment of permissions exactly when every binding of an employee's principal has its twin in `user_roles` |
| `RoleAnswers.AnswersAgreeIffKept` | src/db/principal.rs:259-284 | over a run they agree in every state exactly when every repair for an employee found its rows still there and no employee was created under an id with bindings |
| `CustomerRoles.CustomersFreeIffKept` | src/db/user.rs:197-228 | over a run no customer holds a platform role in either table exactly when no repair inserted for a customer and none was created under an id with bindings |
| `CustomerRoles.CustomerHoldsARole` | src/db/principal.rs:259-284 | a run in which an employee whose role a repair has read loses it, becomes a customer, and gets it back |
| `RoleAgreement.PrincipalPermissionIsUsers` | src/db/principal.rs:465-492 | a permission of the principal is one of the user |
| `RoleAgreement.UserPermissionIsPrincipals` | src/db/rbac.rs:930-956 | a permission of the user is one of the principal |
| `RoleSoundness.ClassChangeSound` | src/db/user.rs:197-228 | the guard on class changes is enough to keep the accounts of `user_roles` employees |
| `RoleAgreement.SyncIsIdle` | src/db/principal.rs:259-284 | an undisturbed repair adds nothing while the tables agree |
| `RoleFit.WriteFitsIffCompatible` | src/db/rbac.rs:260-302 | a write of `assignable_to` keeps every binding fitting exactly when the compatibility check would pass at the write |
| `RoleFit.ProvisionFitsIff` | src/db/user.rs:986-1034 | a provisioning keeps every binding fitting exactly when its guard, passed on the rows it read, would pass at the insert |
| `RoleFit.SyncFitsIff` | src/db/principal.rs:259-284 | so does a repair |
| `RoleFit.BindingsFitIffGuardsHold` | src/db/rbac.rs:73-121 | over a run every binding fits in every state exactly when the guard of every role update, provisioning and repair held at its write |
| `RoleRaces.StaleCheckMisfits` | src/db/rbac.rs:260-302 | a run in which the check of a role update passes, a binding follows, and the update leaves it unfitting |
| `RoleRaces.StaleReadMisfits` | src/db/user.rs:988-1034 | a run in which a provisioning reads a role, a compatible update follows, and the provisioning then binds it unfitting |
| `RoleRaces.StaleSyncSplits` | src/db/principal.rs:259-284 | wherever a user holds a role, a repair around a revocation puts it back into one table |
| `RoleRaces.StaleSyncDiffers` | src/db/principal.rs:465-492 | so in some reachable state the principal has a permission that the user lacks |
| `CodeRuns.SafeIffInsertStood` | src/db/oidc.rs:455-511 | over a run an unconsumed code has, in every state, an active client with the boundary its issue found and an active tenant, exactly when it had them at its insert |
| `CodeRaces.StaleIssueOutlives` | src/db/oidc.rs:455-511 | wherever a code can be issued, for a platform client or a tenant's, a reconfiguration between lookup and insert leaves a code that is redeemed under other terms |
| `CodeRaces.StaleIssueSurvivesClosure` | src/db/organization.rs:437-463 | and a closure of the tenant in between leaves a pending code in it |
| `CodeRaces.RedeemedUnderOtherTerms` | src/db/oidc.rs:550-614 | so some run redeems a code under a registration other than the one its issue found |
| `CodeRuns.CodeRedeemedAtMostOnce` | src/db/oidc.rs:514-547 | a code is redeemed at most once in a run |
| `CodeRuns.RedeemedUnderUnbrokenTerms` | src/db/oidc.rs:550-614 | from insert to redemption the client stayed active and as its issue found it and the tenant active, exactly when they were so at the insert; the code carries its grant |
| `CodeRuns.ContextRecords` | src/db/oidc.rs:460-486 | the lookup finds the client active, in scope and in an active tenant, and its boundary goes on record |
| `CodeRuns.StoringSettles` | src/db/oidc.rs:492-509 | the inserted code carries the grant of its lookup |
| `CodeRuns.RedemptionNeedsPending` | src/db/oidc.rs:514-547 | a redemption takes a pending code and leaves it consumed |
| `CodeRuns.PendingCodeRedeems` | src/db/oidc.rs:550-614 | a code whose grant stood at its insert is redeemed for a client exactly when it is pending, unexpired, of that client and tenant, and its account, principal and membership are active |
| `CodeRuns.UpdateClientKeeps` | src/db/oidc.rs:351-363 | a reconfiguration keeps this, the inactive client included, because it has no pending codes |
| `CodeRuns.StatusKeeps` | src/db/organization.rs:437-463 | so does every status change of a tenant |
| `ProofRuns.ProofInvariant` | src/db/user.rs:281-336 | in every state an account has at most one pending proof per kind, made out to its current email; a pending reset proof has a verified email and a password behind it |
| `ProofRuns.PendingResetWorks` | src/db/password_reset.rs:181-200 | in every reachable state a reset proof resets exactly when it is pending, unexpired and its account active |
| `ProofRuns.ResetTakesEffect` | src/db/password_reset.rs:203-247 | a reset replaces the password, ends all sessions of the account and all pending reset proofs, and touches no other account |
| `ProofRuns.NewProofUsable` | src/db/password_reset.rs:96-121 | a freshly issued proof is pending and unexpired, whatever the lifetime asked for |
| `ProofRuns.DroppedProofEnds` | src/db/password_reset.rs:270-280 | taking back a proof ends it if pending and changes no other |
| `ProofRuns.EndedProofIsFinal` | src/db/email_verification.rs:141-184 | a consumed or revoked proof never acts again |
| `ProofRuns.ProofWorksAtMostOnce` | src/db/email_verification.rs:141-184 | a proof acts on an account at most once in a run |
| `OwnerStability.AdminsNeverUnseatOwners` | src/db/organization.rs:680-793 | over any stretch of delegated writes by non-owners the owner rows are unchanged and active owners stay active |
| `OwnerStability.AdminWriteKeepsOwners` | src/db/organization.rs:717-735 | one such write adds and removes no owner |
| `LockOrder.NoDeadlock` | src/db/organization.rs:84-167 | no schedule of manager writes, joins, scoped creations and rotations and status changes ever forms a circle of waits |
| `LockOrder.SomeoneProceeds` | src/db/refresh_session.rs:57-151 | while any of them is in flight one is not waiting |
| `LockOrder.ContextIsDisciplined` | src/db/organization.rs:84-167 | a tenant, ascending principals, ascending accounts and ascending memberships are locked in order |
| `LockOrder.OrderIsNeeded` | src/db/organization.rs:1203-1280 | promotion locks in the opposite order and can wait in a circle with an orderly transaction |
| `LockLog.StatusLocks` | src/db/organization.rs:437-463 | a status change rewrites only rows of its tenant that it has locked |
| `LockLog.MembershipLocks` | src/db/organization.rs:569-605 | so does a membership write |
| `LockOrder.TenantRowsAreFree` | src/db/organization.rs:437-463 | session and code rows, locked in any order by bulk updates, are never waited for |
| `ResourceForest.TreeBuilder.BuildLevel` | src/db/resource.rs:663-686 | ends on every parent graph and returns, with what is left of both maps, the level that `Level` defines |
| `ForestBuilding.BuildTree` | src/db/resource.rs:645-689 | over rows with distinct ids returns the forest in which every node has all its children, sorted, and its own permissions |
| `ForestBuilding.LevelBuilds` | src/db/resource.rs:663-686 | although both maps are consumed, every group and permission list is still there when its turn comes |
| `ForestMeaning.SortedIsStable` | src/db/resource.rs:669-673 | siblings of one display order and code keep their input order |
| `ForestMeaning.SortedOrders` | src/db/resource.rs:669-673 | siblings come out ordered by display order and code |
| `ForestMeaning.SortedKeeps` | src/db/resource.rs:669-673 | sorting loses and repeats nothing |
| `ForestChains.EachRootedOnce` | src/db/resource.rs:645-689 | the forest holds exactly once each resource whose parent chain reaches a root, and nothing else; its paths are exactly those chains |
| `Visibility.VisibleIsLeast` | src/db/resource.rs:509-517 | the recursive query returns the least set that holds the permitted rows and is closed under active parents of the scope |
| `Visibility.VisibleIffAbovePermitted` | src/db/resource.rs:509-517 | a row is visible exactly when it is permitted or an ancestor of a permitted row |
| `Visibility.TreeShowsVisible` | src/db/resource.rs:498-538 | a path of the tree is exactly a line of active ancestors of the scope, complete up to the first missing one, that ends in a visible row |
| `Visibility.ShownIffOffCycle` | src/db/resource.rs:498-538 | a visible resource is in the tree exactly when following its active parents of the scope upwards comes to an end |
| `RateLimit.Limiter.AllowAuthRequest` | src/state.rs:624-636 | prune, compare, push: whole new state and answer |
| `RateLimit.Limiter.AllowAuthRequestPair` | src/state.rs:688-710 | the pair form is two calls in a row, both made, answers conjoined, also when both keys are one |
| `RateLimit.DecidesByFullHistory` | src/state.rs:624-636 | the pruned log answers every call as the full history of admitted requests would, and the cast to `u32` never truncates |
| `RateLimit.CastNeverTruncates` | src/state.rs:631-631 | a stored log is never as long as a `u32` is wide |
| `RateLimit.WindowBound` | src/state.rs:624-636 | a key with one window and limit has at most `limit` admitted requests in every interval (x, x + window] |
| `RedisLimit.RedisLimiter.AllowAuthRequest` | src/state.rs:589-603 | INCR, then EXPIRE on the first count: whole new state of the counters and the answer |
| `RedisLimit.OutlivesBucket` | src/state.rs:589-603 | a counter started inside a bucket does not expire inside it |
| `RedisLimit.BucketAdmits` | src/state.rs:589-603 | a bucket lets through exactly its first `limit` requests when the window is positive, and otherwise all of them unless the limit is zero |
| `RedisLimit.TwiceTheLimit` | src/state.rs:589-603 | any `window` consecutive seconds let through at most twice the limit |
| `Lockout.LoginAttempts.IsLoginLocked` | src/state.rs:505-518 | seconds left of a lock, and the entries that the check drops |
| `Lockout.LoginAttempts.RecordLoginFailure` | src/state.rs:550-564 | whole new state of a failure: locked, counted, or lock started |
| `Lockout.LoginAttempts.ClearLoginFailures` | src/state.rs:578-579 | the entry is gone, the others stay |
| `Lockout.CountsStayBelow` | src/state.rs:550-564 | stored counts stay below the maximum |
| `Lockout.MaximumLocks` | src/state.rs:550-564 | the maximum number of uncleared failures from an absent entry, among any checks and other principals, locks until exactly the last failure plus the lockout |
| `Lockout.LockStands` | src/state.rs:555-558 | nothing moves a lock before it expires but a clear |
| `Lockout.LocksAreApart` | src/state.rs:550-564 | two locks with no clear between them start at least a lockout apart |
| `Lockout.ExpiredLockLocksIff` | src/state.rs:505-564 | after an expired lock the maximum number of uncleared failures locks exactly when no check of the principal fell between the first and the last, or some check of anyone came before the first |
| `Lockout.ExpiredLockForgets` | src/state.rs:508-518 | a run from no entries: a lock expires, then two failures around a check do not lock at a maximum of two |
| `CursorText.CursorRoundTrip` | src/db/mod.rs:838-853 | the printed cursor parses back to the same pair exactly when the id is not empty and holds no colon, and is refused otherwise |
| `CursorText.IntRoundTrip` | src/db/mod.rs:843-845 | every `i64` parses back from its decimal text |
| `AuditExport.Clamped` | src/handlers/auth.rs:1046-1046 | the limit of a request is between 1 and 200, so every page can move on |
| `AuditExport.ExactlyOnce` | src/db/mod.rs:832-914 | following the cursor to the end delivers every matching row present at the start exactly once, in descending order, under arbitrary inserts between pages |
| `ExportEnd.GoesOnIff` | src/db/mod.rs:887-914 | after any number of pages the export hands out a cursor exactly when pages times limit is less than the wanted rows at the start plus those that became visible behind a cursor since |
| `ExportEnd.EndedDeliversDue` | src/db/mod.rs:832-914 | an ended export has delivered, once each, exactly the wanted rows of the start and the late ones |
| `ExportEnd.LateIsNew` | src/db/mod.rs:868-885 | late rows are counted once, were not there at the start and stay |
| `ExportEnd.PagesAreBounded` | src/db/mod.rs:887-914 | so every export, ended or not, has at most the pages that these rows fill, or one |
| `ExportEnd.PagingEnds` | src/db/mod.rs:887-914 | with nothing late a cursor is handed out exactly until the pages can hold the rows of the start |
| `ExportEnd.PagingNeedNotEnd` | src/db/mod.rs:887-914 | with a late row before every page, any number of pages hand out a cursor over a table of two rows |
| `AuditExport.NextPageExists` | src/handlers/auth.rs:1035-1044 | a cursor that was handed out is always accepted |
| `AuditExport.PageIsCorrect` | src/db/mod.rs:855-914 | one page is a descending run of wanted rows from the cursor on, leaving out only rows behind its last |

## Left out

- Routing, headers, JSON, mail, metrics, configuration, bcrypt, SHA-256, RSA and JWT signing: foreign calls and plumbing; password verification and client lookups are parameters.
- Audit rows, browser sessions, access-token ids, login addresses, names, descriptions and timestamps that no modelled branch reads.
- Membership rows of services and devices written by src/db/machine.rs and src/db/service.rs, organization role bindings, customer-support grants, identity sources, MFA and OAuth providers: easier members of the same kinds.
- Single-session policy as an invariant of runs: its lookup and the creation are separate transactions (src/handlers/auth.rs:268-308); undisturbed logins are modelled.
- "A pending code implies an active membership": the delegated membership write keeps the codes; redemption looks again, which is modelled.
- Trimming, sorting and deduplication of role ids before a batch: the model takes the list as it is then.
- Locks other than the row locks of the named transactions (foreign-key share locks, machine credentials), and the wildcard branch of the resource query, which skips the recursion.
- The Redis forms of the pair limiter and of the lockout.
- Redis and database failures, and log cleanup during an export: the fallbacks are environment faults.
- AuthHandlers.AuthRefresh: the handler without interruption, at one time and on a fixed `clients` table; `HandlerRuns.InterruptedAtMostOnce` has other requests in between.
- DatabaseTransactions.Database.ProvisionUserWithRoles: takes role ids, sorted and without repetition; role names are resolved to ids before, and the answer's role and permission lists are not modelled.
- AuthHandlers.AdminToken: without interruption and from the authenticated client on; the credential check and the rate limits before it are not part of it.
- RedisLimit.TwiceTheLimit: server and Redis read one clock at one instant and a key receives fewer than 2^32 requests.
- AuditExport.ExactlyOnce: rows have ids without a colon, as the generated ones do; `CursorText.CursorRoundTrip` says what happens otherwise.
- LockOrder.NoDeadlock: covers the transactions whose methods promise `Disciplined`; a row inserted by a transaction is not a lock of it, since no other sees it. Promotion, the account transactions, OIDC clients and unscoped sessions are not covered.
- ExportEnd.PagingNeedNotEnd: row times are `i64`, so the number of pages is below its maximum.
