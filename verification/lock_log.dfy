/** The rows a tenant transaction has locked, against the rows it decides on and writes. */
module LockLog {
  import opened Schema
  import opened RefreshSession
  import opened Organizations
  import opened LockOrder

  lemma NoLocks() returns (locks: seq<Lock>)
    ensures locks == [] && Disciplined(locks)
  {
    locks := [];
  }

  lemma TenantFirst(organization: OrganizationId)
    ensures Disciplined([] + [OrganizationRow(organization)])
  {
  }

  /** Everything that makes a member's session valid. */
  ghost predicate LocksMember(locks: seq<Lock>, organization: OrganizationId, principal: PrincipalId) {
    && OrganizationRow(organization) in locks
    && PrincipalRow(principal) in locks
    && UserRow(principal.refId) in locks
    && MembershipRow(organization, principal) in locks
  }

  function MemberLocks(organization: OrganizationId, principal: PrincipalId): seq<Lock> {
    [OrganizationRow(organization), PrincipalRow(principal), UserRow(principal.refId),
     MembershipRow(organization, principal)]
  }

  /** The organization and the principal in one statement, then the membership if there is one. */
  lemma PairThenMember(organization: OrganizationId, principal: PrincipalId)
    ensures var pair := [] + [OrganizationRow(organization), PrincipalRow(principal)];
            Disciplined(pair) && Disciplined(pair + [MembershipRow(organization, principal)])
  {
  }

  lemma PrefixAscends(ids: seq<RowId>, n: nat)
    requires Ascending(ids) && n <= |ids|
    ensures Ascending(ids[..n])
  {
  }

  lemma MoreLocks(locks: seq<Lock>, more: seq<Lock>, organization: OrganizationId, principal: PrincipalId)
    requires locks <= more && LocksMember(locks, organization, principal)
    ensures LocksMember(more, organization, principal)
  {
    assert forall l | l in locks :: l in more;
  }

  lemma MemberLocksAreOrdered(organization: OrganizationId, principal: PrincipalId)
    ensures var locks := MemberLocks(organization, principal);
            Disciplined(locks) && LocksMember(locks, organization, principal)
  {
  }

  lemma {:induction false} PresentHas(ids: seq<PrincipalId>, existing: set<PrincipalId>, p: PrincipalId)
    requires p in ids && p in existing
    ensures p in Present(ids, existing)
  {
    if ids[0] != p {
      PresentHas(ids[1..], existing, p);
    }
  }

  lemma ContextHas(id: OrganizationId, principals: seq<PrincipalId>, users: seq<RowId>, members: seq<PrincipalId>)
    ensures var locks := Context(id, principals, users, members);
            && (forall p | p in principals :: PrincipalRow(p) in locks)
            && (forall u | u in users :: UserRow(u) in locks)
            && (forall m | m in members :: MembershipRow(id, m) in locks)
  {
    var locks := Context(id, principals, users, members);
    forall i | 0 <= i < |principals|
      ensures PrincipalRow(principals[i]) in locks
    {
      assert locks[1 + i] == PrincipalRow(principals[i]);
    }
    forall i | 0 <= i < |users|
      ensures UserRow(users[i]) in locks
    {
      assert locks[1 + |principals| + i] == UserRow(users[i]);
    }
    forall i | 0 <= i < |members|
      ensures MembershipRow(id, members[i]) in locks
    {
      assert locks[1 + |principals| + |users| + i] == MembershipRow(id, members[i]);
    }
  }

  /** The rows that a manager and a target have, statement by statement: the principals of both, their
    * accounts one by one, and their memberships. */
  lemma ManagerLocks(id: OrganizationId, actor: PrincipalId, target: PrincipalId, principals: set<PrincipalId>,
                     users: seq<RowId>, members: set<PrincipalId>)
    requires Ascending(users)
    ensures var both := Principals(actor, target);
            var locks := Context(id, Present(both, principals), users, Present(both, members));
            && Disciplined(locks) && OrganizationRow(id) in locks
            && (forall p | p in {actor, target} && p in principals :: PrincipalRow(p) in locks)
            && (forall u | u in users :: UserRow(u) in locks)
            && (forall p | p in {actor, target} && p in members :: MembershipRow(id, p) in locks)
  {
    hide Disciplined, Context, PrincipalBefore;
    var both := Principals(actor, target);
    PairAscends(actor, target);
    PresentAscend(both, principals);
    PresentAscend(both, members);
    ContextIsDisciplined(id, Present(both, principals), users, Present(both, members));
    ContextHas(id, Present(both, principals), users, Present(both, members));
    var locks := Context(id, Present(both, principals), users, Present(both, members));
    forall p | p in {actor, target} && p in principals
      ensures PrincipalRow(p) in locks
    {
      PresentHas(both, principals, p);
    }
    forall p | p in {actor, target} && p in members
      ensures MembershipRow(id, p) in locks
    {
      PresentHas(both, members, p);
    }
  }

  lemma {:induction false} PresentInNone(ids: seq<PrincipalId>)
    ensures Present(ids, {}) == []
  {
    if ids != [] {
      PresentInNone(ids[1..]);
    }
  }

  /** The context grows by appending. */
  lemma ContextGrows(id: OrganizationId, principals: seq<PrincipalId>, users: seq<RowId>)
    ensures [] + [OrganizationRow(id)] + PrincipalRows(principals) == Context(id, principals, [], [])
    ensures forall i | 0 <= i < |users| ::
              Context(id, principals, users[..i], []) + [UserRow(users[i])]
              == Context(id, principals, users[..i + 1], [])
    ensures forall members ::
              Context(id, principals, users, []) + MembershipRows(id, members)
              == Context(id, principals, users, members)
  {
    forall i | 0 <= i < |users|
      ensures Context(id, principals, users[..i], []) + [UserRow(users[i])]
              == Context(id, principals, users[..i + 1], [])
    {
      assert UserRows(users[..i]) + [UserRow(users[i])] == UserRows(users[..i + 1]);
    }
  }

  function MembersOf(t: Tenancy, id: OrganizationId): set<PrincipalId> {
    set k | k in t.memberships && k.0 == id :: k.1
  }

  /** The row was there and is changed or removed. */
  predicate Rewritten<K, V(==)>(before: map<K, V>, after: map<K, V>, k: K) {
    k in before && (k !in after || after[k] != before[k])
  }

  /** Every row that was there and that the transaction changes or removes is locked. */
  ghost predicate WritesLocked(before: DB, after: DB, organization: OrganizationId, locks: seq<Lock>) {
    && (after.tenancy.organizations != before.tenancy.organizations ==> OrganizationRow(organization) in locks)
    && (forall k | Rewritten(before.tenancy.memberships, after.tenancy.memberships, k) ::
          MembershipRow(k.0, k.1) in locks)
    && (forall sid | Rewritten(before.refresh.sessions, after.refresh.sessions, sid) ::
          TenantRow(organization, SessionKey(sid)) in locks)
    && (forall c | c in before.oidc.codes && c !in after.oidc.codes :: TenantRow(organization, CodeKey(c)) in locks)
  }

  lemma NothingWritten(db: DB, organization: OrganizationId, locks: seq<Lock>)
    ensures WritesLocked(db, db, organization, locks)
  {
  }

  function StatusRows(db: DB, now: Time, id: OrganizationId): set<TenantKey> {
    (set sid | sid in db.refresh.sessions && Selects(OfOrganization(id), db.refresh.sessions[sid], now) ::
       SessionKey(sid))
    + (set c | c in db.oidc.codes && db.oidc.codes[c].organization == Some(id) :: CodeKey(c))
  }

  /** Leaving 'active' revokes the tenant's sessions and drops its codes, under the tenant's lock. */
  lemma StatusLocks(db: DB, now: Time, id: OrganizationId, status: OrganizationStatus, locks: seq<Lock>)
    returns (more: seq<Lock>)
    requires Disciplined(locks) && OrganizationRow(id) in locks
    ensures locks <= more && Disciplined(more) && WritesLocked(db, SetStatus(db, now, id, status).0, id, more)
  {
    hide Disciplined, ValidTransition;
    more := AddRows(locks, id, StatusRows(db, now, id));
    var after := SetStatus(db, now, id, status).0;
    forall sid | sid in db.refresh.sessions && after.refresh.sessions[sid] != db.refresh.sessions[sid]
      ensures TenantRow(id, SessionKey(sid)) in more
    {
      assert SessionKey(sid) in StatusRows(db, now, id);
    }
    forall c | c in db.oidc.codes && c !in after.oidc.codes
      ensures TenantRow(id, CodeKey(c)) in more
    {
      assert CodeKey(c) in StatusRows(db, now, id);
    }
  }

  function MemberRows(db: DB, now: Time, p: MembershipParams): set<TenantKey> {
    var member := OfMember(p.organization, p.principal);
    (set sid | sid in db.refresh.sessions && Selects(member, db.refresh.sessions[sid], now) :: SessionKey(sid))
    + (set c | c in db.oidc.codes && db.oidc.codes[c].organization == Some(p.organization) :: CodeKey(c))
  }

  /** `after` differs from `db` in the membership, the member's sessions and the tenant's codes. */
  ghost predicate OnlyMember(db: DB, after: DB, now: Time, p: MembershipParams) {
    && after.tenancy.organizations == db.tenancy.organizations
    && (forall k | k in db.tenancy.memberships && k != (p.organization, p.principal) ::
          k in after.tenancy.memberships && after.tenancy.memberships[k] == db.tenancy.memberships[k])
    && (|| after.refresh.sessions == db.refresh.sessions
        || exists reason ::
             after.refresh.sessions
             == RevokeWhere(db.refresh.sessions, OfMember(p.organization, p.principal), now, reason))
    && (forall c | c in db.oidc.codes && db.oidc.codes[c].organization != Some(p.organization) :: c in after.oidc.codes)
  }

  lemma UpsertOnlyMember(db: DB, now: Time, p: MembershipParams)
    ensures OnlyMember(db, UpsertMembership(db, now, p).0, now, p)
  {
    hide MembershipError, RevokeWhere;
  }

  lemma ManagerOnlyMember(db: DB, now: Time, actor: PrincipalId, p: MembershipParams)
    ensures OnlyMember(db, UpsertMembershipAsManager(db, now, actor, p).0, now, p)
  {
    hide ManagerWriteError, RevokeWhere;
  }

  lemma MembershipLocks(db: DB, after: DB, now: Time, p: MembershipParams, locks: seq<Lock>) returns (more: seq<Lock>)
    requires Disciplined(locks) && OrganizationRow(p.organization) in locks
    requires (p.organization, p.principal) in db.tenancy.memberships ==>
               MembershipRow(p.organization, p.principal) in locks
    requires OnlyMember(db, after, now, p)
    ensures locks <= more && Disciplined(more) && WritesLocked(db, after, p.organization, more)
  {
    hide Disciplined;
    var rows := MemberRows(db, now, p);
    more := AddRows(locks, p.organization, rows);
    forall sid | sid in db.refresh.sessions && after.refresh.sessions[sid] != db.refresh.sessions[sid]
      ensures TenantRow(p.organization, SessionKey(sid)) in more
    {
      assert SessionKey(sid) in rows;
    }
    forall c | c in db.oidc.codes && c !in after.oidc.codes
      ensures TenantRow(p.organization, CodeKey(c)) in more
    {
      assert CodeKey(c) in rows;
    }
  }
}
