/** Row locks of the tenant transactions (src/db/organization.rs and src/db/refresh_session.rs):
  * they never wait for each other in a circle. */
module LockOrder {
  import opened Schema

  type RowId = int
  type TxId = int

  /** A row locked FOR UPDATE. A refresh session, its tokens and an authorization code belong to
    * one organization for good, so the lock names it. */
  datatype Lock =
    | OrganizationRow(organization: RowId)
    | PrincipalRow(principal: PrincipalId)
    | UserRow(user: RowId)
    | MembershipRow(organization: RowId, member: PrincipalId)
    | TenantRow(organization: RowId, row: TenantKey)

  datatype TenantKey = SessionKey(session: SessionId) | TokenKey(token: Token) | CodeKey(code: Code)

  /** The order of the source: organization, principals by id, users by id, memberships. */
  function Class(l: Lock): nat {
    match l
    case OrganizationRow(_) => 0
    case PrincipalRow(_) => 1
    case UserRow(_) => 2
    case MembershipRow(_, _) => 3
    case TenantRow(_, _) => 4
  }

  /** The place of a principal type in the order of the textual key `{type}-{ref}`. */
  function KindPlace(kind: PrincipalKind): nat {
    match kind
    case ClientKind => 0
    case DeviceKind => 1
    case ServiceKind => 2
    case UserKind => 3
  }

  predicate PrincipalBefore(a: PrincipalId, b: PrincipalId) {
    KindPlace(a.kind) < KindPlace(b.kind) || (a.kind == b.kind && a.refId < b.refId)
  }

  predicate Lower(a: Lock, b: Lock) {
    || Class(a) < Class(b)
    || match (a, b)
       case (OrganizationRow(o), OrganizationRow(p)) => o < p
       case (PrincipalRow(p), PrincipalRow(q)) => PrincipalBefore(p, q)
       case (UserRow(u), UserRow(v)) => u < v
       case (MembershipRow(o, m), MembershipRow(p, n)) => o < p || (o == p && PrincipalBefore(m, n))
       case _ => false
  }

  /** Rows inside a tenant are locked in any order, but only under the lock of their tenant; all
    * other locks are taken in ascending order. */
  ghost predicate Disciplined(plan: seq<Lock>) {
    && (forall i, j | 0 <= i < j < |plan| && !plan[i].TenantRow? && !plan[j].TenantRow? :: Lower(plan[i], plan[j]))
    && (forall j | 0 <= j < |plan| && plan[j].TenantRow? :: OrganizationRow(plan[j].organization) in plan[..j])
  }

  /** Rows of one tenant, in whatever order a bulk statement meets them. */
  ghost predicate TenantRows(organization: RowId, rows: seq<Lock>) {
    forall i | 0 <= i < |rows| :: rows[i].TenantRow? && rows[i].organization == organization
  }

  lemma ThenTenantRows(plan: seq<Lock>, organization: RowId, rows: seq<Lock>)
    requires Disciplined(plan) && OrganizationRow(organization) in plan && TenantRows(organization, rows)
    ensures Disciplined(plan + rows)
  {
    var all := plan + rows;
    var k :| 0 <= k < |plan| && plan[k] == OrganizationRow(organization);
    forall j | 0 <= j < |all| && all[j].TenantRow?
      ensures OrganizationRow(all[j].organization) in all[..j]
    {
      if j < |plan| {
        assert all[..j] == plan[..j];
      } else {
        assert all[..j][k] == plan[k];
      }
    }
  }

  /** The locks of a bulk statement over some rows of a tenant. */
  lemma {:induction false} LocksOf(organization: RowId, keys: set<TenantKey>) returns (rows: seq<Lock>)
    ensures TenantRows(organization, rows)
    ensures forall key :: TenantRow(organization, key) in rows <==> key in keys
    decreases |keys|
  {
    if some :| some in keys {
      var rest := LocksOf(organization, keys - {some});
      rows := [TenantRow(organization, some)] + rest;
    } else {
      rows := [];
    }
  }

  lemma AddRows(plan: seq<Lock>, organization: RowId, keys: set<TenantKey>) returns (more: seq<Lock>)
    requires Disciplined(plan) && OrganizationRow(organization) in plan
    ensures Disciplined(more) && plan <= more
    ensures forall key :: TenantRow(organization, key) in more <==> TenantRow(organization, key) in plan || key in keys
  {
    hide Disciplined;
    var rows := LocksOf(organization, keys);
    ThenTenantRows(plan, organization, rows);
    more := plan + rows;
  }

  /** Two accounts or one, in ascending order and without repetition. */
  function Accounts(a: Option<RowId>, b: Option<RowId>): seq<RowId> {
    match (a, b)
    case (Some(x), Some(y)) => if x == y then [x] else if x < y then [x, y] else [y, x]
    case (Some(x), None) => [x]
    case (None, Some(y)) => [y]
    case (None, None) => []
  }

  /** `ORDER BY id` over at most two principals. */
  function Principals(a: PrincipalId, b: PrincipalId): seq<PrincipalId> {
    if a == b then [a] else if PrincipalBefore(a, b) then [a, b] else [b, a]
  }

  /** The principals of a list that exist. */
  function Present(ids: seq<PrincipalId>, existing: set<PrincipalId>): seq<PrincipalId> {
    if ids == [] then []
    else if ids[0] in existing then [ids[0]] + Present(ids[1..], existing)
    else Present(ids[1..], existing)
  }

  ghost predicate Ascending(ids: seq<RowId>) {
    forall i, j | 0 <= i < j < |ids| :: ids[i] < ids[j]
  }

  ghost predicate PrincipalsAscend(ids: seq<PrincipalId>) {
    forall i, j | 0 <= i < j < |ids| :: PrincipalBefore(ids[i], ids[j])
  }

  lemma {:induction false} PresentAscend(ids: seq<PrincipalId>, existing: set<PrincipalId>)
    requires PrincipalsAscend(ids)
    ensures PrincipalsAscend(Present(ids, existing))
    ensures forall p | p in Present(ids, existing) :: p in ids
  {
    if ids != [] {
      PresentAscend(ids[1..], existing);
      var rest := Present(ids[1..], existing);
      forall i | 0 <= i < |rest|
        ensures PrincipalBefore(ids[0], rest[i])
      {
        assert rest[i] in ids[1..];
        var j :| 0 <= j < |ids[1..]| && ids[1..][j] == rest[i];
        assert ids[j + 1] == rest[i];
      }
    }
  }

  lemma PairAscends(a: PrincipalId, b: PrincipalId)
    ensures PrincipalsAscend(Principals(a, b))
  {
    OneBeforeTheOther(a, b);
  }

  lemma AccountsAscend(a: Option<RowId>, b: Option<RowId>)
    ensures Ascending(Accounts(a, b))
  {
  }

  function PrincipalRows(principals: seq<PrincipalId>): seq<Lock> {
    seq(|principals|, i requires 0 <= i < |principals| => PrincipalRow(principals[i]))
  }

  function UserRows(users: seq<RowId>): seq<Lock> {
    seq(|users|, i requires 0 <= i < |users| => UserRow(users[i]))
  }

  function MembershipRows(organization: RowId, members: seq<PrincipalId>): seq<Lock> {
    seq(|members|, i requires 0 <= i < |members| => MembershipRow(organization, members[i]))
  }

  /** The tenant, then principals, accounts and memberships. */
  function Context(organization: RowId, principals: seq<PrincipalId>, users: seq<RowId>, members: seq<PrincipalId>)
    : seq<Lock>
  {
    [OrganizationRow(organization)] + PrincipalRows(principals) + UserRows(users)
    + MembershipRows(organization, members)
  }

  lemma ContextIsDisciplined(organization: RowId, principals: seq<PrincipalId>, users: seq<RowId>,
                             members: seq<PrincipalId>)
    requires PrincipalsAscend(principals) && Ascending(users) && PrincipalsAscend(members)
    ensures Disciplined(Context(organization, principals, users, members))
    ensures OrganizationRow(organization) in Context(organization, principals, users, members)
  {
    assert Context(organization, principals, users, members)[0] == OrganizationRow(organization);
  }

  lemma OneBeforeTheOther(a: PrincipalId, b: PrincipalId)
    ensures a == b || PrincipalBefore(a, b) || PrincipalBefore(b, a)
    ensures !(PrincipalBefore(a, b) && PrincipalBefore(b, a))
  {
  }

  /** A transaction in flight: it holds the first `taken` locks of its plan. */
  datatype Tx = Tx(plan: seq<Lock>, taken: nat)

  type Txs = map<TxId, Tx>

  datatype Action = Begin(tx: TxId, plan: seq<Lock>) | Acquire(tx: TxId) | Finish(tx: TxId)

  predicate Holds(t: Tx, l: Lock) {
    t.taken <= |t.plan| && l in t.plan[..t.taken]
  }

  /** The next lock of `a` is held by `b`. */
  predicate WaitsFor(txs: Txs, a: TxId, b: TxId) {
    && a in txs && b in txs && a != b
    && txs[a].taken < |txs[a].plan|
    && Holds(txs[b], txs[a].plan[txs[a].taken])
  }

  /** A lock is granted when no other transaction holds it; a transaction may commit, or roll back
    * on a failed check, at any point. */
  ghost predicate CanAct(txs: Txs, a: Action) {
    match a
    case Begin(tx, plan) => tx !in txs && Disciplined(plan)
    case Acquire(tx) =>
      && tx in txs
      && txs[tx].taken < |txs[tx].plan|
      && forall other | other in txs :: !WaitsFor(txs, tx, other)
    case Finish(tx) => tx in txs
  }

  function Act(txs: Txs, a: Action): Txs {
    match a
    case Begin(tx, plan) => txs[tx := Tx(plan, 0)]
    case Acquire(tx) => if tx in txs then txs[tx := txs[tx].(taken := txs[tx].taken + 1)] else txs
    case Finish(tx) => txs - {tx}
  }

  ghost predicate IsSchedule(states: seq<Txs>, actions: seq<Action>) {
    && |states| == |actions| + 1
    && states[0] == map[]
    && forall i | 0 <= i < |actions| :: CanAct(states[i], actions[i]) && states[i + 1] == Act(states[i], actions[i])
  }

  ghost predicate Orderly(txs: Txs) {
    && (forall t | t in txs :: txs[t].taken <= |txs[t].plan| && Disciplined(txs[t].plan))
    && (forall t, u, l | t in txs && u in txs && Holds(txs[t], l) && Holds(txs[u], l) :: t == u)
  }

  lemma ActKeepsOrder(txs: Txs, a: Action)
    requires Orderly(txs) && CanAct(txs, a)
    ensures Orderly(Act(txs, a))
  {
    hide Disciplined;
    if a.Acquire? {
      var t := txs[a.tx];
      var grown := t.(taken := t.taken + 1);
      assert grown.plan[..grown.taken] == t.plan[..t.taken] + [t.plan[t.taken]];
      assert forall l | Holds(grown, l) :: Holds(t, l) || l == t.plan[t.taken];
    }
  }

  lemma {:induction false} ScheduleIsOrderly(states: seq<Txs>, actions: seq<Action>, i: nat)
    requires IsSchedule(states, actions) && i < |states|
    ensures Orderly(states[i])
  {
    hide CanAct, Act;
    if i > 0 {
      ScheduleIsOrderly(states, actions, i - 1);
      ActKeepsOrder(states[i - 1], actions[i - 1]);
    }
  }

  lemma GuardIsHeld(t: Tx, l: Lock)
    requires Disciplined(t.plan) && Holds(t, l) && l.TenantRow?
    ensures Holds(t, OrganizationRow(l.organization))
  {
    var j :| 0 <= j < t.taken && t.plan[j] == l;
    var guard := OrganizationRow(l.organization);
    var k :| 0 <= k < j && t.plan[k] == guard;
    assert t.plan[..t.taken][k] == guard;
  }

  /** Nobody waits for a row inside a tenant: whoever could hold it also holds the tenant. */
  lemma TenantRowsAreFree(txs: Txs, a: TxId, b: TxId)
    requires Orderly(txs) && WaitsFor(txs, a, b)
    ensures !txs[a].plan[txs[a].taken].TenantRow?
  {
    var wanted := txs[a].plan[txs[a].taken];
    if wanted.TenantRow? {
      GuardIsHeld(txs[b], wanted);
    }
  }

  /** Along a wait, the lock waited for gets higher. */
  lemma WaitsClimb(txs: Txs, a: TxId, b: TxId, c: TxId)
    requires Orderly(txs) && WaitsFor(txs, a, b) && WaitsFor(txs, b, c)
    ensures Lower(txs[a].plan[txs[a].taken], txs[b].plan[txs[b].taken])
  {
    TenantRowsAreFree(txs, a, b);
    TenantRowsAreFree(txs, b, c);
    var u := txs[b];
    var wanted := txs[a].plan[txs[a].taken];
    var i :| 0 <= i < u.taken && u.plan[i] == wanted;
  }

  lemma LowerTransitive(a: Lock, b: Lock, c: Lock)
    requires Lower(a, b) && Lower(b, c)
    ensures Lower(a, c)
  {
  }

  function Wanted(txs: Txs, t: TxId): Lock
    requires t in txs && txs[t].taken < |txs[t].plan|
  {
    txs[t].plan[txs[t].taken]
  }

  /** Each transaction of the list waits for the next. */
  ghost predicate WaitPath(txs: Txs, path: seq<TxId>) {
    forall i | 0 <= i < |path| - 1 :: WaitsFor(txs, path[i], path[i + 1])
  }

  lemma {:induction false} PathClimbs(txs: Txs, path: seq<TxId>)
    requires Orderly(txs) && WaitPath(txs, path) && |path| >= 3
    ensures WaitsFor(txs, path[0], path[1]) && WaitsFor(txs, path[|path| - 2], path[|path| - 1])
    ensures Lower(Wanted(txs, path[0]), Wanted(txs, path[|path| - 2]))
  {
    hide Lower, Orderly;
    var n := |path|;
    assert WaitsFor(txs, path[n - 3], path[n - 2]) && WaitsFor(txs, path[n - 2], path[n - 1]);
    WaitsClimb(txs, path[n - 3], path[n - 2], path[n - 1]);
    if n > 3 {
      PathClimbs(txs, path[..n - 1]);
      LowerTransitive(Wanted(txs, path[0]), Wanted(txs, path[n - 3]), Wanted(txs, path[n - 2]));
    }
  }

  /** A circle of waits. */
  ghost predicate WaitCycle(txs: Txs, cycle: seq<TxId>) {
    cycle != [] && WaitPath(txs, cycle + [cycle[0]])
  }

  lemma NoCycle(txs: Txs, cycle: seq<TxId>)
    requires Orderly(txs)
    ensures !WaitCycle(txs, cycle)
  {
    if WaitCycle(txs, cycle) {
      var n, round := |cycle|, cycle + [cycle[0]];
      var path := round + [round[1]];
      forall i | 0 <= i < |path| - 1
        ensures WaitsFor(txs, path[i], path[i + 1])
      {
        assert path[i] == if i < n then round[i] else round[0];
        assert path[i + 1] == if i < n then round[i + 1] else round[1];
      }
      PathClimbs(txs, path);
    }
  }

  /** No deadlock: in no schedule of the transactions, over any tenants, principals and sessions,
    * does a circle of waits ever form. */
  lemma NoDeadlock(states: seq<Txs>, actions: seq<Action>, i: nat, cycle: seq<TxId>)
    requires IsSchedule(states, actions) && i < |states|
    ensures !WaitCycle(states[i], cycle)
  {
    ScheduleIsOrderly(states, actions, i);
    NoCycle(states[i], cycle);
  }

  /** Some waiting transaction of the set wants a lock that no other of them wants a higher than. */
  lemma {:induction false} HighestWaiter(txs: Txs, ids: set<TxId>, some: TxId) returns (top: TxId)
    requires some in ids && forall t | t in ids :: t in txs && txs[t].taken < |txs[t].plan|
    ensures top in ids && forall t | t in ids :: !Lower(Wanted(txs, top), Wanted(txs, t))
    decreases |ids|
  {
    var rest := ids - {some};
    if other :| other in rest {
      var high := HighestWaiter(txs, rest, other);
      hide Wanted;
      top := if Lower(Wanted(txs, some), Wanted(txs, high)) then high else some;
      forall t | t in ids
        ensures !Lower(Wanted(txs, top), Wanted(txs, t))
      {
        if top == some && t != some {
          NotLowerChain(Wanted(txs, some), Wanted(txs, high), Wanted(txs, t));
        }
        NeverBothLower(Wanted(txs, top), Wanted(txs, some));
      }
    } else {
      top := some;
      assert forall t | t in ids :: t == some || t in rest;
    }
  }

  lemma NeverBothLower(a: Lock, b: Lock)
    ensures !(Lower(a, b) && Lower(b, a))
  {
  }

  lemma NotLowerChain(a: Lock, b: Lock, c: Lock)
    requires !Lower(a, b) && !Lower(b, c)
    ensures !Lower(a, c)
  {
  }

  ghost predicate Blocked(txs: Txs, t: TxId) {
    exists u :: WaitsFor(txs, t, u)
  }

  /** A transaction that waits for one that waits too: the other waits for a higher lock. */
  lemma HigherWaiter(txs: Txs, t: TxId) returns (u: TxId)
    requires Orderly(txs) && Blocked(txs, t) && forall x | WaitsFor(txs, t, x) :: Blocked(txs, x)
    ensures t in txs && u in txs && txs[t].taken < |txs[t].plan| && txs[u].taken < |txs[u].plan|
    ensures Lower(Wanted(txs, t), Wanted(txs, u))
  {
    hide Lower, Orderly, Holds;
    u :| WaitsFor(txs, t, u);
    assert Blocked(txs, u);
    var v :| WaitsFor(txs, u, v);
    WaitsClimb(txs, t, u, v);
  }

  lemma NotAllBlocked(txs: Txs, some: TxId)
    requires Orderly(txs) && some in txs
    ensures exists t | t in txs :: !Blocked(txs, t)
  {
    hide Lower, Orderly, Blocked, Wanted;
    if forall t | t in txs :: Blocked(txs, t) {
      forall t | t in txs.Keys
        ensures t in txs && txs[t].taken < |txs[t].plan|
      {
        var u := HigherWaiter(txs, t);
      }
      var top := HighestWaiter(txs, txs.Keys, some);
      var u := HigherWaiter(txs, top);
    }
  }

  /** While transactions are in flight, at least one of them is not waiting. */
  lemma SomeoneProceeds(states: seq<Txs>, actions: seq<Action>, i: nat, some: TxId)
    requires IsSchedule(states, actions) && i < |states| && some in states[i]
    ensures exists t | t in states[i] :: !Blocked(states[i], t)
  {
    ScheduleIsOrderly(states, actions, i);
    NotAllBlocked(states[i], some);
  }

  /** A transaction that locks an account before its principal can wait in a circle with one that
    * follows the order. */
  lemma OrderIsNeeded(organization: RowId, user: UserId, rest: seq<Lock>)
    ensures var principal := PrincipalRow(UserPrincipal(user));
            var orderly := [OrganizationRow(organization), principal, UserRow(user)];
            var promotion := [UserRow(user), principal] + rest;
            var txs := map[1 := Tx(orderly, 2), 2 := Tx(promotion, 1)];
            && Disciplined(orderly) && !Disciplined(promotion)
            && WaitsFor(txs, 1, 2) && WaitsFor(txs, 2, 1)
  {
    var principal := PrincipalRow(UserPrincipal(user));
    var promotion := [UserRow(user), principal] + rest;
    assert !Lower(promotion[0], promotion[1]);
    assert promotion[..1][0] == UserRow(user);
    assert [OrganizationRow(organization), principal, UserRow(user)][..2][1] == principal;
  }
}
