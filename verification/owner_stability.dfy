/** Delegated membership writes by administrators leave the owners of every tenant in place. */
module OwnerStability {
  import opened Schema
  import opened RefreshSession
  import opened Organizations
  import opened World

  type Memberships = map<(OrganizationId, PrincipalId), Membership>

  function Owners(m: Memberships): set<(OrganizationId, PrincipalId)> {
    set k | k in m && m[k].managementRole == RoleOwner
  }

  function ActiveOwners(m: Memberships): set<(OrganizationId, PrincipalId)> {
    set k | k in m && m[k] == Membership(MemberActive, RoleOwner)
  }

  /** The actor of the write holds the admin role, or the write is refused for want of a role. */
  predicate NotAnOwner(t: Tenancy, organization: OrganizationId, actor: PrincipalId) {
    (organization, actor) in t.memberships ==> t.memberships[(organization, actor)].managementRole != RoleOwner
  }

  lemma RowKeepsOwners(t: Tenancy, actor: PrincipalId, p: MembershipParams)
    requires NotAnOwner(t, p.organization, actor)
    requires var locked := LockManagerContext(t, p.organization, actor, p.principal);
             locked.Ok? && ManagerWriteError(locked.value, p).None?
    ensures var key := (p.organization, p.principal);
            var row := UpsertedMembership(t, p);
            if key in t.memberships && t.memberships[key].managementRole == RoleOwner
            then row == Membership(MemberActive, RoleOwner)
            else row.managementRole != RoleOwner
  {
  }

  lemma AdminWriteKeepsOwners(db: DB, now: Time, actor: PrincipalId, p: MembershipParams)
    requires NotAnOwner(db.tenancy, p.organization, actor)
    ensures var m := UpsertMembershipAsManager(db, now, actor, p).0.tenancy.memberships;
            Owners(m) == Owners(db.tenancy.memberships) && ActiveOwners(db.tenancy.memberships) <= ActiveOwners(m)
  {
    hide LockManagerContext, ManagerWriteError, EndMemberSessions;
    var t := db.tenancy;
    var locked := LockManagerContext(t, p.organization, actor, p.principal);
    if locked.Ok? && ManagerWriteError(locked.value, p).None? {
      RowKeepsOwners(t, actor, p);
    }
  }

  /** Steps `i` to `j` of the run are delegated membership writes, none by an owner. */
  ghost predicate AdminWrites(states: seq<World>, steps: seq<Step>, i: nat, j: nat)
    requires |states| == |steps| + 1 && j <= |steps|
  {
    forall k | i <= k < j ::
      match steps[k].op
      case OnTenant(PutMembershipAsManager(actor, p)) => NotAnOwner(states[k].db.tenancy, p.organization, actor)
      case _ => false
  }

  /** Over any stretch of such writes the owner rows stay the same and every active owner stays
    * active; an inactive one may be reactivated. */
  lemma {:induction false} AdminsNeverUnseatOwners(states: seq<World>, steps: seq<Step>, i: nat, j: nat)
    requires IsRun(states, steps) && i <= j <= |steps| && AdminWrites(states, steps, i, j)
    ensures var before, after := states[i].db.tenancy.memberships, states[j].db.tenancy.memberships;
            Owners(after) == Owners(before) && ActiveOwners(before) <= ActiveOwners(after)
    decreases j
  {
    hide UpsertMembershipAsManager, Owners, ActiveOwners, NextHistory, Enabled;
    if i < j {
      AdminsNeverUnseatOwners(states, steps, i, j - 1);
      var w, step := states[j - 1], steps[j - 1];
      assert step.op.OnTenant? && step.op.tenant.PutMembershipAsManager?;
      AdminWriteKeepsOwners(w.db, step.now, step.op.tenant.manager, step.op.tenant.membership);
    }
  }
}
