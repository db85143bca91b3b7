/** The in-memory login lockout of src/state.rs. */
module Lockout {
  import Schema

  type Principal = int

  /** Failures since the last lock, and the second until which the principal is locked. */
  datatype Attempt = Attempt(count: nat, until: int)

  type Attempts = map<Principal, Attempt>

  /** How many failures lock, and for how long. */
  datatype Policy = Policy(maxFailures: nat, lockout: int)

  predicate KeptByCheck(a: Attempt, now: int) {
    a.until > now || a.count > 0
  }

  /** `is_login_locked`: drop idle entries of every principal, then this one's expired lock. */
  function Check(attempts: Attempts, principal: Principal, now: int): Attempts {
    map p | p in attempts && KeptByCheck(attempts[p], now) && !(p == principal && 0 < attempts[p].until <= now)
      :: attempts[p]
  }

  function EntryOf(attempts: Attempts, principal: Principal): Attempt {
    if principal in attempts then attempts[principal] else Attempt(0, 0)
  }

  function Failed(a: Attempt, policy: Policy, now: int): Attempt {
    if a.until > now then a
    else if a.count + 1 >= policy.maxFailures then Attempt(0, now + policy.lockout)
    else Attempt(a.count + 1, a.until)
  }

  function RecordFailure(attempts: Attempts, principal: Principal, policy: Policy, now: int): Attempts {
    attempts[principal := Failed(EntryOf(attempts, principal), policy, now)]
  }

  class LoginAttempts {
    var attempts: Attempts

    constructor ()
      ensures attempts == map[]
    {
      attempts := map[];
    }

    /** Seconds left of the lock, if there is one. */
    method IsLoginLocked(principal: Principal, now: int) returns (left: Schema.Option<int>)
      modifies this
      ensures attempts == Check(old(attempts), principal, now)
      ensures left.Some? <==> principal in old(attempts) && old(attempts)[principal].until > now
      ensures left.Some? ==> left.value == old(attempts)[principal].until - now
    {
      attempts := map p | p in attempts && KeptByCheck(attempts[p], now) :: attempts[p];
      left := Schema.None;
      if principal in attempts {
        var entry := attempts[principal];
        if entry.until > now {
          left := Schema.Some(entry.until - now);
        } else if entry.until <= now && entry.until > 0 {
          attempts := attempts - {principal};
        }
      }
    }

    method RecordLoginFailure(principal: Principal, policy: Policy, now: int)
      modifies this
      ensures attempts == RecordFailure(old(attempts), principal, policy, now)
    {
      if principal !in attempts {
        attempts := attempts[principal := Attempt(0, 0)];
      }
      var entry := attempts[principal];
      if entry.until > now {
        assert attempts == old(attempts)[principal := entry];
        return;
      }
      entry := entry.(count := entry.count + 1);
      if entry.count >= policy.maxFailures {
        entry := Attempt(0, now + policy.lockout);
      }
      attempts := attempts[principal := entry];
    }

    method ClearLoginFailures(principal: Principal)
      modifies this
      ensures attempts == old(attempts) - {principal}
    {
      attempts := attempts - {principal};
    }
  }

  datatype Event =
    | Checked(principal: Principal, now: int)
    | FailedAt(principal: Principal, now: int)
    | Cleared(principal: Principal, now: int)

  function Handle(attempts: Attempts, policy: Policy, e: Event): Attempts {
    match e
    case Checked(p, now) => Check(attempts, p, now)
    case FailedAt(p, now) => RecordFailure(attempts, p, policy, now)
    case Cleared(p, _) => attempts - {p}
  }

  function After(start: Attempts, policy: Policy, events: seq<Event>): Attempts {
    if events == [] then start
    else Handle(After(start, policy, events[..|events| - 1]), policy, events[|events| - 1])
  }

  /** A clock that starts after the epoch and does not run backwards. */
  ghost predicate ClockRuns(events: seq<Event>) {
    && (forall e | e in events :: e.now >= 0)
    && (forall i, j | 0 <= i < j < |events| :: events[i].now <= events[j].now)
  }

  predicate NeverCleared(events: seq<Event>, principal: Principal) {
    forall e | e in events :: !(e.Cleared? && e.principal == principal)
  }

  function Failures(events: seq<Event>, principal: Principal): nat {
    if events == [] then 0
    else Failures(events[..|events| - 1], principal)
         + var e := events[|events| - 1]; if e.FailedAt? && e.principal == principal then 1 else 0
  }

  ghost predicate CountsBelow(attempts: Attempts, policy: Policy) {
    forall p | p in attempts :: attempts[p].count < policy.maxFailures
  }

  /** Stored counts stay below the maximum, whatever happens. */
  lemma {:induction false} CountsStayBelow(start: Attempts, policy: Policy, events: seq<Event>)
    requires policy.maxFailures >= 1 && CountsBelow(start, policy)
    ensures CountsBelow(After(start, policy, events), policy)
  {
    if events != [] {
      CountsStayBelow(start, policy, events[..|events| - 1]);
    }
  }

  /** Short of the maximum, a principal without an entry collects one count per failure, whatever
    * checks and whatever other principals do in between. */
  lemma {:induction false} FailuresAccumulate(start: Attempts, policy: Policy, events: seq<Event>, principal: Principal)
    requires principal !in start && ClockRuns(events) && NeverCleared(events, principal)
    requires Failures(events, principal) < policy.maxFailures
    ensures var attempts, k := After(start, policy, events), Failures(events, principal);
            if k == 0 then principal !in attempts else principal in attempts && attempts[principal] == Attempt(k, 0)
  {
    if events != [] {
      var init, last := events[..|events| - 1], events[|events| - 1];
      assert last in events;
      PrefixRuns(events, principal);
      FailuresAccumulate(start, policy, init, principal);
    }
  }

  lemma PrefixRuns(events: seq<Event>, principal: Principal)
    requires events != []
    ensures ClockRuns(events) ==> ClockRuns(events[..|events| - 1])
    ensures NeverCleared(events, principal) ==> NeverCleared(events[..|events| - 1], principal)
  {
    var init := events[..|events| - 1];
    assert forall e | e in init :: e in events;
  }

  /** The failure that reaches the maximum locks the principal until exactly that failure plus
    * the lockout. */
  lemma MaximumLocks(start: Attempts, policy: Policy, events: seq<Event>, principal: Principal, now: int)
    requires principal !in start && ClockRuns(events) && NeverCleared(events, principal)
    requires policy.maxFailures >= 1 && Failures(events, principal) == policy.maxFailures
    requires events[|events| - 1] == FailedAt(principal, now)
    ensures var attempts := After(start, policy, events);
            principal in attempts && attempts[principal] == Attempt(0, now + policy.lockout)
  {
    var last := events[|events| - 1];
    assert last in events;
    PrefixRuns(events, principal);
    FailuresAccumulate(start, policy, events[..|events| - 1], principal);
  }

  /** A lock stands until it expires: neither failures nor checks nor other principals move it. */
  lemma {:induction false} LockStands(start: Attempts, policy: Policy, events: seq<Event>, principal: Principal,
                                      until: int)
    requires principal in start && start[principal].until == until && NeverCleared(events, principal)
    requires forall e | e in events :: e.now < until
    ensures var attempts := After(start, policy, events);
            principal in attempts && attempts[principal] == start[principal]
  {
    if events != [] {
      var init, last := events[..|events| - 1], events[|events| - 1];
      assert last in events;
      PrefixRuns(events, principal);
      assert forall e | e in init :: e in events;
      LockStands(start, policy, init, principal, until);
    }
  }

  /** The failure starts a lock. */
  predicate Locks(attempts: Attempts, policy: Policy, e: Event) {
    && e.FailedAt?
    && EntryOf(attempts, e.principal).until <= e.now
    && EntryOf(attempts, e.principal).count + 1 >= policy.maxFailures
  }

  /** Two locks of one principal with no clear between them start at least a lockout apart. */
  lemma LocksAreApart(start: Attempts, policy: Policy, first: Event, between: seq<Event>, second: Event)
    requires Locks(start, policy, first) && first.principal == second.principal
    requires NeverCleared(between, first.principal) && ClockRuns([first] + between + [second])
    requires Locks(After(Handle(start, policy, first), policy, between), policy, second)
    ensures second.now >= first.now + policy.lockout
  {
    if second.now < first.now + policy.lockout {
      var events := [first] + between + [second];
      forall e | e in between
        ensures e.now < first.now + policy.lockout
      {
        var i :| 0 <= i < |between| && between[i] == e;
        assert events[i + 1] == e && events[|between| + 1] == second;
      }
      LockStands(Handle(start, policy, first), policy, between, first.principal, first.now + policy.lockout);
    }
  }

  /** Somebody's check came before the principal's first failure; it drops an idle entry. */
  predicate CheckedBefore(events: seq<Event>, principal: Principal) {
    && events != []
    && var init, last := events[..|events| - 1], events[|events| - 1];
       CheckedBefore(init, principal) || (last.Checked? && Failures(init, principal) == 0)
  }

  /** A check of the principal came after its first failure. */
  predicate CheckedAfter(events: seq<Event>, principal: Principal) {
    && events != []
    && var init, last := events[..|events| - 1], events[|events| - 1];
       || CheckedAfter(init, principal)
       || (last.Checked? && last.principal == principal && Failures(init, principal) > 0)
  }

  /** What an expired lock becomes short of the maximum: dropped while idle, and then counted up
    * from nothing; or kept, and counted up until a check of the principal forgets it. */
  ghost predicate Continues(attempts: Attempts, events: seq<Event>, principal: Principal, until: int) {
    var k := Failures(events, principal);
    if CheckedBefore(events, principal) then
      if k == 0 then principal !in attempts else principal in attempts && attempts[principal] == Attempt(k, 0)
    else if !CheckedAfter(events, principal) then
      principal in attempts && attempts[principal] == Attempt(k, until)
    else
      principal in attempts ==> 0 < attempts[principal].count < k && attempts[principal].until == 0
  }

  lemma {:induction false} ExpiredLockContinues(start: Attempts, policy: Policy, events: seq<Event>,
                                                principal: Principal, until: int)
    requires principal in start && start[principal] == Attempt(0, until) && until > 0
    requires ClockRuns(events) && NeverCleared(events, principal)
    requires forall e | e in events :: e.now >= until
    requires Failures(events, principal) < policy.maxFailures
    ensures Continues(After(start, policy, events), events, principal, until)
    ensures CheckedAfter(events, principal) ==> Failures(events, principal) > 0
  {
    if events != [] {
      var init, last := events[..|events| - 1], events[|events| - 1];
      assert last in events;
      assert forall e | e in init :: e in events;
      PrefixRuns(events, principal);
      ExpiredLockContinues(start, policy, init, principal, until);
      var before := After(start, policy, init);
      assert After(start, policy, events) == Handle(before, policy, last);
      hide After, ClockRuns;
      ContinuesStep(before, policy, events, principal, until);
    }
  }

  lemma ContinuesStep(before: Attempts, policy: Policy, events: seq<Event>, principal: Principal, until: int)
    requires events != [] && until > 0 && events[|events| - 1].now >= until
    requires var e := events[|events| - 1]; !(e.Cleared? && e.principal == principal)
    requires Continues(before, events[..|events| - 1], principal, until)
    requires CheckedAfter(events[..|events| - 1], principal) ==> Failures(events[..|events| - 1], principal) > 0
    requires Failures(events, principal) < policy.maxFailures
    ensures Continues(Handle(before, policy, events[|events| - 1]), events, principal, until)
  {
  }

  /** After an expired lock, the failure that completes the maximum locks exactly when no check of
    * the principal fell between its first failure and this one, or some check of anyone came
    * before its first. */
  lemma ExpiredLockLocksIff(start: Attempts, policy: Policy, events: seq<Event>, principal: Principal, until: int,
                            now: int)
    requires principal in start && start[principal] == Attempt(0, until) && until > 0
    requires ClockRuns(events) && NeverCleared(events, principal)
    requires forall e | e in events :: e.now >= until
    requires policy.maxFailures >= 1 && Failures(events, principal) == policy.maxFailures
    requires events[|events| - 1] == FailedAt(principal, now)
    ensures Locks(After(start, policy, events[..|events| - 1]), policy, FailedAt(principal, now))
            <==> !CheckedAfter(events, principal) || CheckedBefore(events, principal)
    ensures var attempts := After(start, policy, events);
            && principal in attempts
            && (attempts[principal] == Attempt(0, now + policy.lockout)
                <==> !CheckedAfter(events, principal) || CheckedBefore(events, principal))
  {
    var init, last := events[..|events| - 1], events[|events| - 1];
    assert last in events;
    assert forall e | e in init :: e in events;
    PrefixRuns(events, principal);
    ExpiredLockContinues(start, policy, init, principal, until);
  }

  lemma LookupForgets(policy: Policy)
    requires policy == Policy(2, 60)
    ensures var later := [FailedAt(1, 100), Checked(1, 100), FailedAt(1, 100)];
            && Failures(later, 1) == policy.maxFailures
            && After(map[1 := Attempt(0, 60)], policy, later) == map[1 := Attempt(1, 0)]
  {
    var start := map[1 := Attempt(0, 60)];
    var e0, e1, e2 := FailedAt(1, 100), Checked(1, 100), FailedAt(1, 100);
    assert [e0, e1, e2][..2] == [e0, e1] && [e0, e1][..1] == [e0] && [e0][..0] == [];
    assert Failures([e0][..0], 1) == 0;
    assert Failures([e0], 1) == 1;
    assert Failures([e0, e1], 1) == Failures([e0, e1][..1], 1);
    assert After(start, policy, [e0]) == map[1 := Attempt(1, 60)];
    assert After(start, policy, [e0, e1]) == map[];
  }

  /** So the maximum need not lock when failures land on an expired lock: here two failures at 0
    * lock until 60, and of the three events at 100 the lookup forgets the failure before it. */
  lemma ExpiredLockForgets()
    ensures var policy := Policy(2, 60);
            var locking := [FailedAt(1, 0), FailedAt(1, 0)];
            var later := [FailedAt(1, 100), Checked(1, 100), FailedAt(1, 100)];
            && ClockRuns(locking + later)
            && After(map[], policy, locking) == map[1 := Attempt(0, 60)]
            && Failures(later, 1) == policy.maxFailures
            && After(After(map[], policy, locking), policy, later) == map[1 := Attempt(1, 0)]
  {
    var policy, f := Policy(2, 60), FailedAt(1, 0);
    assert [f, f][..1] == [f] && [f][..0] == [];
    assert After(map[], policy, [f]) == map[1 := Attempt(1, 0)];
    assert After(map[], policy, [f, f]) == map[1 := Attempt(0, 60)];
    hide After, Failures;
    LookupForgets(policy);
  }
}
