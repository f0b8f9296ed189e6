/** The maintenance gate: a lease row that turns new requests away, and an
    advisory file lock that decides who is in. Processes may crash at any
    moment, which releases their file lock but leaves the lease row. */
module Maintenance {
  import opened Basics

  datatype Lease = Lease(token: nat, until: int)

  datatype Process =
    | Out
    // a request: shared lock first, then up to two looks at the lease
    | Looking(round: nat)
    | Expiring(round: nat, token: nat, now: int)
    | Shared
    // bootstrap: the shared lock alone
    | SharedFile
    // a backup
    | Claiming(token: nat)
    | Waiting(token: nat)
    | GivingUp(token: nat)
    | Exclusive(token: nat)
    | Unlocking(token: nat)

  datatype State = State(lease: Option<Lease>, used: set<nat>, procs: seq<Process>)

  const LEASE_SECONDS: int := 21600
  const ROUNDS: nat := 2

  datatype Event =
    | EnterShared              // try_lock_shared succeeded, request
    | EnterSharedFile          // try_lock_shared succeeded, bootstrap
    | Look(now: int)           // read the row and the clock
    | Expire                   // clear a lease found expired
    | Start(token: nat)        // a backup draws a fresh token
    | Claim(now: int, stamp: int)
    | Lock                     // try_lock_exclusive succeeded
    | TimeOut
    | Clear                    // clear the own lease
    | Leave                    // drop the permit, or fail with the gate closed
    | Crash

  predicate HoldsShared(q: Process) {
    q.Looking? || q.Expiring? || q.Shared? || q.SharedFile?
  }

  predicate HoldsExclusive(q: Process) {
    q.Exclusive? || q.Unlocking?
  }

  predicate Backs(q: Process) {
    q.Claiming? || q.Waiting? || q.GivingUp? || q.Exclusive? || q.Unlocking?
  }

  ghost predicate NoExclusive(s: State) {
    forall i :: 0 <= i < |s.procs| ==> !HoldsExclusive(s.procs[i])
  }

  ghost predicate NoHolder(s: State) {
    forall i :: 0 <= i < |s.procs| ==> !HoldsExclusive(s.procs[i]) && !HoldsShared(s.procs[i])
  }

  ghost predicate Can(s: State, p: nat, e: Event) {
    p < |s.procs| &&
    var q := s.procs[p];
    match e
    case EnterShared => q.Out? && NoExclusive(s)
    case EnterSharedFile => q.Out? && NoExclusive(s)
    case Look(_) => q.Looking?
    case Expire => q.Expiring?
    case Start(token) => q.Out? && token !in s.used
    case Claim(_, _) => q.Claiming?
    case Lock => q.Waiting? && NoHolder(s)
    case TimeOut => q.Waiting?
    case Clear => q.GivingUp? || q.Exclusive?
    case Leave => q.Shared? || q.SharedFile? || q.GivingUp? || q.Unlocking? || q.Exclusive?
    case Crash => true
  }

  predicate Claimable(lease: Option<Lease>, now: int) {
    lease.None? || lease.value.until <= now
  }

  function LeaseAfter(s: State, q: Process, e: Event): Option<Lease> {
    match e
    case Expire =>
      if q.Expiring? && s.lease.Some? && s.lease.value.token == q.token && s.lease.value.until <= q.now then None
      else s.lease
    case Claim(now, stamp) =>
      if q.Claiming? && Claimable(s.lease, now) then Some(Lease(q.token, stamp + LEASE_SECONDS)) else s.lease
    case Clear =>
      if Backs(q) && s.lease.Some? && s.lease.value.token == q.token then None else s.lease
    case _ => s.lease
  }

  function ProcAfter(s: State, q: Process, e: Event): Process {
    match e
    case EnterShared => Looking(0)
    case EnterSharedFile => SharedFile
    case Look(now) =>
      if !q.Looking? then q
      else if s.lease.None? then Shared
      else if s.lease.value.until > now then Out
      else Expiring(q.round, s.lease.value.token, now)
    case Expire =>
      if !q.Expiring? then q else if q.round + 1 < ROUNDS then Looking(q.round + 1) else Out
    case Start(token) => Claiming(token)
    case Claim(now, _) =>
      if !q.Claiming? then q else if Claimable(s.lease, now) then Waiting(q.token) else Out
    case Lock => if q.Waiting? then Exclusive(q.token) else q
    case TimeOut => if q.Waiting? then GivingUp(q.token) else q
    case Clear => if q.Exclusive? then Unlocking(q.token) else Out
    case Leave => Out
    case Crash => Out
  }

  function After(s: State, p: nat, e: Event): State
    requires p < |s.procs|
  {
    State(LeaseAfter(s, s.procs[p], e),
          if e.Start? then s.used + {e.token} else s.used,
          s.procs[p := ProcAfter(s, s.procs[p], e)])
  }

  ghost predicate Initial(s: State) {
    s.lease.None? && s.used == {} && forall i :: 0 <= i < |s.procs| ==> s.procs[i] == Out
  }

  // ---- invariant ----

  ghost predicate Exclusion(s: State) {
    forall i, j :: 0 <= i < |s.procs| && 0 <= j < |s.procs| && i != j && HoldsExclusive(s.procs[i]) ==>
      !HoldsExclusive(s.procs[j]) && !HoldsShared(s.procs[j])
  }

  ghost predicate TokensOwn(s: State) {
    && (forall i :: 0 <= i < |s.procs| && Backs(s.procs[i]) ==> s.procs[i].token in s.used)
    && (s.lease.Some? ==> s.lease.value.token in s.used)
    && (forall i, j :: 0 <= i < j < |s.procs| && Backs(s.procs[i]) && Backs(s.procs[j]) ==>
          s.procs[i].token != s.procs[j].token)
  }

  ghost predicate Inv(s: State) {
    Exclusion(s) && TokensOwn(s)
  }

  lemma KeepsExclusion(s: State, p: nat, e: Event)
    requires Exclusion(s) && Can(s, p, e)
    ensures Exclusion(After(s, p, e))
  {
    var s' := After(s, p, e);
    forall i, j | 0 <= i < |s'.procs| && 0 <= j < |s'.procs| && i != j && HoldsExclusive(s'.procs[i])
      ensures !HoldsExclusive(s'.procs[j]) && !HoldsShared(s'.procs[j])
    {
      if i == p {
        assert HoldsExclusive(s.procs[p]) || e.Lock?;
      } else if j == p {
        assert HoldsExclusive(s.procs[i]);
      }
    }
  }

  lemma KeepsTokens(s: State, p: nat, e: Event)
    requires TokensOwn(s) && Can(s, p, e)
    ensures TokensOwn(After(s, p, e))
  {
    var s' := After(s, p, e);
    assert Backs(s'.procs[p]) && !e.Start? ==> Backs(s.procs[p]) && s'.procs[p].token == s.procs[p].token;
  }

  // ---- runs ----

  datatype Step = Step(actor: nat, event: Event)

  ghost predicate Taken(states: seq<State>, steps: seq<Step>, k: nat)
    requires k < |steps| && |states| == |steps| + 1
  {
    Can(states[k], steps[k].actor, steps[k].event) && states[k + 1] == After(states[k], steps[k].actor, steps[k].event)
  }

  ghost predicate Run(states: seq<State>, steps: seq<Step>) {
    |states| == |steps| + 1 && Initial(states[0]) && forall k :: 0 <= k < |steps| ==> Taken(states, steps, k)
  }

  lemma {:induction false} ReachableInv(states: seq<State>, steps: seq<Step>, k: nat)
    requires Run(states, steps) && k < |states|
    ensures Inv(states[k])
  {
    if k > 0 {
      ReachableInv(states, steps, k - 1);
      assert Taken(states, steps, k - 1);
      KeepsExclusion(states[k - 1], steps[k - 1].actor, steps[k - 1].event);
      KeepsTokens(states[k - 1], steps[k - 1].actor, steps[k - 1].event);
    }
  }

  /** Under any crashes, lease expiries and competing backups, an exclusive permit coexists with no other
      exclusive permit and with no shared one, not even one still looking at the lease. */
  lemma ExclusivePermitIsAlone(states: seq<State>, steps: seq<Step>, k: nat, p: nat, q: nat)
    requires Run(states, steps) && k < |states| && p < |states[k].procs| && q < |states[k].procs|
    requires HoldsExclusive(states[k].procs[p]) && p != q
    ensures !HoldsExclusive(states[k].procs[q]) && !HoldsShared(states[k].procs[q])
  {
    ReachableInv(states, steps, k);
  }

  ghost predicate OwnsOrSawExpiry(s: State, step: Step)
    requires s.lease.Some?
  {
    step.actor < |s.procs| &&
    var q, e := s.procs[step.actor], step.event;
    || (e.Clear? && Backs(q) && q.token == s.lease.value.token)
    || (e.Claim? && s.lease.value.until <= e.now)
    || (e.Expire? && q.Expiring? && s.lease.value.until <= q.now)
  }

  /** A lease leaves the row only by its owner's hand, or by one who read a clock at or past its end. */
  lemma OnlyOwnOrExpiredLeasesGo(states: seq<State>, steps: seq<Step>, k: nat)
    requires Run(states, steps) && k < |steps| && states[k].lease.Some? && states[k + 1].lease != states[k].lease
    ensures OwnsOrSawExpiry(states[k], steps[k])
  {
    assert Taken(states, steps, k);
  }

  ghost predicate LooksSince(states: seq<State>, p: nat, j: nat, k: nat) {
    forall m :: j <= m <= k && m < |states| ==>
      p < |states[m].procs| && (states[m].procs[p].Looking? || states[m].procs[p].Expiring?)
  }

  lemma {:induction false} LookingHeld(states: seq<State>, steps: seq<Step>, k: nat, p: nat)
    requires Run(states, steps) && k < |states| && p < |states[k].procs|
    requires states[k].procs[p].Looking? || states[k].procs[p].Expiring?
    ensures exists j :: 0 < j <= k && steps[j - 1] == Step(p, EnterShared) && LooksSince(states, p, j, k)
  {
    if k > 0 {
      assert Taken(states, steps, k - 1);
      if steps[k - 1].actor == p && steps[k - 1].event.EnterShared? {
        assert LooksSince(states, p, k, k);
      } else {
        LookingHeld(states, steps, k - 1, p);
        var j :| 0 < j <= k - 1 && steps[j - 1] == Step(p, EnterShared) && LooksSince(states, p, j, k - 1);
        assert LooksSince(states, p, j, k);
      }
    }
  }

  /** Every granted shared permit saw an empty lease row at a moment at which it already held the shared
      lock, and had held it without a break since it entered. */
  lemma SharedPermitsSawNoLease(states: seq<State>, steps: seq<Step>, k: nat, p: nat)
    requires Run(states, steps) && k < |steps| && p < |states[k].procs|
    requires !states[k].procs[p].Shared? && p < |states[k + 1].procs| && states[k + 1].procs[p].Shared?
    ensures states[k].lease.None? && steps[k].actor == p && steps[k].event.Look?
    ensures exists j :: 0 < j <= k && steps[j - 1] == Step(p, EnterShared) && LooksSince(states, p, j, k)
  {
    assert Taken(states, steps, k);
    LookingHeld(states, steps, k, p);
  }

  ghost function SharedPermits(s: State): set<nat> {
    set p | 0 <= p < |s.procs| && s.procs[p].Shared?
  }

  /** While a claimed lease stands, the set of shared permits only shrinks, so a waiting backup is never
      starved by new requests. */
  lemma {:induction false} LeaseAdmitsNobody(states: seq<State>, steps: seq<Step>, j: nat, k: nat)
    requires Run(states, steps) && j <= k < |states|
    requires forall m :: j <= m < k ==> states[m].lease.Some?
    ensures SharedPermits(states[k]) <= SharedPermits(states[j])
  {
    if j < k {
      LeaseAdmitsNobody(states, steps, j, k - 1);
      assert Taken(states, steps, k - 1);
    }
  }

  // The clock reading a step acts on, if it acts on one.
  function Reading(s: State, step: Step): Option<int> {
    if step.event.Look? then Some(step.event.now)
    else if step.event.Claim? then Some(step.event.now)
    else if step.event.Expire? && step.actor < |s.procs| &&
    s.procs[step.actor].Expiring? then Some(s.procs[step.actor].now)
    else None
  }

  ghost predicate Unexpired(states: seq<State>, steps: seq<Step>, j: nat, k: nat, until: int)
    requires |states| == |steps| + 1
  {
    forall m :: j <= m < k && m < |steps| && Reading(states[m], steps[m]).Some? ==>
      Reading(states[m], steps[m]).value < until
  }

  ghost predicate Keeps(states: seq<State>, p: nat, j: nat, k: nat, token: nat) {
    forall m :: j <= m <= k && m < |states| ==>
      p < |states[m].procs| && (states[m].procs[p] == Waiting(token) || states[m].procs[p] == Exclusive(token))
  }

  /** From its claim on, as long as no process acts on a clock reading past its end, a backup's lease stays in
      the row while the backup waits for and holds the file lock: no one else can remove or replace it. */
  lemma {:induction false} LeaseStandsUntilExpiry(states: seq<State>, steps: seq<Step>, p: nat, j: nat, k: nat,
                                                  lease: Lease)
    requires Run(states, steps) && j <= k < |states|
    requires states[j].lease == Some(lease) && Keeps(states, p, j, k, lease.token)
    requires Unexpired(states, steps, j, k, lease.until)
    ensures states[k].lease == Some(lease)
  {
    if j < k {
      LeaseStandsUntilExpiry(states, steps, p, j, k - 1, lease);
      StepKeepsLease(states, steps, p, k - 1, lease);
    }
  }

  lemma StepKeepsLease(states: seq<State>, steps: seq<Step>, p: nat, k: nat, lease: Lease)
    requires Run(states, steps) && k < |steps| && states[k].lease == Some(lease)
    requires Keeps(states, p, k, k + 1, lease.token)
    requires Reading(states[k], steps[k]).Some? ==> Reading(states[k], steps[k]).value < lease.until
    ensures states[k + 1].lease == Some(lease)
  {
    ReachableInv(states, steps, k);
    assert Taken(states, steps, k);
    assert states[k].procs[p].token == lease.token;
    if steps[k].event.Clear? {
      var q := states[k].procs[steps[k].actor];
      assert Backs(q) && Backs(states[k].procs[p]);
      assert steps[k].actor != p;
    }
  }

  /** After expiry a lease can be taken over from a backup that still holds the file lock. The file lock, not
      the row, is what keeps the newcomer out. */
  lemma ExpiredLeaseIsTakenOver() returns (states: seq<State>, steps: seq<Step>)
    ensures Run(states, steps)
    ensures var last := states[|steps|];
      && |last.procs| == 2 && last.procs[0] == Exclusive(1) && last.procs[1] == Waiting(2)
      && last.lease == Some(Lease(2, 60000 + LEASE_SECONDS))
      && !Can(last, 1, Lock)
  {
    var s0 := State(None, {}, [Out, Out]);
    steps := [Step(0, Start(1)), Step(0, Claim(0, 0)), Step(0, Lock), Step(1, Start(2)), Step(1, Claim(60000, 60000))];
    var s1 := After(s0, 0, Start(1));
    var s2 := After(s1, 0, Claim(0, 0));
    var s3 := After(s2, 0, Lock);
    var s4 := After(s3, 1, Start(2));
    var s5 := After(s4, 1, Claim(60000, 60000));
    states := [s0, s1, s2, s3, s4, s5];
    assert s1 == State(None, {1}, [Claiming(1), Out]);
    assert s2 == State(Some(Lease(1, LEASE_SECONDS)), {1}, [Waiting(1), Out]);
    assert s3 == State(Some(Lease(1, LEASE_SECONDS)), {1}, [Exclusive(1), Out]);
    assert s4 == State(Some(Lease(1, LEASE_SECONDS)), {1, 2}, [Exclusive(1), Claiming(2)]);
    assert s5 == State(Some(Lease(2, 60000 + LEASE_SECONDS)), {1, 2}, [Exclusive(1), Waiting(2)]);
    assert HoldsExclusive(s5.procs[0]);
  }

  // ---- what a step decides ----

  /** A look at an empty row admits the request, in either round; an unexpired lease turns it away; only an expired one
      sends it on to clear it. */
  lemma LookDecides(s: State, p: nat, now: int)
    requires Can(s, p, Look(now))
    ensures var q, q' := s.procs[p], After(s, p, Look(now)).procs[p];
      && (q' == Shared <==> s.lease.None?)
      && (q' == Out <==> s.lease.Some? && s.lease.value.until > now)
      && (q'.Expiring? <==> s.lease.Some? && s.lease.value.until <= now)
      && After(s, p, Look(now)).lease == s.lease
  {
  }

  /** Clearing an expired lease removes exactly the lease that was seen to be expired, and sends the request to its
      second look, or away after it. */
  lemma ExpireDecides(s: State, p: nat)
    requires Can(s, p, Expire)
    ensures var q := s.procs[p];
      && After(s, p, Expire).lease ==
           (if s.lease.Some? && s.lease.value.token == q.token && s.lease.value.until <= q.now then None else s.lease)
      && After(s, p, Expire).procs[p] == if q.round == 0 then Looking(1) else Out
  {
  }

  /** A claim succeeds exactly on an empty row or an expired lease; a backup that fails to claim leaves the row
      alone, and one that gives up waiting removes its own lease and no other. */
  lemma ClaimDecides(s: State, p: nat, now: int, stamp: int)
    requires Can(s, p, Claim(now, stamp))
    ensures var token, s' := s.procs[p].token, After(s, p, Claim(now, stamp));
      if s.lease.Some? && s.lease.value.until > now then s'.procs[p] == Out && s'.lease == s.lease
      else
        && s'.procs[p] == Waiting(token) && s'.lease == Some(Lease(token, stamp + 6 * 60 * 60))
        && After(After(s', p, TimeOut), p, Clear).procs[p] == Out && After(After(s', p, TimeOut), p, Clear).lease.None?
    ensures forall other: Option<Lease> :: other.Some? && other.value.token != s.procs[p].token ==>
      LeaseAfter(s.(lease := other), GivingUp(s.procs[p].token), Clear) == other
  {
  }

  // What the two looks of a request conclude: the lease is in force at the first, or the row is taken at the second.
  predicate Busy(first: Option<Lease>, clock: int, second: Option<Lease>) {
    first.Some? && (first.value.until > clock || second.Some?)
  }

  // Process p entered in step j and made no step of its own before step m.
  ghost predicate NoStepSince(steps: seq<Step>, p: nat, j: nat, m: nat) {
    forall x :: j < x < m && x < |steps| ==> steps[x].actor != p
  }

  ghost predicate FirstLook(steps: seq<Step>, p: nat, j: nat, a: nat) {
    j < a < |steps| && steps[a].actor == p && steps[a].event.Look? && NoStepSince(steps, p, j, a)
  }

  // Its first look, in step a, met an expired lease.
  ghost predicate MetExpired(states: seq<State>, steps: seq<Step>, p: nat, j: nat, a: nat)
    requires |states| == |steps| + 1
  {
    FirstLook(steps, p, j, a) && states[a].lease.Some? && states[a].lease.value.until <= steps[a].event.now
  }

  ghost predicate SecondLook(states: seq<State>, steps: seq<Step>, p: nat, j: nat, a: nat, b: nat)
    requires |states| == |steps| + 1
  {
    MetExpired(states, steps, p, j, a) && a < b < |steps| && steps[b].actor == p && steps[b].event.Look?
  }

  // Where a request stands tells which looks it has made since it entered in step j.
  ghost predicate LooksSoFar(states: seq<State>, steps: seq<Step>, p: nat, j: nat, m: nat)
    requires m < |states| == |steps| + 1 && p < |states[m].procs|
  {
    match states[m].procs[p]
    case Looking(round) =>
      if round == 0 then NoStepSince(steps, p, j, m)
      else round == 1 && exists a: nat :: a < m && MetExpired(states, steps, p, j, a)
    case Expiring(round, _, _) =>
      if round == 0 then exists a: nat :: a < m && MetExpired(states, steps, p, j, a)
      else
        round == 1 &&
        exists a: nat, b: nat :: b < m && SecondLook(states, steps, p, j, a, b) && states[b].lease.Some?
    case _ => true
  }

  lemma LooksNext(states: seq<State>, steps: seq<Step>, p: nat, j: nat, m: nat)
    requires Run(states, steps) && j < m < |steps| && p < |states[m].procs|
    requires LooksSoFar(states, steps, p, j, m)
    requires states[m].procs[p].Looking? || states[m].procs[p].Expiring?
    ensures p < |states[m + 1].procs| && LooksSoFar(states, steps, p, j, m + 1)
  {
    assert Taken(states, steps, m);
    var q, e := states[m].procs[p], steps[m].event;
    if steps[m].actor == p && e.Look? {
      if q.round == 0 {
        assert FirstLook(steps, p, j, m);
        assert states[m + 1].procs[p].Expiring? ==> MetExpired(states, steps, p, j, m);
      } else {
        var a: nat :| a < m && MetExpired(states, steps, p, j, a);
        assert SecondLook(states, steps, p, j, a, m);
      }
    }
  }

  lemma {:induction false} LooksMade(states: seq<State>, steps: seq<Step>, p: nat, j: nat, m: nat)
    requires Run(states, steps) && j < m < |states| && steps[j] == Step(p, EnterShared)
    requires LooksSince(states, p, j + 1, m)
    ensures LooksSoFar(states, steps, p, j, m)
  {
    assert Taken(states, steps, j);
    if m > j + 1 {
      LooksMade(states, steps, p, j, m - 1);
      LooksNext(states, steps, p, j, m - 1);
    }
  }

  // Looks a and b of the request that entered in step j, the same if it made only one.
  ghost predicate LooksAre(states: seq<State>, steps: seq<Step>, p: nat, j: nat, a: nat, b: nat)
    requires |states| == |steps| + 1
  {
    FirstLook(steps, p, j, a) && (b == a || SecondLook(states, steps, p, j, a, b))
  }

  /** A request that entered in step j and ends its looking in step k, without crashing, is admitted exactly when
      the rows and the clock it read were not busy; otherwise it is turned away. With one look the row it met stands
      for both. */
  lemma RequestEndsAsItLooked(states: seq<State>, steps: seq<Step>, p: nat, j: nat, k: nat) returns (a: nat, b: nat)
    requires Run(states, steps) && j < k < |steps| && steps[j] == Step(p, EnterShared)
    requires LooksSince(states, p, j + 1, k) && steps[k].actor == p && !steps[k].event.Crash?
    requires p < |states[k + 1].procs|
    requires !(states[k + 1].procs[p].Looking? || states[k + 1].procs[p].Expiring?)
    ensures LooksAre(states, steps, p, j, a, b) && b <= k
    ensures states[k + 1].procs[p] == if Busy(states[a].lease, steps[a].event.now, states[b].lease) then Out else Shared
  {
    assert Taken(states, steps, k);
    LooksMade(states, steps, p, j, k);
    var q := states[k].procs[p];
    if q.Looking? {
      if q.round == 0 {
        a, b := k, k;
      } else {
        a :| a < k && MetExpired(states, steps, p, j, a);
        b := k;
      }
    } else {
      a, b :| b < k && SecondLook(states, steps, p, j, a, b) && states[b].lease.Some?;
    }
  }

  // ---- alone at the gate ----

  ghost predicate Alone(s: State, p: nat) {
    p < |s.procs| && s.procs[p] == Out && NoHolder(s)
  }

  function Steps(s: State, p: nat, events: seq<Event>): State
    requires p < |s.procs|
    decreases |events|
  {
    if events == [] then s else Steps(After(s, p, events[0]), p, events[1..])
  }

  ghost predicate CanAll(s: State, p: nat, events: seq<Event>)
    requires p < |s.procs|
    decreases |events|
  {
    events == [] || (Can(s, p, events[0]) && CanAll(After(s, p, events[0]), p, events[1..]))
  }

  lemma ThreeSteps(s: State, p: nat, x: Event, y: Event, z: Event)
    requires p < |s.procs|
    ensures Steps(s, p, [x, y, z]) == After(After(After(s, p, x), p, y), p, z)
    ensures CanAll(s, p, [x, y, z]) <==>
      Can(s, p, x) && Can(After(s, p, x), p, y) && Can(After(After(s, p, x), p, y), p, z)
  {
    assert [x, y, z][1..] == [y, z] && [y, z][1..] == [z] && [z][1..] == [];
    var s1 := After(s, p, x);
    var s2 := After(s1, p, y);
    assert Steps(s1, p, [y, z]) == Steps(s2, p, [z]) == After(s2, p, z);
    assert CanAll(s2, p, [z]) <==> Can(s2, p, z);
    assert CanAll(s1, p, [y, z]) <==> Can(s1, p, y) && CanAll(s2, p, [z]);
  }

  /** With no lease in the row and nobody inside, a request enters, is admitted at its first look whatever the clock
      reads, and leaves the gate as it found it. */
  lemma QuietGateAdmits(s: State, p: nat, now: int)
    requires Alone(s, p) && s.lease.None?
    ensures CanAll(s, p, [EnterShared, Look(now), Leave])
    ensures Steps(s, p, [EnterShared, Look(now)]) == s.(procs := s.procs[p := Shared])
    ensures Steps(s, p, [EnterShared, Look(now), Leave]) == s
  {
    var s1 := After(s, p, EnterShared);
    var s2 := After(s1, p, Look(now));
    ThreeSteps(s, p, EnterShared, Look(now), Leave);
    assert [EnterShared, Look(now)][1..] == [Look(now)] && [Look(now)][1..] == [];
    assert Steps(s1, p, [Look(now)]) == s2;
    assert s2.procs == s.procs[p := Shared];
    assert After(s2, p, Leave).procs == s.procs;
  }

  /** With nobody inside, and no lease in the row or one past its end, a backup claims a lease of six hours and gets the
      exclusive permit; releasing it leaves an empty row. */
  lemma QuietGateLocks(s: State, p: nat, token: nat, now: int, stamp: int)
    requires Alone(s, p) && token !in s.used && (s.lease.None? || s.lease.value.until <= now)
    ensures CanAll(s, p, [Start(token), Claim(now, stamp), Lock])
    ensures var locked := Steps(s, p, [Start(token), Claim(now, stamp), Lock]);
      && locked.procs == s.procs[p := Exclusive(token)] && locked.lease == Some(Lease(token, stamp + 6 * 60 * 60))
      && CanAll(locked, p, [Clear, Leave])
      && Steps(locked, p, [Clear, Leave]).procs == s.procs && Steps(locked, p, [Clear, Leave]).lease.None?
  {
    var s1 := After(s, p, Start(token));
    var s2 := After(s1, p, Claim(now, stamp));
    var locked := After(s2, p, Lock);
    ThreeSteps(s, p, Start(token), Claim(now, stamp), Lock);
    assert s2.procs == s.procs[p := Waiting(token)];
    assert locked.procs == s.procs[p := Exclusive(token)];
    var cleared := After(locked, p, Clear);
    assert [Clear, Leave][1..] == [Leave] && [Leave][1..] == [];
    assert Steps(cleared, p, [Leave]) == After(cleared, p, Leave);
    assert CanAll(cleared, p, [Leave]);
    assert After(cleared, p, Leave).procs == s.procs;
  }

  // ---- the lease row, as one process changes it ----

  class GateRow {
    var lease: Option<Lease>

    constructor ()
      ensures lease.None?
    {
      lease := None;
    }

    // Two looks at the row. Before the i-th, other processes have left it at seen[i]; clock[i] is read after.
    method MaintenanceIsActive(seen: seq<Option<Lease>>, clock: seq<int>) returns (active: bool)
      requires |seen| == |clock| == ROUNDS
      modifies this
      ensures active <==> Busy(seen[0], clock[0], seen[1])
      ensures !active ==> lease.None?
      ensures lease.Some? ==> lease.value.until > clock[0] || lease.value.until > clock[1]
    {
      for i := 0 to ROUNDS
        invariant i > 0 ==> seen[0].Some? && seen[0].value.until <= clock[0] && lease.None?
        invariant i > 1 ==> seen[1].Some?
      {
        lease := seen[i];
        if lease.None? { return false; }
        var token, now := lease.value.token, clock[i];
        if lease.value.until > now { return true; }
        if lease.value.token == token && lease.value.until <= now { lease := None; }
      }
      active := true;
    }

    method ClaimLease(token: nat, now: int, until: int) returns (claimed: bool)
      modifies this
      ensures claimed <==> old(lease).None? || old(lease).value.until <= now
      ensures lease == if claimed then Some(Lease(token, until)) else old(lease)
    {
      claimed := lease.None? || lease.value.until <= now;
      if claimed { lease := Some(Lease(token, until)); }
    }

    method ClearLease(token: nat)
      modifies this
      ensures lease == if old(lease).Some? && old(lease).value.token == token then None else old(lease)
    {
      if lease.Some? && lease.value.token == token { lease := None; }
    }
  }
}
