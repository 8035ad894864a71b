/** The usage a decision works with: the accounting scan of a request that holds its user's lock,
    against the changes the other requests and the environment make meanwhile. */
module Reading {
  import opened Wrappers
  import opened MapSums
  import opened Accounting
  import opened Engine
  import opened Quota
  import opened Admission
  import opened Tasks
  import opened Protocol
  import opened Safety
  import opened Serial

  function MemberOf(s: State, v: int): Member
    requires v in s.guests
  {
    Member(v, s.guests[v].node, s.guests[v].kind)
  }

  function PoolMembers(s: State, pool: string): set<Member> {
    set v | v in s.guests && s.guests[v].pool == pool :: MemberOf(s, v)
  }

  /** The api answers from the state: the pool lists its guests (and `others`, members that are not
      guests), every config is a guest's, and every listing can be read. */
  ghost predicate Serves(api: Api, s: State, pool: string, others: set<Member>) {
    && api.contents == s.contents && Visible(api) == api.contents
    && (forall m <- others :: !IsGuest(m))
    && (forall v <- s.guests :: IsGuest(MemberOf(s, v)) && KeyOf(MemberOf(s, v)) in api.configs)
    && (forall m: Member | KeyOf(m) in api.configs ::
          m.vmid in s.guests && m == MemberOf(s, m.vmid) && api.configs[KeyOf(m)] == s.guests[m.vmid].cfg)
    && MembersIn(api, pool) == PoolMembers(s, pool) + others
  }

  /** The member's weight is the guest's. */
  lemma MemberWeight(api: Api, s: State, pool: string, others: set<Member>, v: int, d: Dim)
    requires Serves(api, s, pool, others) && v in s.guests
    ensures MemberTerm(api.contents, api, MemberOf(s, v), d) == GuestFoot(s.contents, s.guests[v], d)
  {
    assert KeyOf(MemberOf(s, v)) in api.configs;
  }

  ghost function ListedMap(api: Api, s: State, pool: string, d: Dim): map<Member, int> {
    map m | m in PoolMembers(s, pool) :: MemberTerm(api.contents, api, m, d)
  }

  ghost function OwnedMap(s: State, pool: string, d: Dim): map<int, int> {
    map v | v in s.guests && s.guests[v].pool == pool :: GuestFoot(s.contents, s.guests[v], d)
  }

  lemma OwnedTotal(s: State, pool: string, d: Dim)
    ensures Sum(OwnedMap(s, pool, d)) == PoolUsage(s, pool, d)
  {
    SumEqual(OwnedMap(s, pool, d), PoolMap(s, pool, d));
  }

  lemma ListedTotal(api: Api, s: State, pool: string, others: set<Member>, d: Dim)
    requires Serves(api, s, pool, others)
    ensures Sum(ListedMap(api, s, pool, d)) == PoolTotal(api, pool, d)
  {
    SumEqual(ListedMap(api, s, pool, d), TotalMap(api.contents, api, MembersIn(api, pool), d));
  }

  /** The scan's total is the protocol's usage: members and guests correspond one to one. */
  lemma ServedTotal(api: Api, s: State, pool: string, others: set<Member>, d: Dim)
    requires Serves(api, s, pool, others)
    requires NonNegativeContents(s.contents) && forall v <- s.guests :: WellSized(s.guests[v])
    ensures PoolTotal(api, pool, d) == PoolUsage(s, pool, d)
  {
    OwnedTotal(s, pool, d);
    ListedTotal(api, s, pool, others, d);
    var listed, owned := ListedMap(api, s, pool, d), OwnedMap(s, pool, d);
    forall v | v in owned ensures MemberOf(s, v) in listed && owned[v] == listed[MemberOf(s, v)] >= 0 {
      MemberWeight(api, s, pool, others, v, d);
      assert WellSized(s.guests[v]);
    }
    forall m | m in listed ensures m.vmid in owned && m == MemberOf(s, m.vmid) {}
    Correspond(s, owned, listed);
  }

  lemma Correspond(s: State, owned: map<int, int>, listed: map<Member, int>)
    requires forall v :: v in owned ==>
             v in s.guests && MemberOf(s, v) in listed && owned[v] == listed[MemberOf(s, v)] >= 0
    requires forall m :: m in listed ==> m.vmid in owned && m == MemberOf(s, m.vmid)
    ensures Sum(owned) == Sum(listed)
  {
    SumInjection(owned, listed, map v | v in owned :: MemberOf(s, v));
    SumInjection(listed, owned, map m | m in listed :: m.vmid);
  }

  /** So a decision on a total read where the pool is as the state has it works with usage read as the
      protocol asks. */
  lemma ServedUsageSuffices(c: QuotaFile, s: State, r: int, api: Api, others: set<Member>, used: Option<Usage>)
    requires ValidFile(c) && LockInv(c, s) && TaskInv(c, s) && r in s.reqs && s.reqs[r].phase.Holding?
    requires var pool := PoolOf(c, s.reqs[r].user);
             Serves(api, s, pool, others) && (used.Some? ==> forall d :: used.value.At(d) >= PoolTotal(api, pool, d))
    ensures UsageRead(s, PoolOf(c, s.reqs[r].user), used)
  {
    var pool := PoolOf(c, s.reqs[r].user);
    forall d { ServedTotal(api, s, pool, others, d); }
    TrueUsageSuffices(c, s, r, used);
  }

  /** Where the upstream only destroys and shrinks during the scan, as while the lock is held and no
      write was lost, the contract of `UserUsage` gives that directly. */
  method ScanWhereItShrinks(ghost c: QuotaFile, ghost s: State, ghost r: int, pool: string, up: Upstream, start: nat,
                            ghost others: set<Member>)
    returns (used: Option<Usage>, now: nat)
    requires ValidFile(c) && LockInv(c, s) && TaskInv(c, s) && r in s.reqs && s.reqs[r].phase.Holding?
    requires pool == PoolOf(c, s.reqs[r].user) && Shrinking(up, pool) && forall t :: Sane(up(t))
    ensures Serves(up(now), s, pool, others) ==> UsageRead(s, pool, used)
  {
    var log;
    ghost var seen;
    used, now, log, seen := Engine.UserUsage(up, pool, start);
    if Serves(up(now), s, pool, others) { ServedUsageSuffices(c, s, r, up(now), others, used); }
  }

  /** What ends a settle is what its polls see: the id among the pool's guests, or a config that is not
      the same as the one decided on. */
  lemma ObservedIsPolled(s: State, q: Request, api: Api, others: set<Member>)
    requires q.task.Some? && Serves(api, s, q.task.value.pool, others) && !q.write.Alloc?
    ensures var t, key := q.task.value, (q.write.node, q.write.kind, q.vmid);
            Observed(s, q) <==>
            if t.pre.None? then q.vmid in (set m | m in MembersIn(api, t.pool) && IsGuest(m) :: m.vmid)
            else key in api.configs && !SameConfig(t.pre.value.cfg, api.configs[key])
  {
    var pool, ms := q.task.value.pool, MembersIn(api, q.task.value.pool);
    var asked := Member(q.vmid, q.write.node, q.write.kind);
    assert KeyOf(asked) == (q.write.node, q.write.kind, q.vmid);
    if q.vmid in s.guests { assert IsGuest(MemberOf(s, q.vmid)) && KeyOf(MemberOf(s, q.vmid)) in api.configs; }
    if q.vmid in s.guests && s.guests[q.vmid].pool == pool { assert MemberOf(s, q.vmid) in ms; }
  }

  // ---------------------------------------------------------------- what happens during the scan

  /** A stretch of a run during which `r` holds its user's lock undecided. */
  ghost predicate HoldsDuring(c: QuotaFile, states: seq<State>, steps: seq<Step>, r: int, user: string, lo: nat,
      hi: nat)
    requires ValidFile(c) && user in c.users
  {
    && lo <= hi <= |steps| && |states| == |steps| + 1
    && (forall i :: lo <= i <= hi ==>
          r in states[i].reqs && states[i].reqs[r].phase.Holding? && states[i].reqs[r].user == user)
  }

  lemma {:induction false} ListingsDuring(c: QuotaFile, states: seq<State>, steps: seq<Step>, i: nat, j: nat)
    requires ValidFile(c) && IsRun(c, states, steps) && Fresh(states[0]) && i <= j <= |steps|
    ensures NonNegativeContents(states[j].contents)
    ensures SmallerListings(states[j].contents, states[i].contents)
  {
    if i < j {
      ListingsDuring(c, states, steps, i, j - 1);
      ListingsNext(c, states, steps, j - 1);
      LookupTrans(states[i].contents, states[j - 1].contents, states[j].contents);
    } else {
      RunShape(c, states, steps, i);
    }
  }

  lemma ListingsNext(c: QuotaFile, states: seq<State>, steps: seq<Step>, i: nat)
    requires ValidFile(c) && IsRun(c, states, steps) && Fresh(states[0]) && i < |steps|
    ensures NonNegativeContents(states[i + 1].contents)
    ensures SmallerListings(states[i + 1].contents, states[i].contents)
  {
    RunShape(c, states, steps, i);
    assert StepAt(c, states, steps, i);
    ListingsOnlyShrink(c, states[i], steps[i]);
  }

  lemma LookupTrans(a: Contents, b: Contents, c: Contents)
    requires SmallerListings(b, a)
    requires SmallerListings(c, b)
    ensures SmallerListings(c, a)
  {
    forall node, ref ensures Lookup(c, node, ref) <= Lookup(a, node, ref) {
      assert Lookup(b, node, ref) <= Lookup(a, node, ref);
    }
  }

  /** From `s` to `s'` no write to the pool starts on a guest id. */
  predicate NoNewWork(s: State, s': State, v: int, pool: string) {
    v in s'.tasks && s'.tasks[v].pool == pool ==> v in s.tasks && s'.tasks[v] == s.tasks[v]
  }

  /** A write started for another pool changes neither what this pool reserves nor the writes at work
      on it. */
  lemma StartsElsewhere(c: QuotaFile, s: State, step: Step, contents: Contents, v: int, pool: string, d: Dim)
    requires ValidFile(c) && TaskInv(c, s) && Enabled(c, s, step) && Starts(step)
    requires PoolOf(c, s.reqs[step.r].user) != pool || Apply(c, s, step).tasks == s.tasks
    ensures var s' := Apply(c, s, step);
            && ReservedUnder(s', contents, v, pool, d) == ReservedUnder(s, contents, v, pool, d)
            && NoNewWork(s, s', v, pool)
  {
    var s' := Apply(c, s, step);
    StartShape(c, s, step);
    if s'.tasks == s.tasks {
      SameReserves(s, s', contents, v, pool, d);
    } else {
      StartedElsewhere(s, s', s.reqs[step.r].vmid, TaskOf(c, s, step.r), contents, v, pool, d);
    }
  }

  lemma StartedElsewhere(s: State, s': State, at: int, t: Task, contents: Contents, v: int, pool: string, d: Dim)
    requires s'.guests == s.guests && at !in s.tasks && s'.tasks == s.tasks[at := t] && t.pool != pool
    ensures ReservedUnder(s', contents, v, pool, d) == ReservedUnder(s, contents, v, pool, d)
  {}

  /** Only its own decision ends a request's hold, and no write of the same pool is started meanwhile. */
  lemma NoStartMeanwhile(c: QuotaFile, s: State, r: int, step: Step)
    requires ValidFile(c) && LockInv(c, s) && Enabled(c, s, step) && Starts(step)
    requires r in s.reqs && s.reqs[r].phase.Holding?
    requires r in Apply(c, s, step).reqs && Apply(c, s, step).reqs[r].phase.Holding?
    ensures PoolOf(c, s.reqs[step.r].user) != PoolOf(c, s.reqs[r].user)
  {
    if step.DecideStep? { DecidedShape(c, s, step.r, step.used); }
    if PoolOf(c, s.reqs[step.r].user) == PoolOf(c, s.reqs[r].user) { MutualExclusion(c, s, step.r, r); }
  }

  /** One step of the stretch starts no write to the pool. */
  lemma HoldWork(c: QuotaFile, s: State, r: int, step: Step, pool: string, v: int)
    requires ValidFile(c) && LockInv(c, s) && TaskInv(c, s) && Enabled(c, s, step)
    requires r in s.reqs && s.reqs[r].phase.Holding? && pool == PoolOf(c, s.reqs[r].user)
    requires r in Apply(c, s, step).reqs && Apply(c, s, step).reqs[r].phase.Holding?
    ensures NoNewWork(s, Apply(c, s, step), v, pool)
  {
    if Starts(step) {
      NoStartMeanwhile(c, s, r, step);
      StartsElsewhere(c, s, step, s.contents, v, pool, Cores);
    } else {
      TasksOnlyEnd(c, s, step);
    }
  }

  /** What the lost write `q`, if there is one, has overshot by so far. */
  ghost function OverSoFar(s: State, q: Option<int>, d: Dim): int {
    if q.Some? && q.value in s.lapsed then OverOf(s.lapsed[q.value], d) else 0
  }

  lemma OverStays(c: QuotaFile, s: State, step: Step, q: Option<int>, d: Dim)
    requires ValidFile(c) && TaskInv(c, s) && Enabled(c, s, step)
    ensures OverSoFar(Apply(c, s, step), q, d) >= OverSoFar(s, q, d)
  {
    if q.Some? && q.value in s.lapsed { LostStays(c, s, step, q.value, d); }
  }

  /** What is pending on `v` in the pool, if anything, is the write of `q`. */
  predicate OnlyWork(s: State, v: int, pool: string, q: Option<int>) {
    v in s.tasks && s.tasks[v].pool == pool ==> q == Some(s.tasks[v].req)
  }

  /** From `s` to `s'` a guest id reserves no more in a pool, but for what the write of `q` overshoots by. */
  ghost predicate Falls(s: State, s': State, contents: Contents, v: int, pool: string, q: Option<int>, d: Dim) {
    ReservedUnder(s', contents, v, pool, d) + OverSoFar(s, q, d) <=
    ReservedUnder(s, contents, v, pool, d) + OverSoFar(s', q, d)
  }

  /** A landing during the stretch: in the pool it is one of a lost write, which is then noted. */
  lemma HoldLanding(c: QuotaFile, s: State, s': State, r: int, vmid: int, g: Guest, pool: string, contents: Contents,
                    v: int, q: Option<int>, d: Dim)
    requires ValidFile(c) && LockInv(c, s) && TaskInv(c, s) && CanLand(s, vmid, g)
    requires s'.guests == s.guests[vmid := g] && s'.tasks == s.tasks - {vmid} && s'.lapsed == LapsedWith(s, vmid, g)
    requires r in s.reqs && s.reqs[r].phase.Holding? && pool == PoolOf(c, s.reqs[r].user)
    requires NonNegativeContents(contents) && SmallerListings(contents, s.contents) && OnlyWork(s, v, pool, q)
    requires OverSoFar(s', q, d) >= OverSoFar(s, q, d)
    ensures Falls(s, s', contents, v, pool, q, d)
  {
    FirmLanding(c, s, s', contents, vmid, g, v, pool, d);
    if v == vmid && s.tasks[v].pool == pool {
      HolderAlone(c, s, r);
      assert TaskOk(c, s, v, s.tasks[v]);
    }
  }

  lemma HoldStart(c: QuotaFile, s: State, r: int, step: Step, pool: string, contents: Contents, v: int, d: Dim)
    requires ValidFile(c) && LockInv(c, s) && TaskInv(c, s) && Enabled(c, s, step) && Starts(step)
    requires r in s.reqs && s.reqs[r].phase.Holding? && pool == PoolOf(c, s.reqs[r].user)
    requires r in Apply(c, s, step).reqs && Apply(c, s, step).reqs[r].phase.Holding?
    ensures ReservedUnder(Apply(c, s, step), contents, v, pool, d) <= ReservedUnder(s, contents, v, pool, d)
  {
    NoStartMeanwhile(c, s, r, step);
    StartsElsewhere(c, s, step, contents, v, pool, d);
  }

  /** One step of the stretch. */
  lemma HoldStep(c: QuotaFile, s: State, r: int, step: Step, pool: string, contents: Contents, v: int,
                 q: Option<int>, d: Dim)
    requires ValidFile(c) && LockInv(c, s) && TaskInv(c, s) && Enabled(c, s, step)
    requires NonNegativeContents(contents) && SmallerListings(contents, s.contents) && OnlyWork(s, v, pool, q)
    requires r in s.reqs && s.reqs[r].phase.Holding? && pool == PoolOf(c, s.reqs[r].user)
    requires r in Apply(c, s, step).reqs && Apply(c, s, step).reqs[r].phase.Holding?
    ensures Falls(s, Apply(c, s, step), contents, v, pool, q, d)
  {
    OverStays(c, s, step, q, d);
    if Starts(step) {
      HoldStart(c, s, r, step, pool, contents, v, d);
    } else if step.Land? || step.AcceptApplied? {
      HoldLands(c, s, r, step, pool, contents, v, q, d);
    } else {
      StepReserves(c, s, step, contents, v, pool, d);
    }
  }

  lemma HoldLands(c: QuotaFile, s: State, r: int, step: Step, pool: string, contents: Contents, v: int,
                  q: Option<int>, d: Dim)
    requires ValidFile(c) && LockInv(c, s) && TaskInv(c, s) && Enabled(c, s, step)
    requires step.Land? || step.AcceptApplied?
    requires NonNegativeContents(contents) && SmallerListings(contents, s.contents) && OnlyWork(s, v, pool, q)
    requires r in s.reqs && s.reqs[r].phase.Holding? && pool == PoolOf(c, s.reqs[r].user)
    requires OverSoFar(Apply(c, s, step), q, d) >= OverSoFar(s, q, d)
    ensures Falls(s, Apply(c, s, step), contents, v, pool, q, d)
  {
    if step.Land? {
      HoldLanding(c, s, Apply(c, s, step), r, step.vmid, step.g, pool, contents, v, q, d);
    } else {
      HoldLanding(c, s, Apply(c, s, step), r, s.reqs[step.r].vmid, step.g, pool, contents, v, q, d);
    }
  }

  lemma HeldAt(c: QuotaFile, states: seq<State>, steps: seq<Step>, r: int, user: string, lo: nat, hi: nat, i: nat)
    requires ValidFile(c) && user in c.users && IsRun(c, states, steps)
    requires HoldsDuring(c, states, steps, r, user, lo, hi) && lo <= i < hi
    ensures r in states[i].reqs && states[i].reqs[r].phase.Holding? && states[i].reqs[r].user == user
    ensures Enabled(c, states[i], steps[i])
    ensures var s' := Apply(c, states[i], steps[i]);
            states[i + 1] == s' && r in s'.reqs && s'.reqs[r].phase.Holding?
  {
    assert StepAt(c, states, steps, i);
    assert states[i + 1].reqs[r].phase.Holding?;
  }

  predicate NoNewWorkAt(states: seq<State>, i: int, v: int, pool: string)
    requires 0 <= i < |states| - 1
  {
    NoNewWork(states[i], states[i + 1], v, pool)
  }

  lemma {:induction false} NoNewWorkOver(states: seq<State>, i: nat, j: nat, v: int, pool: string)
    requires i <= j < |states|
    requires forall k :: i <= k < j ==> NoNewWorkAt(states, k, v, pool)
    ensures NoNewWork(states[i], states[j], v, pool)
  {
    if i < j {
      NoNewWorkOver(states, i, j - 1, v, pool);
      assert NoNewWorkAt(states, j - 1, v, pool);
    }
  }

  /** The writes at work on the pool later in the stretch are some of those at work earlier. */
  lemma WorkDuring(c: QuotaFile, states: seq<State>, steps: seq<Step>, r: int, user: string,
                   lo: nat, hi: nat, i: nat, j: nat, v: int)
    requires ValidFile(c) && user in c.users && IsRun(c, states, steps) && Fresh(states[0])
    requires HoldsDuring(c, states, steps, r, user, lo, hi) && lo <= i <= j <= hi
    ensures NoNewWork(states[i], states[j], v, PoolOf(c, user))
  {
    forall k | i <= k < j ensures NoNewWorkAt(states, k, v, PoolOf(c, user)) {
      RunShape(c, states, steps, k);
      HeldAt(c, states, steps, r, user, lo, hi, k);
      HoldWork(c, states[k], r, steps[k], PoolOf(c, user), v);
    }
    NoNewWorkOver(states, i, j, v, PoolOf(c, user));
  }

  lemma FallsAt(c: QuotaFile, states: seq<State>, steps: seq<Step>, r: int, user: string, lo: nat, hi: nat, i: nat,
                v: int, q: Option<int>, d: Dim)
    requires ValidFile(c) && user in c.users && IsRun(c, states, steps) && Fresh(states[0])
    requires HoldsDuring(c, states, steps, r, user, lo, hi) && lo <= i < hi
    requires OnlyWork(states[i], v, PoolOf(c, user), q)
    ensures Falls(states[i], states[i + 1], states[hi].contents, v, PoolOf(c, user), q, d)
  {
    RunShape(c, states, steps, i);
    ListingsDuring(c, states, steps, i, hi);
    HeldAt(c, states, steps, r, user, lo, hi, i);
    HoldStep(c, states[i], r, steps[i], PoolOf(c, user), states[hi].contents, v, q, d);
  }

  ghost predicate DownAt(f: nat -> int, k: nat) {
    f(k + 1) <= f(k)
  }

  lemma {:induction false} DownOver(f: nat -> int, i: nat, j: nat)
    requires i <= j && forall k: nat :: i <= k < j ==> DownAt(f, k)
    ensures f(j) <= f(i)
  {
    if i < j {
      DownOver(f, i, j - 1);
      assert DownAt(f, j - 1);
    }
  }

  /** What a guest id reserves, without what the write of `q` has overshot by, state by state. */
  ghost function Track(states: seq<State>, contents: Contents, v: int, pool: string, q: Option<int>, d: Dim): nat -> int
  {
    (k: nat) =>
      if k < |states| then ReservedUnder(states[k], contents, v, pool, d) - OverSoFar(states[k], q, d) else 0
  }

  lemma TrackFalls(states: seq<State>, contents: Contents, v: int, pool: string, q: Option<int>, d: Dim, k: nat)
    requires k + 1 < |states| && Falls(states[k], states[k + 1], contents, v, pool, q, d)
    ensures DownAt(Track(states, contents, v, pool, q, d), k)
  {}

  /** What every guest id reserves in the pool only falls during the stretch, under the listings at
      its end, but for what a lost write overshoots by that lands meanwhile. */
  lemma ReserveDuring(c: QuotaFile, states: seq<State>, steps: seq<Step>, r: int, user: string,
                      lo: nat, hi: nat, i: nat, j: nat, v: int, q: Option<int>, d: Dim)
    requires ValidFile(c) && user in c.users && IsRun(c, states, steps) && Fresh(states[0])
    requires HoldsDuring(c, states, steps, r, user, lo, hi) && lo <= i <= j <= hi
    requires OnlyWork(states[i], v, PoolOf(c, user), q)
    ensures Falls(states[i], states[j], states[hi].contents, v, PoolOf(c, user), q, d)
  {
    var pool, contents := PoolOf(c, user), states[hi].contents;
    forall k: nat | i <= k < j ensures DownAt(Track(states, contents, v, pool, q, d), k) {
      WorkDuring(c, states, steps, r, user, lo, hi, i, k, v);
      FallsAt(c, states, steps, r, user, lo, hi, k, v, q, d);
      TrackFalls(states, contents, v, pool, q, d, k);
    }
    DownOver(Track(states, contents, v, pool, q, d), i, j);
  }

  lemma {:induction false} LostDuring(c: QuotaFile, states: seq<State>, steps: seq<Step>, i: nat, j: nat, q: int,
      d: Dim)
    requires ValidFile(c) && IsRun(c, states, steps) && Fresh(states[0]) && i <= j <= |steps| && q in states[i].lapsed
    ensures NoLess(states[i].lapsed, states[j].lapsed, q, d)
  {
    if i < j {
      LostDuring(c, states, steps, i, j - 1, q, d);
      LostNext(c, states, steps, j - 1, q, d);
    }
  }

  lemma LostNext(c: QuotaFile, states: seq<State>, steps: seq<Step>, i: nat, q: int, d: Dim)
    requires ValidFile(c) && IsRun(c, states, steps) && Fresh(states[0]) && i < |steps| && q in states[i].lapsed
    ensures NoLess(states[i].lapsed, states[i + 1].lapsed, q, d)
  {
    RunShape(c, states, steps, i);
    assert StepAt(c, states, steps, i);
    LostStays(c, states[i], steps[i], q, d);
  }

  // ---------------------------------------------------------------- what the scan sees of one guest id

  /** Each read of the scan is answered from some state of the stretch, in order. */
  ghost predicate ReadsDuring(up: Upstream, at: nat -> nat, states: seq<State>, pool: string, others: set<Member>,
                              lo: nat, hi: nat) {
    && hi < |states|
    && (forall t: nat :: lo <= at(t) <= hi && Serves(up(t), states[at(t)], pool, others) && Sane(up(t)))
    && (forall t: nat, u: nat :: t <= u ==> at(t) <= at(u))
  }

  /** A scan of the pool, from the first read to the last, within a stretch of a run. */
  datatype Scanned = Scanned(states: seq<State>, steps: seq<Step>, r: int, user: string, pool: string, lo: nat, hi: nat,
                             up: Upstream, at: nat -> nat, others: set<Member>, start: nat, now: nat,
                             seen: map<Member, Seen>)

  ghost predicate Proper(c: QuotaFile, x: Scanned) {
    && ValidFile(c) && x.user in c.users && x.pool == PoolOf(c, x.user)
    && IsRun(c, x.states, x.steps) && Fresh(x.states[0])
    && HoldsDuring(c, x.states, x.steps, x.r, x.user, x.lo, x.hi)
    && ReadsDuring(x.up, x.at, x.states, x.pool, x.others, x.lo, x.hi)
    && x.start <= x.now && AllSeen(x.up, MembersIn(x.up(x.start), x.pool), x.start, x.now, x.seen)
  }

  /** The states at the first read, and at the end of the stretch. */
  function First(x: Scanned): State
    requires x.at(x.start) < |x.states|
  {
    x.states[x.at(x.start)]
  }

  function Last(x: Scanned): State
    requires x.hi < |x.states|
  {
    x.states[x.hi]
  }

  predicate InRange(x: Scanned) {
    x.at(x.start) < |x.states| && x.hi < |x.states|
  }

  lemma ProperInRange(c: QuotaFile, x: Scanned)
    requires Proper(c, x)
    ensures InRange(x) && x.lo <= x.at(x.start) <= x.hi
    ensures LockInv(c, First(x)) && TaskInv(c, First(x)) && LockInv(c, Last(x)) && TaskInv(c, Last(x))
  {
    RunShape(c, x.states, x.steps, x.at(x.start));
    RunShape(c, x.states, x.steps, x.hi);
  }

  /** What the scan counted for a guest id: the guest, if the pool had it at the first read. */
  ghost function SeenOf(x: Scanned, v: int, d: Dim): int
    requires InRange(x)
  {
    var s := First(x);
    if v in s.guests && s.guests[v].pool == x.pool && MemberOf(s, v) in x.seen
    then SeenTerm(x.up, MemberOf(s, v), x.seen[MemberOf(s, v)], d) else 0
  }

  /** The write of the pool that is pending on a guest id at the first read, if there is one. */
  function WorkOn(x: Scanned, v: int): Option<int>
    requires InRange(x)
  {
    var s := First(x);
    if v in s.tasks && s.tasks[v].pool == x.pool then Some(s.tasks[v].req) else None
  }

  /** What that write counts for in the end: it is a lost one. */
  ghost function LostOf(x: Scanned, v: int, d: Dim): int
    requires InRange(x)
  {
    var q := WorkOn(x, v);
    if q.Some? && q.value in Last(x).lapsed then Excess(Last(x).lapsed[q.value], d) else 0
  }

  /** No other write of the pool is ever pending on the guest id. */
  lemma OneWork(c: QuotaFile, x: Scanned, i: nat, v: int)
    requires Proper(c, x) && InRange(x) && x.at(x.start) <= i <= x.hi
    ensures OnlyWork(x.states[i], v, x.pool, WorkOn(x, v))
  {
    WorkDuring(c, x.states, x.steps, x.r, x.user, x.lo, x.hi, x.at(x.start), i, v);
  }

  /** While it is pending, what it reserves beyond its guest, under the listings at the end, is at most
      what it is given. */
  lemma LostCovers(c: QuotaFile, x: Scanned, i: nat, v: int, d: Dim)
    requires Proper(c, x) && InRange(x) && x.at(x.start) <= i <= x.hi
    requires v in x.states[i].tasks && x.states[i].tasks[v].pool == x.pool
    ensures var s, t := x.states[i], x.states[i].tasks[v];
            && WorkOn(x, v) == Some(t.req) && t.req in Last(x).lapsed
            && ((t.start.Some? ==> v in s.guests) ==>
                 StartFoot(Last(x).contents, t, d) + Growth(t, d)
                 - (if v in s.guests then GuestFoot(Last(x).contents, s.guests[v], d) else 0) <=
                 Given(Last(x).lapsed[t.req], d))
  {
    var s, t := x.states[i], x.states[i].tasks[v];
    RunShape(c, x.states, x.steps, i);
    ListingsDuring(c, x.states, x.steps, i, x.hi);
    OneWork(c, x, i, v);
    HolderAlone(c, s, x.r);
    LostDuring(c, x.states, x.steps, i, x.hi, t.req, d);
    LostReserve(c, s, v, Last(x).contents, d);
  }

  lemma LostReserve(c: QuotaFile, s: State, v: int, contents: Contents, d: Dim)
    requires TaskInv(c, s) && v in s.tasks && NonNegativeContents(contents)
    requires s.tasks[v].req in s.lapsed && s.lapsed[s.tasks[v].req].task == s.tasks[v]
    requires SmallerListings(contents, s.contents)
    ensures var t := s.tasks[v];
            (t.start.Some? ==> v in s.guests) ==>
              StartFoot(contents, t, d) + Growth(t, d) -
              (if v in s.guests then GuestFoot(contents, s.guests[v], d) else 0) <=
              Given(s.lapsed[t.req], d)
  {
    var t, l := s.tasks[v], s.lapsed[s.tasks[v].req];
    assert TaskOk(c, s, v, t);
    assert LostOk(s, t.req, l);
    LookupTrans(l.contents, s.contents, contents);
    if t.start.Some? && v in s.guests { TakenOffLater(contents, l.contents, s.guests[v], t.start.value, d); }
  }

  /** What is in the pool of a guest id in some state, under the listings at the end. */
  ghost function InPoolAt(x: Scanned, i: nat, v: int, d: Dim): int
    requires InRange(x) && i < |x.states|
  {
    var s := x.states[i];
    if v in s.guests && s.guests[v].pool == x.pool then GuestFoot(Last(x).contents, s.guests[v], d) else 0
  }

  /** What the write pending on a guest id at the first read is given. */
  ghost function GivenOf(x: Scanned, v: int, d: Dim): int
    requires InRange(x)
  {
    var q := WorkOn(x, v);
    if q.Some? && q.value in Last(x).lapsed then Given(Last(x).lapsed[q.value], d) else 0
  }

  lemma GivenOfSign(c: QuotaFile, x: Scanned, v: int, d: Dim)
    requires InRange(x) && TaskInv(c, Last(x))
    ensures GivenOf(x, v, d) >= 0
  {
    var q := WorkOn(x, v);
    if q.Some? && q.value in Last(x).lapsed { GivenNonNegative(c, Last(x), q.value, d); }
  }

  /** What a guest id reserves at some state of the scan is the guest that is there, and what a lost
      write on it is given. */
  lemma ReservedAt(c: QuotaFile, x: Scanned, i: nat, v: int, d: Dim)
    requires Proper(c, x) && InRange(x) && x.at(x.start) <= i <= x.hi
    ensures ReservedUnder(x.states[i], Last(x).contents, v, x.pool, d) <= InPoolAt(x, i, v, d) + GivenOf(x, v, d)
  {
    var s := x.states[i];
    ProperInRange(c, x);
    GivenOfSign(c, x, v, d);
    if v in s.tasks && s.tasks[v].pool == x.pool {
      ReservedPending(c, x, i, v, d);
    } else {
      ReservedIdle(s, Last(x).contents, v, x.pool, d);
    }
  }

  lemma ReservedIdle(s: State, contents: Contents, v: int, pool: string, d: Dim)
    requires v in s.tasks ==> s.tasks[v].pool != pool
    ensures ReservedUnder(s, contents, v, pool, d) ==
            if v in s.guests && s.guests[v].pool == pool then GuestFoot(contents, s.guests[v], d) else 0
  {}

  lemma ReservedPending(c: QuotaFile, x: Scanned, i: nat, v: int, d: Dim)
    requires Proper(c, x) && InRange(x) && x.at(x.start) <= i <= x.hi && GivenOf(x, v, d) >= 0
    requires v in x.states[i].tasks && x.states[i].tasks[v].pool == x.pool
    ensures ReservedUnder(x.states[i], Last(x).contents, v, x.pool, d) <= InPoolAt(x, i, v, d) + GivenOf(x, v, d)
  {
    RunShape(c, x.states, x.steps, i);
    LostCovers(c, x, i, v, d);
    TaskPool(c, x.states[i], v);
    ReservedByTask(x.states[i], Last(x).contents, v, x.pool, GivenOf(x, v, d), d);
  }

  lemma TaskPool(c: QuotaFile, s: State, v: int)
    requires TaskInv(c, s) && v in s.tasks
    ensures v in s.guests ==> s.guests[v].pool == s.tasks[v].pool
  {
    assert TaskOk(c, s, v, s.tasks[v]);
  }

  lemma ReservedByTask(s: State, contents: Contents, v: int, pool: string, given: int, d: Dim)
    requires v in s.tasks && s.tasks[v].pool == pool && (v in s.guests ==> s.guests[v].pool == pool) && given >= 0
    requires (s.tasks[v].start.Some? ==> v in s.guests) ==>
               StartFoot(contents, s.tasks[v], d) + Growth(s.tasks[v], d)
               - (if v in s.guests then GuestFoot(contents, s.guests[v], d) else 0) <= given
    ensures ReservedUnder(s, contents, v, pool, d) <=
            (if v in s.guests then GuestFoot(contents, s.guests[v], d) else 0) + given
  {}

  /** What a guest id reserves in the end is covered by the guest that is there at some state of the
      scan, and by what a lost write on it counts for. */
  lemma ReservedInTheEnd(c: QuotaFile, x: Scanned, i: nat, v: int, d: Dim)
    requires Proper(c, x) && InRange(x) && x.at(x.start) <= i <= x.hi
    ensures ReservedUnder(Last(x), Last(x).contents, v, x.pool, d) <= InPoolAt(x, i, v, d) + LostOf(x, v, d)
  {
    OneWork(c, x, i, v);
    ReserveDuring(c, x.states, x.steps, x.r, x.user, x.lo, x.hi, i, x.hi, v, WorkOn(x, v), d);
    ReservedAt(c, x, i, v, d);
  }

  /** One guest id: what it reserves in the end is covered by what the scan saw of it, and by what a
      lost write on it counts for. */
  lemma GuestCovered(c: QuotaFile, x: Scanned, v: int, d: Dim)
    requires Proper(c, x) && InRange(x)
    ensures ReservedUnder(Last(x), Last(x).contents, v, x.pool, d) <= SeenOf(x, v, d) + LostOf(x, v, d)
  {
    ProperInRange(c, x);
    if v in First(x).guests && First(x).guests[v].pool == x.pool {
      SeenCovers(c, x, v, d);
    } else {
      ReservedInTheEnd(c, x, x.at(x.start), v, d);
    }
  }

  /** A guest that the scan saw: it was there when its config was read, and its volumes were sized
      with listings no smaller than the final ones. */
  lemma SeenCovers(c: QuotaFile, x: Scanned, v: int, d: Dim)
    requires Proper(c, x) && InRange(x) && v in First(x).guests && First(x).guests[v].pool == x.pool
    ensures ReservedUnder(Last(x), Last(x).contents, v, x.pool, d) <= SeenOf(x, v, d) + LostOf(x, v, d)
  {
    var m := MemberOf(First(x), v);
    SeenMember(c, x, v);
    var i, j := x.at(x.seen[m].cfgAt), x.at(x.seen[m].sizedAt);
    ReservedInTheEnd(c, x, i, v, d);
    SeenWeight(c, x, v, d);
  }

  lemma SeenMember(c: QuotaFile, x: Scanned, v: int)
    requires Proper(c, x) && InRange(x) && v in First(x).guests && First(x).guests[v].pool == x.pool
    ensures var m := MemberOf(First(x), v);
            && m in x.seen && x.at(x.start) <= x.at(x.seen[m].cfgAt) <= x.at(x.seen[m].sizedAt) <= x.hi
            && var s := x.states[x.at(x.seen[m].cfgAt)];
               v in s.guests && MemberOf(s, v) == m && x.up(x.seen[m].cfgAt).configs[KeyOf(m)] == s.guests[v].cfg
  {
    var s, m := First(x), MemberOf(First(x), v);
    assert Serves(x.up(x.start), x.states[x.at(x.start)], x.pool, x.others);
    assert m in PoolMembers(s, x.pool) && IsGuest(m);
    assert m in x.seen;
    var cfgAt := x.seen[m].cfgAt;
    assert Serves(x.up(cfgAt), x.states[x.at(cfgAt)], x.pool, x.others);
    assert Serves(x.up(x.seen[m].sizedAt), x.states[x.at(x.seen[m].sizedAt)], x.pool, x.others);
  }

  lemma SeenWeight(c: QuotaFile, x: Scanned, v: int, d: Dim)
    requires Proper(c, x) && InRange(x) && v in First(x).guests && First(x).guests[v].pool == x.pool
    requires MemberOf(First(x), v) in x.seen
    ensures var i := x.at(x.seen[MemberOf(First(x), v)].cfgAt);
            i < |x.states| && v in x.states[i].guests
            && GuestFoot(Last(x).contents, x.states[i].guests[v], d) <= SeenOf(x, v, d)
    ensures SeenOf(x, v, d) >= 0
  {
    var m := MemberOf(First(x), v);
    SeenMember(c, x, v);
    var i, j := x.at(x.seen[m].cfgAt), x.at(x.seen[m].sizedAt);
    var g := x.states[i].guests[v];
    RunShape(c, x.states, x.steps, i);
    RunShape(c, x.states, x.steps, j);
    assert WellSized(g);
    assert Serves(x.up(x.seen[m].sizedAt), x.states[j], x.pool, x.others);
    ListingsDuring(c, x.states, x.steps, j, x.hi);
    FootMono(Last(x).contents, x.states[j].contents, g.node, g.kind, g.cfg, d);
    assert SeenOf(x, v, d) == GuestFoot(x.states[j].contents, g, d) >= 0;
  }

  // ---------------------------------------------------------------- the whole pool

  ghost function SeenByGuest(x: Scanned, d: Dim): map<int, int>
    requires InRange(x)
  {
    map v | v in First(x).guests && First(x).guests[v].pool == x.pool :: SeenOf(x, v, d)
  }

  ghost function LostByGuest(x: Scanned, d: Dim): map<int, int>
    requires InRange(x)
  {
    map v | v in First(x).tasks && First(x).tasks[v].pool == x.pool :: LostOf(x, v, d)
  }

  lemma SeenAmongMembers(c: QuotaFile, x: Scanned, d: Dim)
    requires Proper(c, x) && InRange(x) && ListingsShrink(x.up)
    ensures Sum(SeenByGuest(x, d)) <= SeenTotal(x.up, x.seen, d)
  {
    var all, seen := SeenMap(x.up, x.seen, d), SeenByGuest(x, d);
    forall v | v in seen
      ensures v in First(x).guests && MemberOf(First(x), v) in all && seen[v] == all[MemberOf(First(x), v)]
    {
      SeenMember(c, x, v);
    }
    forall m | m in all ensures all[m] >= 0 { SeenNonNegative(c, x, m, d); }
    MembersInject(First(x), seen, all);
  }

  /** Different guests are different members. */
  lemma MembersInject(s: State, byGuest: map<int, int>, all: map<Member, int>)
    requires forall v <- byGuest :: v in s.guests && MemberOf(s, v) in all && byGuest[v] == all[MemberOf(s, v)]
    requires forall m <- all :: all[m] >= 0
    ensures Sum(byGuest) <= Sum(all)
  {
    var member := map v | v in byGuest :: MemberOf(s, v);
    forall v, w | v in member && w in member && member[v] == member[w] ensures v == w {}
    SumInjection(byGuest, all, member);
  }

  lemma SeenNonNegative(c: QuotaFile, x: Scanned, m: Member, d: Dim)
    requires Proper(c, x) && ListingsShrink(x.up) && m in x.seen
    ensures Get(SeenMap(x.up, x.seen, d), m) >= 0
  {
    assert NonNegative(x.up(x.seen[m].cfgAt)) && NonNegative(x.up(x.seen[m].sizedAt));
  }

  lemma RequestsApart(c: QuotaFile, s: State, v: int, w: int)
    requires TaskInv(c, s) && v in s.tasks && w in s.tasks && s.tasks[v].req == s.tasks[w].req
    ensures v == w
  {
    assert TaskOk(c, s, v, s.tasks[v]) && TaskOk(c, s, w, s.tasks[w]);
  }

  /** A write of the pool that is pending at the first read is still a lost one in the end. */
  lemma LostInTheEnd(c: QuotaFile, x: Scanned, v: int, d: Dim)
    requires Proper(c, x) && InRange(x) && v in First(x).tasks && First(x).tasks[v].pool == x.pool
    ensures First(x).tasks[v].req in Last(x).lapsed && Last(x).lapsed[First(x).tasks[v].req].task == First(x).tasks[v]
    ensures LostOf(x, v, d) == Excess(Last(x).lapsed[First(x).tasks[v].req], d)
  {
    ProperInRange(c, x);
    HolderAlone(c, First(x), x.r);
    LostDuring(c, x.states, x.steps, x.at(x.start), x.hi, First(x).tasks[v].req, d);
  }

  lemma LostAmongLapsed(c: QuotaFile, x: Scanned, d: Dim)
    requires Proper(c, x) && InRange(x)
    ensures Sum(LostByGuest(x, d)) <= Lapsed(Last(x), x.pool, d)
  {
    ProperInRange(c, x);
    forall v | v in First(x).tasks && First(x).tasks[v].pool == x.pool
      ensures First(x).tasks[v].req in Last(x).lapsed && Last(x).lapsed[First(x).tasks[v].req].task == First(x).tasks[v]
      ensures LostByGuest(x, d)[v] == Excess(Last(x).lapsed[First(x).tasks[v].req], d)
    {
      LostInTheEnd(c, x, v, d);
    }
    LostPairs(c, First(x), Last(x), x.pool, d, LostByGuest(x, d));
  }

  lemma LostPairs(c: QuotaFile, s: State, s': State, pool: string, d: Dim, lost: map<int, int>)
    requires TaskInv(c, s) && TaskInv(c, s')
    requires forall v <- s.tasks | s.tasks[v].pool == pool ::
               s.tasks[v].req in s'.lapsed && s'.lapsed[s.tasks[v].req].task == s.tasks[v]
    requires forall v <- lost ::
               v in s.tasks && s.tasks[v].pool == pool && s.tasks[v].req in s'.lapsed
               && lost[v] == Excess(s'.lapsed[s.tasks[v].req], d)
    ensures Sum(lost) <= Lapsed(s', pool, d)
  {
    var req := map v | v in lost :: s.tasks[v].req;
    forall v, w | v in lost && w in lost && req[v] == req[w] ensures v == w { RequestsApart(c, s, v, w); }
    LostInLapsed(c, s', pool, d, lost, req);
  }

  lemma GuestCounted(c: QuotaFile, x: Scanned, v: int, d: Dim)
    requires Proper(c, x) && InRange(x)
    ensures Get(PoolMap(Last(x), x.pool, d), v) + Get(PendingMap(Last(x), x.pool, d), v) <=
            Get(SeenByGuest(x, d), v) + Get(LostByGuest(x, d), v)
  {
    ProperInRange(c, x);
    ReservedParts(c, Last(x), v, x.pool, d);
    GuestCovered(c, x, v, d);
    ByGuest(x, v, d);
  }

  lemma ByGuest(x: Scanned, v: int, d: Dim)
    requires InRange(x)
    ensures Get(SeenByGuest(x, d), v) == SeenOf(x, v, d) && Get(LostByGuest(x, d), v) == LostOf(x, v, d)
  {}

  /** The pool: its usage and what is pending in the end are covered by what the scan saw and by what
      the lost writes count for. */
  lemma PoolCovered(c: QuotaFile, x: Scanned, d: Dim)
    requires Proper(c, x) && InRange(x) && ListingsShrink(x.up)
    ensures PoolUsage(Last(x), x.pool, d) + Pending(Last(x), x.pool, d) <=
            SeenTotal(x.up, x.seen, d) + Lapsed(Last(x), x.pool, d)
  {
    var s', seen, lost := Last(x), SeenByGuest(x, d), LostByGuest(x, d);
    forall v
      ensures Get(PoolMap(s', x.pool, d), v) + Get(PendingMap(s', x.pool, d), v) <= Get(seen, v) + Get(lost, v)
    {
      GuestCounted(c, x, v, d);
    }
    SumPairs(seen, lost, PoolMap(s', x.pool, d), PendingMap(s', x.pool, d));
    SeenAmongMembers(c, x, d);
    LostAmongLapsed(c, x, d);
  }

  lemma ServedNonNegative(c: QuotaFile, api: Api, s: State, pool: string, others: set<Member>)
    requires Serves(api, s, pool, others) && TaskInv(c, s)
    ensures NonNegative(api)
  {
    forall m, contents, d | KeyOf(m) in api.configs && NonNegativeContents(contents)
      ensures Foot(contents, m.node, m.kind, api.configs[KeyOf(m)], d) >= 0
    {
      assert WellSized(s.guests[m.vmid]);
      assert GuestFoot(contents, s.guests[m.vmid], d) >= 0;
    }
  }

  lemma ListingsShrinkDuring(c: QuotaFile, states: seq<State>, steps: seq<Step>, pool: string, up: Upstream,
                             at: nat -> nat, others: set<Member>, lo: nat, hi: nat)
    requires ValidFile(c) && IsRun(c, states, steps) && Fresh(states[0])
    requires hi <= |steps| && ReadsDuring(up, at, states, pool, others, lo, hi)
    ensures ListingsShrink(up)
  {
    forall t: nat
      ensures NonNegative(up(t)) && Visible(up(t)) == up(t).contents
      ensures SmallerListings(up(t + 1).contents, up(t).contents)
    {
      assert Serves(up(t), states[at(t)], pool, others);
      assert Serves(up(t + 1), states[at(t + 1)], pool, others);
      RunShape(c, states, steps, at(t));
      ServedNonNegative(c, up(t), states[at(t)], pool, others);
      ListingsDuring(c, states, steps, at(t), at(t + 1));
    }
  }

  /** The scan of a request that holds its user's lock: other requests, the environment and writes
      lost earlier go on meanwhile, and listings are cached; still, what it returns is what the
      protocol asks of the usage that the decision is then taken on. */
  method ScanWhileHolding(ghost c: QuotaFile, ghost states: seq<State>, ghost steps: seq<Step>, ghost r: int,
                          ghost user: string, pool: string, up: Upstream, start: nat, ghost at: nat -> nat,
                          ghost others: set<Member>, ghost lo: nat, ghost hi: nat)
    returns (used: Option<Usage>)
    requires ValidFile(c) && user in c.users && pool == PoolOf(c, user)
    requires IsRun(c, states, steps) && Fresh(states[0]) && HoldsDuring(c, states, steps, r, user, lo, hi)
    requires ReadsDuring(up, at, states, pool, others, lo, hi)
    ensures UsageRead(states[hi], pool, used)
  {
    ListingsShrinkDuring(c, states, steps, pool, up, at, others, lo, hi);
    var now, log;
    ghost var seen;
    used, now, log, seen := Engine.UserUsage(up, pool, start);
    if used.Some? {
      ghost var x := Scanned(states, steps, r, user, pool, lo, hi, up, at, others, start, now, seen);
      forall d
        ensures used.value.At(d) + Lapsed(states[hi], pool, d) - Pending(states[hi], pool, d) >=
                PoolUsage(states[hi], pool, d)
      {
        PoolCovered(c, x, d);
      }
    }
  }
}
