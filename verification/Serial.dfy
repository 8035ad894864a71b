/** Runs in which no write is lost look serial: one write of a pool at a time, each fitting the state
    it is applied to. */
module Serial {
  import opened Wrappers
  import opened MapSums
  import opened Accounting
  import opened Engine
  import opened Deltas
  import opened Quota
  import opened Admission
  import opened Tasks
  import opened Protocol
  import opened Safety

  // ---------------------------------------------------------------- mutual exclusion

  /** At most one request of a pool is between lock and unlock. */
  lemma MutualExclusion(c: QuotaFile, s: State, r1: int, r2: int)
    requires ValidFile(c) && LockInv(c, s) && r1 in s.reqs && r2 in s.reqs
    requires Critical(s.reqs[r1].phase) && Critical(s.reqs[r2].phase)
    requires PoolOf(c, s.reqs[r1].user) == PoolOf(c, s.reqs[r2].user)
    ensures r1 == r2
  {
    LocksArePoolLocks(c, s.reqs[r1].user, s.reqs[r2].user);
  }

  /** With no write lost, at most one write of a pool is at work. */
  lemma OneTaskPerPool(c: QuotaFile, s: State, v: int, w: int)
    requires ValidFile(c) && LockInv(c, s) && TaskInv(c, s) && s.lapsed == map[]
    requires v in s.tasks && w in s.tasks && s.tasks[v].pool == s.tasks[w].pool
    ensures v == w
  {
    assert TaskOk(c, s, v, s.tasks[v]) && TaskOk(c, s, w, s.tasks[w]);
    MutualExclusion(c, s, s.tasks[v].req, s.tasks[w].req);
  }

  /** With no write lost, a decision is taken on the state in which every write admitted earlier to
      the user's pool has landed or failed; given that state's own usage, it admits exactly the
      deltas that fit it. */
  lemma DecisionIsCurrent(c: QuotaFile, states: seq<State>, steps: seq<Step>, n: nat)
    requires ValidFile(c) && IsRun(c, states, steps) && Fresh(states[0]) && n < |steps| && steps[n].DecideStep?
    requires NothingLost(states, steps, n)
    ensures steps[n].r in states[n].reqs && states[n].reqs[steps[n].r].user in c.users
    ensures var s, q := states[n], states[n].reqs[steps[n].r];
            && (forall v <- s.tasks :: s.tasks[v].pool != PoolOf(c, q.user))
            && var used, record := steps[n].used, c.users[q.user].value;
               (used.Some? && (forall d :: used.value.At(d) == PoolUsage(s, record.pool, d)) ==>
                 (Decide(true, q.write, record, AnswersOf(q, used)).allowed <==>
                    && DeltaRead(q).Some?
                    && forall d :: FitsAt(Limit(record, q.write.node, d), PoolUsage(s, record.pool, d),
                                          DeltaRead(q).value.At(d))))
  {
    RunShape(c, states, steps, n);
    NothingLapsed(c, states, steps, n);
    assert StepAt(c, states, steps, n);
    var s, q := states[n], states[n].reqs[steps[n].r];
    HolderAlone(c, s, steps[n].r);
    DecideClosed(q.write, c.users[q.user].value, AnswersOf(q, steps[n].used));
    UsageIsNoDelta(q, steps[n].used);
  }

  // ---------------------------------------------------------------- what other steps do to a pool

  /** A write that the step lets land is one for another pool. */
  ghost predicate LandsElsewhere(s: State, step: Step, pool: string) {
    && (step.Land? && step.vmid in s.tasks ==> s.tasks[step.vmid].pool != pool)
    && (step.AcceptApplied? && step.r in s.reqs && s.reqs[step.r].vmid in s.tasks ==>
          s.tasks[s.reqs[step.r].vmid].pool != pool)
  }

  /** What one guest id weighs in a pool. */
  ghost function WeightIn(s: State, v: int, pool: string, d: Dim): int {
    Get(PoolMap(s, pool, d), v)
  }

  lemma LandedElsewhere(c: QuotaFile, s: State, s': State, vmid: int, g: Guest, v: int, pool: string, d: Dim)
    requires TaskInv(c, s) && CanLand(s, vmid, g) && s.tasks[vmid].pool != pool
    requires s'.guests == s.guests[vmid := g] && s'.contents == s.contents
    ensures WeightIn(s', v, pool, d) == WeightIn(s, v, pool, d)
  {
    assert TaskOk(c, s, vmid, s.tasks[vmid]);
  }

  lemma EnvironmentWeight(c: QuotaFile, s: State, step: Step, v: int, pool: string, d: Dim)
    requires ValidFile(c) && TaskInv(c, s) && Enabled(c, s, step)
    requires step.Destroy? || step.ShrinkGuest? || step.ShrinkContents?
    ensures WeightIn(Apply(c, s, step), v, pool, d) <= WeightIn(s, v, pool, d)
  {
    GuestWeight(c, s, s.contents, v, d);
    if step.ShrinkContents? {
      if v in s.guests {
        FootMono(step.contents, s.contents, s.guests[v].node, s.guests[v].kind, s.guests[v].cfg, d);
      }
    } else if step.ShrinkGuest? {
      ShrunkWeight(s, step.vmid, step.g, v, pool, d);
    }
  }

  lemma ShrunkWeight(s: State, vmid: int, g: Guest, v: int, pool: string, d: Dim)
    requires NonNegativeContents(s.contents) && vmid in s.guests && Shrunk(g, s.guests[vmid])
    ensures Get(PoolMap(s.(guests := s.guests[vmid := g]), pool, d), v) <= WeightIn(s, v, pool, d)
  {
    assert GuestFoot(s.contents, g, d) <= GuestFoot(s.contents, s.guests[vmid], d);
  }

  /** Neither a landing nor the environment. */
  predicate Bookkeeping(step: Step) {
    !step.Land? && !step.AcceptApplied? && !step.Destroy? && !step.ShrinkGuest? && !step.ShrinkContents?
  }

  lemma StaysPut(c: QuotaFile, s: State, step: Step)
    requires ValidFile(c) && Enabled(c, s, step) && Bookkeeping(step)
    ensures Apply(c, s, step).guests == s.guests && Apply(c, s, step).contents == s.contents
  {
    if Starts(step) {
      StartShape(c, s, step);
    } else if step.RefusedUpstream? {
      RefusedStep(c, s, step.r);
    }
  }

  /** A step that lands no write of the pool makes no guest of the pool heavier. */
  lemma OthersOnlyShrink(c: QuotaFile, s: State, step: Step, v: int, pool: string, d: Dim)
    requires ValidFile(c) && TaskInv(c, s) && Enabled(c, s, step) && LandsElsewhere(s, step, pool)
    ensures WeightIn(Apply(c, s, step), v, pool, d) <= WeightIn(s, v, pool, d)
  {
    var s' := Apply(c, s, step);
    if step.Land? {
      LandedElsewhere(c, s, s', step.vmid, step.g, v, pool, d);
    } else if step.AcceptApplied? {
      LandedElsewhere(c, s, s', s.reqs[step.r].vmid, step.g, v, pool, d);
    } else if Bookkeeping(step) {
      StaysPut(c, s, step);
    } else {
      EnvironmentWeight(c, s, step, v, pool, d);
    }
  }

  /** A pool that no write is at work on only shrinks. */
  lemma PoolOnlyShrinks(c: QuotaFile, s: State, step: Step, pool: string, d: Dim)
    requires ValidFile(c) && TaskInv(c, s) && Enabled(c, s, step) && forall v <- s.tasks :: s.tasks[v].pool != pool
    ensures PoolUsage(Apply(c, s, step), pool, d) <= PoolUsage(s, pool, d)
  {
    var a, b := PoolMap(Apply(c, s, step), pool, d), PoolMap(s, pool, d);
    forall v ensures Get(a, v) <= Get(b, v) { OthersOnlyShrink(c, s, step, v, pool, d); }
    SumMono(a, b);
  }

  /** Interference: while a request holds its user's lock undecided, and no write is lost, no step of
      anyone raises the usage of its pool. */
  lemma InterferenceOnlyShrinks(c: QuotaFile, s: State, r: int, step: Step, d: Dim)
    requires ValidFile(c) && LockInv(c, s) && TaskInv(c, s) && s.lapsed == map[]
    requires r in s.reqs && s.reqs[r].phase.Holding? && Enabled(c, s, step)
    ensures PoolUsage(Apply(c, s, step), PoolOf(c, s.reqs[r].user), d) <= PoolUsage(s, PoolOf(c, s.reqs[r].user), d)
  {
    HolderAlone(c, s, r);
    PoolOnlyShrinks(c, s, step, PoolOf(c, s.reqs[r].user), d);
  }

  /** The same while its write is allowed and not taken up. */
  lemma NothingBeside(c: QuotaFile, s: State, r: int)
    requires ValidFile(c) && LockInv(c, s) && TaskInv(c, s) && s.lapsed == map[]
    requires r in s.reqs && Unstarted(s.reqs[r])
    ensures forall v <- s.tasks :: s.tasks[v].pool != PoolOf(c, s.reqs[r].user)
  {
    forall v | v in s.tasks ensures s.tasks[v].pool != PoolOf(c, s.reqs[r].user) {
      assert TaskOk(c, s, v, s.tasks[v]);
      if s.tasks[v].pool == PoolOf(c, s.reqs[r].user) { MutualExclusion(c, s, s.tasks[v].req, r); }
    }
  }

  // ---------------------------------------------------------------- every admitted write still fits

  /** The state with the guest of a pending write as it was admitted on. */
  function AsAdmitted(s: State, v: int): State
    requires v in s.tasks
  {
    if s.tasks[v].start.Some? && v in s.guests then s.(guests := s.guests[v := s.tasks[v].start.value]) else s
  }

  /** One write at work, in one dimension, would pass the check again. */
  ghost predicate FitsAgain(c: QuotaFile, s: State, v: int, d: Dim)
    requires ValidFile(c) && v in s.tasks
  {
    FitsAt(OwnerLimit(c, s.tasks[v].pool, d), PoolUsage(AsAdmitted(s, v), s.tasks[v].pool, d), s.tasks[v].delta.At(d))
  }

  /** So would one that is allowed and not taken up. */
  ghost predicate GrantFits(c: QuotaFile, s: State, r: int, d: Dim)
    requires ValidFile(c) && r in s.reqs
  {
    var q := s.reqs[r];
    Unstarted(q) && q.user in c.users && DeltaRead(q).Some? ==>
      FitsAt(OwnerLimit(c, PoolOf(c, q.user), d), PoolUsage(s, PoolOf(c, q.user), d), DeltaRead(q).value.At(d))
  }

  /** Every admitted write would pass the check again, now. */
  ghost predicate FitNow(c: QuotaFile, s: State)
    requires ValidFile(c)
  {
    && (forall v <- s.tasks, d :: FitsAgain(c, s, v, d))
    && (forall r <- s.reqs, d :: GrantFits(c, s, r, d))
  }

  /** The tasks that remain after a step were there before, and the one that landed was alone in its pool. */
  lemma RemainingTasks(c: QuotaFile, s: State, step: Step, v: int)
    requires ValidFile(c) && LockInv(c, s) && TaskInv(c, s) && s.lapsed == map[]
    requires Enabled(c, s, step) && !Starts(step) && v in Apply(c, s, step).tasks
    ensures v in s.tasks && Apply(c, s, step).tasks[v] == s.tasks[v]
    ensures LandsElsewhere(s, step, s.tasks[v].pool)
  {
    TasksOnlyEnd(c, s, step);
    LandedAlone(c, s, step, v);
  }

  lemma LandedAlone(c: QuotaFile, s: State, step: Step, v: int)
    requires ValidFile(c) && LockInv(c, s) && TaskInv(c, s) && s.lapsed == map[]
    requires Enabled(c, s, step) && v in s.tasks && v in Apply(c, s, step).tasks
    ensures LandsElsewhere(s, step, s.tasks[v].pool)
  {
    if step.Land? && s.tasks[step.vmid].pool == s.tasks[v].pool {
      OneTaskPerPool(c, s, step.vmid, v);
    }
    if step.AcceptApplied? && s.tasks[s.reqs[step.r].vmid].pool == s.tasks[v].pool {
      OneTaskPerPool(c, s, s.reqs[step.r].vmid, v);
    }
  }

  lemma GuestsComeByLanding(c: QuotaFile, s: State, step: Step, v: int)
    requires ValidFile(c) && TaskInv(c, s) && Enabled(c, s, step) && v in s.tasks && v in Apply(c, s, step).tasks
    ensures v in Apply(c, s, step).guests ==> v in s.guests
  {
    if Bookkeeping(step) { StaysPut(c, s, step); }
  }

  /** With the guest of a pending write as it was admitted on, no guest gets heavier either. */
  lemma AdmittedWeight(c: QuotaFile, s: State, step: Step, v: int, w: int, d: Dim)
    requires ValidFile(c) && TaskInv(c, s) && Enabled(c, s, step) && v in s.tasks
    requires v in Apply(c, s, step).tasks && Apply(c, s, step).tasks[v] == s.tasks[v]
    requires LandsElsewhere(s, step, s.tasks[v].pool)
    ensures WeightIn(AsAdmitted(Apply(c, s, step), v), w, s.tasks[v].pool, d) <=
            WeightIn(AsAdmitted(s, v), w, s.tasks[v].pool, d)
  {
    var s', t := Apply(c, s, step), s.tasks[v];
    if w == v && t.start.Some? {
      assert TaskOk(c, s, v, t);
      GuestsComeByLanding(c, s, step, v);
      ListingsOnlyShrink(c, s, step);
      OwnWeight(s, s', v, d);
    } else {
      OthersOnlyShrink(c, s, step, w, t.pool, d);
      OtherWeight(s, v, w, t.pool, d);
      OtherWeight(s', v, w, t.pool, d);
    }
  }

  lemma OtherWeight(s: State, v: int, w: int, pool: string, d: Dim)
    requires v in s.tasks && (w != v || s.tasks[v].start.None?)
    ensures WeightIn(AsAdmitted(s, v), w, pool, d) == WeightIn(s, w, pool, d)
  {}

  lemma OwnWeight(s: State, s': State, v: int, d: Dim)
    requires v in s.tasks && v in s'.tasks && s'.tasks[v] == s.tasks[v] && s.tasks[v].start.Some?
    requires WellSized(s.tasks[v].start.value) && NonNegativeContents(s.contents)
    requires s.tasks[v].start.value.pool == s.tasks[v].pool && (v in s'.guests ==> v in s.guests)
    requires SmallerListings(s'.contents, s.contents)
    requires v in s.guests ==> s.guests[v].pool == s.tasks[v].pool
    ensures WeightIn(AsAdmitted(s', v), v, s.tasks[v].pool, d) <= WeightIn(AsAdmitted(s, v), v, s.tasks[v].pool, d)
  {
    var g := s.tasks[v].start.value;
    FootMono(s'.contents, s.contents, g.node, g.kind, g.cfg, d);
    assert GuestFoot(s.contents, g, d) >= 0;
  }

  lemma FitKeptByOthers(c: QuotaFile, s: State, step: Step, v: int, d: Dim)
    requires ValidFile(c) && LockInv(c, s) && TaskInv(c, s) && s.lapsed == map[]
    requires Enabled(c, s, step) && !Starts(step) && v in Apply(c, s, step).tasks
    requires v in s.tasks ==> FitsAgain(c, s, v, d)
    ensures FitsAgain(c, Apply(c, s, step), v, d)
  {
    var s' := Apply(c, s, step);
    RemainingTasks(c, s, step, v);
    forall w
      ensures WeightIn(AsAdmitted(s', v), w, s.tasks[v].pool, d) <= WeightIn(AsAdmitted(s, v), w, s.tasks[v].pool, d)
    {
      AdmittedWeight(c, s, step, v, w, d);
    }
    FitCarried(c, s, s', v, d);
  }

  lemma FitCarried(c: QuotaFile, s: State, s': State, v: int, d: Dim)
    requires ValidFile(c) && v in s.tasks && v in s'.tasks && s'.tasks[v] == s.tasks[v] && FitsAgain(c, s, v, d)
    requires forall w :: WeightIn(AsAdmitted(s', v), w, s.tasks[v].pool, d) <=
                         WeightIn(AsAdmitted(s, v), w, s.tasks[v].pool, d)
    ensures FitsAgain(c, s', v, d)
  {
    var a := PoolMap(AsAdmitted(s', v), s.tasks[v].pool, d);
    var b := PoolMap(AsAdmitted(s, v), s.tasks[v].pool, d);
    forall w ensures Get(a, w) <= Get(b, w) {
      assert WeightIn(AsAdmitted(s', v), w, s.tasks[v].pool, d) <= WeightIn(AsAdmitted(s, v), w, s.tasks[v].pool, d);
    }
    SumMono(a, b);
  }

  lemma UsageSame(s: State, s': State, pool: string, d: Dim)
    requires s'.guests == s.guests && s'.contents == s.contents
    ensures PoolUsage(s', pool, d) == PoolUsage(s, pool, d)
  {
    assert PoolMap(s', pool, d) == PoolMap(s, pool, d);
  }

  lemma FitOld(c: QuotaFile, s: State, s': State, v: int, d: Dim)
    requires ValidFile(c) && v in s.tasks && v in s'.tasks && s'.tasks[v] == s.tasks[v]
    requires s'.guests == s.guests && s'.contents == s.contents && FitsAgain(c, s, v, d)
    ensures FitsAgain(c, s', v, d)
  {
    UsageSame(AsAdmitted(s, v), AsAdmitted(s', v), s.tasks[v].pool, d);
  }

  /** A write taken up on a state that its delta fits still fits. */
  lemma FitNew(c: QuotaFile, s: State, s': State, r: int, d: Dim)
    requires ValidFile(c) && r in s.reqs && s.reqs[r].user in c.users && s.reqs[r].view.Some?
    requires DeltaRead(s.reqs[r]).Some? && Workable(s, s.reqs[r], PoolOf(c, s.reqs[r].user))
    requires s'.guests == s.guests && s'.contents == s.contents && s.reqs[r].vmid in s'.tasks
    requires s'.tasks[s.reqs[r].vmid] == TaskOf(c, s, r)
    requires FitsAt(OwnerLimit(c, PoolOf(c, s.reqs[r].user), d), PoolUsage(s, PoolOf(c, s.reqs[r].user), d),
                    DeltaRead(s.reqs[r]).value.At(d))
    ensures FitsAgain(c, s', s.reqs[r].vmid, d)
  {
    var v := s.reqs[r].vmid;
    if TaskOf(c, s, r).start.Some? { assert s.guests[v := s.guests[v]] == s.guests; }
    UsageSame(s, AsAdmitted(s', v), PoolOf(c, s.reqs[r].user), d);
  }

  /** With nothing lost, an allowed delta fits the usage as it is. */
  lemma VerdictFitsNow(c: QuotaFile, s: State, r: int, used: Option<Usage>, d: Dim)
    requires ValidFile(c) && Narrowing(c) && TaskInv(c, s) && s.lapsed == map[]
    requires Enabled(c, s, DecideStep(r, used))
    requires var q := s.reqs[r]; Decide(true, q.write, c.users[q.user].value, AnswersOf(q, used)).allowed
    ensures var q, pool := s.reqs[r], PoolOf(c, s.reqs[r].user);
            DeltaRead(q).Some? && FitsAt(OwnerLimit(c, pool, d), PoolUsage(s, pool, d), DeltaRead(q).value.At(d))
  {
    DecisionFits(c, s, r, used, d);
    PendingNonNegative(c, s, PoolOf(c, s.reqs[r].user), d);
    SumZero(LapsedMap(s, PoolOf(c, s.reqs[r].user), d));
  }

  lemma FitStarted(c: QuotaFile, s: State, step: Step, v: int, d: Dim)
    requires ValidFile(c) && Narrowing(c) && TaskInv(c, s) && s.lapsed == map[] && FitNow(c, s)
    requires Enabled(c, s, step) && Starts(step) && v in Apply(c, s, step).tasks
    ensures FitsAgain(c, Apply(c, s, step), v, d)
  {
    var s' := Apply(c, s, step);
    StartShape(c, s, step);
    if v in s.tasks {
      assert FitsAgain(c, s, v, d);
      FitOld(c, s, s', v, d);
    } else {
      StartFits(c, s, step, d);
      FitNew(c, s, s', step.r, d);
    }
  }

  /** What is taken up in a step fits the usage before it. */
  lemma StartFits(c: QuotaFile, s: State, step: Step, d: Dim)
    requires ValidFile(c) && Narrowing(c) && TaskInv(c, s) && s.lapsed == map[] && FitNow(c, s)
    requires Enabled(c, s, step) && Starts(step) && Apply(c, s, step).tasks != s.tasks
    ensures DeltaRead(s.reqs[step.r]).Some?
    ensures var pool := PoolOf(c, s.reqs[step.r].user);
            FitsAt(OwnerLimit(c, pool, d), PoolUsage(s, pool, d), DeltaRead(s.reqs[step.r]).value.At(d))
  {
    if step.DecideStep? {
      DecidedShape(c, s, step.r, step.used);
      VerdictFitsNow(c, s, step.r, step.used, d);
    } else {
      assert GrantFits(c, s, step.r, d);
    }
  }

  /** What is granted after a step was granted before it, unless the step is the verdict. */
  lemma GrantedBefore(c: QuotaFile, s: State, step: Step, r: int)
    requires ValidFile(c) && Enabled(c, s, step) && r in Apply(c, s, step).reqs && Unstarted(Apply(c, s, step).reqs[r])
    requires step.DecideStep? ==> step.r != r
    ensures r in s.reqs && s.reqs[r] == Apply(c, s, step).reqs[r]
  {
    if step.DecideStep? {
      DecidedShape(c, s, step.r, step.used);
    } else if UpstreamStep(step) {
      RequestsStand(c, s, step);
    } else {
      NoNewGrant(c, s, step);
    }
  }

  lemma GrantStillFits(c: QuotaFile, s: State, step: Step, r: int, d: Dim)
    requires ValidFile(c) && Narrowing(c) && LockInv(c, s) && TaskInv(c, s) && s.lapsed == map[] && FitNow(c, s)
    requires Enabled(c, s, step) && r in Apply(c, s, step).reqs && Unstarted(Apply(c, s, step).reqs[r])
    requires step.DecideStep? ==> step.r != r
    ensures GrantFits(c, Apply(c, s, step), r, d)
  {
    GrantedBefore(c, s, step, r);
    assert GrantFits(c, s, r, d);
    NothingBeside(c, s, r);
    PoolOnlyShrinks(c, s, step, PoolOf(c, s.reqs[r].user), d);
  }

  lemma GrantDecided(c: QuotaFile, s: State, r: int, used: Option<Usage>, d: Dim)
    requires ValidFile(c) && Narrowing(c) && TaskInv(c, s) && s.lapsed == map[] && Enabled(c, s, DecideStep(r, used))
    ensures GrantFits(c, Decided(c, s, r, used), r, d)
  {
    DecidedShape(c, s, r, used);
    var s', q := Decided(c, s, r, used), s.reqs[r];
    if Unstarted(s'.reqs[r]) {
      VerdictFitsNow(c, s, r, used, d);
      UsageSame(s, s', PoolOf(c, q.user), d);
    }
  }

  lemma {:induction false} RunFits(c: QuotaFile, states: seq<State>, steps: seq<Step>, n: nat)
    requires ValidFile(c) && Narrowing(c) && IsRun(c, states, steps) && Fresh(states[0])
    requires NothingLost(states, steps, n)
    ensures FitNow(c, states[n])
  {
    if n > 0 {
      RunFits(c, states, steps, n - 1);
      FitNext(c, states, steps, n - 1);
    }
  }

  lemma FitNext(c: QuotaFile, states: seq<State>, steps: seq<Step>, n: nat)
    requires ValidFile(c) && Narrowing(c) && IsRun(c, states, steps) && Fresh(states[0]) && n < |steps|
    requires NothingLost(states, steps, n) && FitNow(c, states[n])
    ensures FitNow(c, states[n + 1])
  {
    RunShape(c, states, steps, n);
    NothingLapsed(c, states, steps, n);
    assert StepAt(c, states, steps, n);
    FitStep(c, states[n], steps[n]);
  }

  lemma FitStep(c: QuotaFile, s: State, step: Step)
    requires ValidFile(c) && Narrowing(c) && LockInv(c, s) && TaskInv(c, s) && s.lapsed == map[] && FitNow(c, s)
    requires Enabled(c, s, step)
    ensures FitNow(c, Apply(c, s, step))
  {
    var s' := Apply(c, s, step);
    forall v, d | v in s'.tasks ensures FitsAgain(c, s', v, d) {
      if v in s.tasks { assert FitsAgain(c, s, v, d); }
      if Starts(step) { FitStarted(c, s, step, v, d); } else { FitKeptByOthers(c, s, step, v, d); }
    }
    forall r, d | r in s'.reqs ensures GrantFits(c, s', r, d) {
      if step.DecideStep? && step.r == r { GrantDecided(c, s, r, step.used, d); }
      else if Unstarted(s'.reqs[r]) { GrantStillFits(c, s, step, r, d); }
    }
  }

  // ---------------------------------------------------------------- the serial system

  /** The serial system applies, in one step, a write that a request of the run decided: to the guest
      it was decided on or a lighter one, and fitting the state with that guest as it was admitted on. */
  ghost predicate SerialWrite(c: QuotaFile, s: State, s': State, v: int, g: Guest)
    requires ValidFile(c) && v in s.tasks
  {
    var t := s.tasks[v];
    && t.req in s.reqs && s.reqs[t.req].task == Some(t)
    && (if t.pre.Some? then v in s.guests && Lighter(s.guests[v], t.pre.value) else v !in s.guests)
    && (forall d :: FitsAgain(c, s, v, d))
    && Lands(s.contents, t, BaseOf(s, v, t), g)
    && s'.guests == s.guests[v := g] && s'.contents == s.contents
    && (forall d :: PoolUsage(s', t.pool, d) <= PoolUsage(AsAdmitted(s, v), t.pool, d) + Growth(t, d))
    && (BaseOf(s, v, t) == t.pre ==> forall d :: PoolUsage(s', t.pool, d) <= PoolUsage(s, t.pool, d) + t.delta.At(d))
    && (forall pool, d | pool != t.pool :: PoolUsage(s', pool, d) == PoolUsage(s, pool, d))
  }

  /** Guests destroyed or shrunk behind the proxy's back, or nothing at all. */
  ghost predicate Unraised(s: State, s': State) {
    && s'.guests.Keys <= s.guests.Keys
    && forall v <- s'.guests, d ::
         s'.guests[v].pool == s.guests[v].pool &&
         GuestFoot(s'.contents, s'.guests[v], d) <= GuestFoot(s.contents, s.guests[v], d)
  }

  ghost predicate SerialStep(c: QuotaFile, s: State, s': State)
    requires ValidFile(c)
  {
    Unraised(s, s') || exists v, g :: v in s.tasks && SerialWrite(c, s, s', v, g)
  }

  /** Replacing the guest of `v` in a pool changes the usage by the difference. */
  lemma ReplacedUsage(s: State, s': State, v: int, g: Guest, pool: string, d: Dim)
    requires s'.guests == s.guests[v := g] && s'.contents == s.contents && g.pool == pool
    ensures PoolUsage(s', pool, d) == PoolUsage(s, pool, d) - WeightIn(s, v, pool, d) + GuestFoot(s.contents, g, d)
  {
    SumChange(PoolMap(s, pool, d), PoolMap(s', pool, d), v);
  }

  /** What is known of a landing in one dimension. */
  ghost predicate LandingBound(s: State, v: int, g: Guest, d: Dim)
    requires v in s.tasks
  {
    var t := s.tasks[v];
    && g.pool == t.pool
    && (if t.start.Some? then v in s.guests && s.guests[v].pool == t.pool == t.start.value.pool else v !in s.guests)
    && GuestFoot(s.contents, g, d) <= StartFoot(s.contents, t, d) + Growth(t, d)
    && (BaseOf(s, v, t) == t.pre ==> GuestFoot(s.contents, g, d) <= PreFoot(s.contents, t, d) + t.delta.At(d))
  }

  lemma LandingBounded(c: QuotaFile, s: State, v: int, g: Guest, d: Dim)
    requires TaskInv(c, s) && CanLand(s, v, g) && ChargedFor(s, v, g) && ReadHeld(s.tasks[v])
    ensures LandingBound(s, v, g, d)
  {
    var t := s.tasks[v];
    assert TaskOk(c, s, v, t);
    assert Found(t, BaseOf(s, v, t));
    LandingFits(c, s, v, g, d);
    HeldIsNotStale(s.contents, t, d);
  }

  lemma LandingUsage(s: State, s': State, v: int, g: Guest, d: Dim)
    requires v in s.tasks && LandingBound(s, v, g, d) && s'.guests == s.guests[v := g] && s'.contents == s.contents
    ensures PoolUsage(s', s.tasks[v].pool, d) <= PoolUsage(AsAdmitted(s, v), s.tasks[v].pool, d) + Growth(s.tasks[v], d)
  {
    OverAdmitted(s, v, g);
    ReplacedUsage(AsAdmitted(s, v), s', v, g, s.tasks[v].pool, d);
    WeightAdmitted(s, v, g, d);
  }

  lemma OverAdmitted(s: State, v: int, g: Guest)
    requires v in s.tasks
    ensures AsAdmitted(s, v).guests[v := g] == s.guests[v := g] && AsAdmitted(s, v).contents == s.contents
  {}

  lemma WeightAdmitted(s: State, v: int, g: Guest, d: Dim)
    requires v in s.tasks && LandingBound(s, v, g, d)
    ensures WeightIn(AsAdmitted(s, v), v, s.tasks[v].pool, d) == StartFoot(s.contents, s.tasks[v], d)
  {}

  lemma LandingOnPre(s: State, s': State, v: int, g: Guest, d: Dim)
    requires v in s.tasks && LandingBound(s, v, g, d) && s'.guests == s.guests[v := g] && s'.contents == s.contents
    requires BaseOf(s, v, s.tasks[v]) == s.tasks[v].pre
    ensures PoolUsage(s', s.tasks[v].pool, d) <= PoolUsage(s, s.tasks[v].pool, d) + s.tasks[v].delta.At(d)
  {
    var t := s.tasks[v];
    ReplacedUsage(s, s', v, g, t.pool, d);
    assert WeightIn(s, v, t.pool, d) == PreFoot(s.contents, t, d);
  }

  lemma OtherPools(c: QuotaFile, s: State, s': State, v: int, g: Guest, pool: string, d: Dim)
    requires TaskInv(c, s) && CanLand(s, v, g) && s'.guests == s.guests[v := g] && s'.contents == s.contents
    requires s.tasks[v].pool != pool
    ensures PoolUsage(s', pool, d) == PoolUsage(s, pool, d)
  {
    forall w ensures Get(PoolMap(s', pool, d), w) == Get(PoolMap(s, pool, d), w) {
      LandedElsewhere(c, s, s', v, g, w, pool, d);
    }
    SumEqual(PoolMap(s', pool, d), PoolMap(s, pool, d));
  }

  lemma LandingIsSerial(c: QuotaFile, s: State, s': State, v: int, g: Guest)
    requires ValidFile(c) && TaskInv(c, s) && FitNow(c, s) && CanLand(s, v, g) && ChargedFor(s, v, g)
    requires ReadHeld(s.tasks[v])
    requires s'.guests == s.guests[v := g] && s'.contents == s.contents
    ensures SerialWrite(c, s, s', v, g)
  {
    assert TaskOk(c, s, v, s.tasks[v]);
    forall d
      ensures PoolUsage(s', s.tasks[v].pool, d) <=
              PoolUsage(AsAdmitted(s, v), s.tasks[v].pool, d) + Growth(s.tasks[v], d)
      ensures BaseOf(s, v, s.tasks[v]) == s.tasks[v].pre ==>
                PoolUsage(s', s.tasks[v].pool, d) <= PoolUsage(s, s.tasks[v].pool, d) + s.tasks[v].delta.At(d)
    {
      LandingBounded(c, s, v, g, d);
      LandingUsage(s, s', v, g, d);
      if BaseOf(s, v, s.tasks[v]) == s.tasks[v].pre { LandingOnPre(s, s', v, g, d); }
    }
    forall pool, d | pool != s.tasks[v].pool { OtherPools(c, s, s', v, g, pool, d); }
  }

  lemma ContentsUnraised(s: State, contents: Contents)
    requires SmallerListings(contents, s.contents)
    ensures Unraised(s, s.(contents := contents))
  {
    forall v, d | v in s.guests ensures GuestFoot(contents, s.guests[v], d) <= GuestFoot(s.contents, s.guests[v], d) {
      FootMono(contents, s.contents, s.guests[v].node, s.guests[v].kind, s.guests[v].cfg, d);
    }
  }

  lemma UnraisedStep(c: QuotaFile, s: State, step: Step)
    requires ValidFile(c) && TaskInv(c, s) && Enabled(c, s, step) && !step.Land? && !step.AcceptApplied?
    ensures Unraised(s, Apply(c, s, step))
  {
    if step.ShrinkContents? {
      ContentsUnraised(s, step.contents);
    } else if Bookkeeping(step) {
      StaysPut(c, s, step);
    }
  }

  /** Serial equivalence: every step of every run in which no write is lost, and in which a write is
      applied as its delta bounds it, seen on the guests and their volumes, is a step of the serial
      system. */
  lemma SerialEquivalence(c: QuotaFile, states: seq<State>, steps: seq<Step>, n: nat)
    requires ValidFile(c) && Narrowing(c) && IsRun(c, states, steps) && Fresh(states[0]) && n < |steps|
    requires NothingLost(states, steps, n) && ReadsHold(states, steps, n) && AsChecked(states[n], steps[n])
    ensures SerialStep(c, states[n], states[n + 1])
  {
    RunShape(c, states, steps, n);
    RunFits(c, states, steps, n);
    RunHeld(c, states, steps, n);
    assert StepAt(c, states, steps, n);
    var s, s', step := states[n], states[n + 1], steps[n];
    if step.Land? {
      LandingIsSerial(c, s, s', step.vmid, step.g);
    } else if step.AcceptApplied? {
      LandingIsSerial(c, s, s', s.reqs[step.r].vmid, step.g);
    } else {
      UnraisedStep(c, s, step);
    }
  }

  lemma UnraisedUsage(s: State, s': State, pool: string, d: Dim)
    requires Unraised(s, s') && forall v <- s.guests :: GuestFoot(s.contents, s.guests[v], d) >= 0
    ensures PoolUsage(s', pool, d) <= PoolUsage(s, pool, d)
  {
    var a, b := PoolMap(s, pool, d), PoolMap(s', pool, d);
    forall v ensures Get(b, v) <= Get(a, v) {
      if v in s'.guests { assert GuestFoot(s'.contents, s'.guests[v], d) <= GuestFoot(s.contents, s.guests[v], d); }
    }
    SumMono(b, a);
  }

  /** What the serial system promises a pool: a step leaves its usage within the larger of what it
      was, with the guest written to as it was admitted on, and its owner's limit. */
  lemma SerialStepSafe(c: QuotaFile, s: State, s': State, pool: string, d: Dim)
    requires ValidFile(c) && SerialStep(c, s, s')
    requires forall v <- s.guests :: GuestFoot(s.contents, s.guests[v], d) >= 0
    ensures || PoolUsage(s', pool, d) <= PoolUsage(s, pool, d)
            || (exists v ::
                  v in s.tasks && s.tasks[v].pool == pool
                  && PoolUsage(s', pool, d) <= PoolUsage(AsAdmitted(s, v), pool, d))
            || (OwnerLimit(c, pool, d).Some? && PoolUsage(s', pool, d) <= OwnerLimit(c, pool, d).value)
  {
    if Unraised(s, s') {
      UnraisedUsage(s, s', pool, d);
    } else {
      var v, g :| v in s.tasks && SerialWrite(c, s, s', v, g);
      SerialWriteSafe(c, s, s', v, g, pool, d);
    }
  }

  lemma SerialWriteSafe(c: QuotaFile, s: State, s': State, v: int, g: Guest, pool: string, d: Dim)
    requires ValidFile(c) && v in s.tasks && SerialWrite(c, s, s', v, g)
    ensures || (pool != s.tasks[v].pool && PoolUsage(s', pool, d) == PoolUsage(s, pool, d))
            || (pool == s.tasks[v].pool && PoolUsage(s', pool, d) <= PoolUsage(AsAdmitted(s, v), pool, d))
            || (OwnerLimit(c, pool, d).Some? && PoolUsage(s', pool, d) <= OwnerLimit(c, pool, d).value)
  {
    assert FitsAgain(c, s, v, d);
  }
}
