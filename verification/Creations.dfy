/** Runs of creates, clones and restores: there, and for lost creations in any run, a lost write counts
    for the increase it was checked for and for nothing else. */
module Creations {
  import opened Wrappers
  import opened MapSums
  import opened Accounting
  import opened Engine
  import opened Deltas
  import opened Quota
  import opened Admission
  import opened Tasks
  import opened Protocol
  import opened Safety

  ghost function LostOverMap(lapsed: map<int, Lost>, d: Dim): map<int, int> {
    map q | q in lapsed :: if MakesGuest(lapsed[q].task.write) then OverOf(lapsed[q], d) else 0
  }

  /** What the lost creations overshot by, or may come to overshoot by as listings shrink. */
  ghost function LostOver(lapsed: map<int, Lost>, d: Dim): int {
    Sum(LostOverMap(lapsed, d))
  }

  /** A creation that lands as checked adds nothing to it. */
  lemma OverAtLanding(c: QuotaFile, s: State, vmid: int, g: Guest, d: Dim)
    requires TaskInv(c, s) && CanLand(s, vmid, g) && ChargedFor(s, vmid, g)
    ensures LostOver(LapsedWith(s, vmid, g), d) <= LostOver(s.lapsed, d)
  {
    var t := s.tasks[vmid];
    assert TaskOk(c, s, vmid, t);
    if MakesGuest(t.write) { NewGuestIsFirm(s.contents, t, g, d); }
    SumMono(LostOverMap(LapsedWith(s, vmid, g), d), LostOverMap(s.lapsed, d));
  }

  lemma OverAtSettle(s: State, r: int, d: Dim)
    requires r in s.reqs && s.reqs[r].task.Some?
    ensures LostOver(EndSettle(s, r).lapsed, d) <= LostOver(s.lapsed, d)
  {
    SumMono(LostOverMap(EndSettle(s, r).lapsed, d), LostOverMap(s.lapsed, d));
  }

  lemma OverAtShrink(s: State, vmid: int, g: Guest, d: Dim)
    ensures LostOver(NoteShrink(s, vmid, g), d) <= LostOver(s.lapsed, d)
  {
    SumMono(LostOverMap(NoteShrink(s, vmid, g), d), LostOverMap(s.lapsed, d));
  }

  lemma OverNeverGrows(c: QuotaFile, s: State, step: Step, d: Dim)
    requires ValidFile(c) && TaskInv(c, s) && Enabled(c, s, step) && AsChecked(s, step)
    ensures LostOver(Apply(c, s, step).lapsed, d) <= LostOver(s.lapsed, d)
  {
    if step.Settle? || step.Lapse? {
      assert RequestOk(s, step.r);
      OverAtSettle(s, step.r, d);
    } else if step.ShrinkGuest? {
      OverAtShrink(s, step.vmid, step.g, d);
    } else if step.Land? {
      OverAtLanding(c, s, step.vmid, step.g, d);
    } else if step.AcceptApplied? {
      OverAtLanding(c, s, s.reqs[step.r].vmid, step.g, d);
    } else {
      LapsesOnlyThere(c, s, step);
    }
  }

  lemma {:induction false} NothingToOvershoot(c: QuotaFile, states: seq<State>, steps: seq<Step>, n: nat, d: Dim)
    requires ValidFile(c) && IsRun(c, states, steps) && Fresh(states[0]) && AllChecked(states, steps, n)
    ensures LostOver(states[n].lapsed, d) <= 0
  {
    if n == 0 {
      SumZero(LostOverMap(states[0].lapsed, d));
    } else {
      NothingToOvershoot(c, states, steps, n - 1, d);
      NextOver(c, states, steps, n - 1, d);
    }
  }

  lemma NextOver(c: QuotaFile, states: seq<State>, steps: seq<Step>, n: nat, d: Dim)
    requires ValidFile(c) && IsRun(c, states, steps) && Fresh(states[0]) && n < |steps|
    requires AsChecked(states[n], steps[n])
    ensures LostOver(states[n + 1].lapsed, d) <= LostOver(states[n].lapsed, d)
  {
    RunShape(c, states, steps, n);
    assert StepAt(c, states, steps, n);
    OverNeverGrows(c, states[n], steps[n], d);
  }

  // ---------------------------------------------------------------- what lost creations count for

  ghost function LostGrowthMap(s: State, pool: string, d: Dim): map<int, int> {
    map q | q in s.lapsed :: if s.lapsed[q].task.pool == pool then Growth(s.lapsed[q].task, d) else 0
  }

  /** The positive deltas of the writes to a pool whose settle ended before they were applied. */
  ghost function LostGrowth(s: State, pool: string, d: Dim): int {
    Sum(LostGrowthMap(s, pool, d))
  }

  /** Every lost write makes a guest. */
  predicate CreationsLost(s: State) {
    forall q <- s.lapsed :: MakesGuest(s.lapsed[q].task.write)
  }

  /** Where what is applied is what its delta bounds, lost creations count for their increases and for
      nothing else, whenever they are applied and whatever shrinks meanwhile. */
  lemma LostCreationsCount(c: QuotaFile, states: seq<State>, steps: seq<Step>, n: nat, pool: string, d: Dim)
    requires ValidFile(c) && IsRun(c, states, steps) && Fresh(states[0]) && AllChecked(states, steps, n)
    requires CreationsLost(states[n])
    ensures Lapsed(states[n], pool, d) == LostGrowth(states[n], pool, d)
  {
    RunShape(c, states, steps, n);
    NothingToOvershoot(c, states, steps, n, d);
    OnlyGrowth(c, states[n], pool, d);
  }

  lemma OnlyGrowth(c: QuotaFile, s: State, pool: string, d: Dim)
    requires TaskInv(c, s) && CreationsLost(s) && LostOver(s.lapsed, d) <= 0
    ensures Lapsed(s, pool, d) == LostGrowth(s, pool, d)
  {
    var lapsed, growth, over := LapsedMap(s, pool, d), LostGrowthMap(s, pool, d), LostOverMap(s.lapsed, d);
    forall q ensures Get(growth, q) <= Get(lapsed, q) && Get(lapsed, q) <= Get(growth, q) + Get(over, q) {
      if q in s.lapsed { assert LostOk(s, q, s.lapsed[q]); }
    }
    SumMono(growth, lapsed);
    SumPairs(growth, over, lapsed, map[]);
  }

  /** Bounded degradation as the sum of the deltas: if every lost write makes a guest, what is applied
      is what its delta bounds, and decisions are taken on what still holds, usage with all that is
      pending or granted stays within the ceiling plus the total positive delta of the lost writes. */
  lemma LostDeltasBound(c: QuotaFile, states: seq<State>, steps: seq<Step>, n: nat, pool: string, d: Dim)
    requires ValidFile(c) && Narrowing(c) && IsRun(c, states, steps) && Fresh(states[0])
    requires AllChecked(states, steps, n) && ReadsHold(states, steps, n) && CreationsLost(states[n])
    ensures var s := states[n];
            PoolUsage(s, pool, d) + Pending(s, pool, d) + Granted(c, s.reqs, pool, d) <=
            Ceiling(c, states[0], pool, d) + LostGrowth(s, pool, d)
  {
    BoundedDegradation(c, states, steps, n, pool, d);
    LostCreationsCount(c, states, steps, n, pool, d);
    NothingOvershot(c, states, steps, n, pool, d);
  }

  // ---------------------------------------------------------------- runs of creations

  /** Every request of the run creates, clones or restores a guest. */
  predicate OnlyCreations(steps: seq<Step>) {
    forall i :: 0 <= i < |steps| && steps[i].Arrive? ==> MakesGuest(steps[i].write)
  }

  predicate Creates(s: State) {
    && (forall r <- s.reqs :: MakesGuest(s.reqs[r].write))
    && (forall v <- s.tasks :: MakesGuest(s.tasks[v].write))
    && CreationsLost(s)
  }

  lemma StaysCreating(c: QuotaFile, s: State, step: Step)
    requires ValidFile(c) && TaskInv(c, s) && Enabled(c, s, step) && Creates(s)
    requires step.Arrive? ==> MakesGuest(step.write)
    ensures Creates(Apply(c, s, step))
  {
    RequestsCreate(c, s, step);
    TasksCreate(c, s, step);
    LostCreate(c, s, step);
  }

  lemma RequestsCreate(c: QuotaFile, s: State, step: Step)
    requires ValidFile(c) && Enabled(c, s, step) && Creates(s) && (step.Arrive? ==> MakesGuest(step.write))
    ensures forall r <- Apply(c, s, step).reqs :: MakesGuest(Apply(c, s, step).reqs[r].write)
  {
    if step.DecideStep? {
      DecidedCreate(c, s, step.r, step.used);
    } else if UpstreamStep(step) {
      RequestsStand(c, s, step);
    } else if !step.Arrive? && !step.ReadStep? && !step.TakeUp? {
      PhaseOnly(c, s, step);
    }
  }

  lemma DecidedCreate(c: QuotaFile, s: State, r: int, used: Option<Usage>)
    requires ValidFile(c) && Enabled(c, s, DecideStep(r, used)) && Creates(s)
    ensures forall i <- Decided(c, s, r, used).reqs :: MakesGuest(Decided(c, s, r, used).reqs[i].write)
  {
    DecidedRequest(c, s, r, used);
  }

  lemma TasksCreate(c: QuotaFile, s: State, step: Step)
    requires ValidFile(c) && Enabled(c, s, step) && Creates(s)
    ensures forall v <- Apply(c, s, step).tasks :: MakesGuest(Apply(c, s, step).tasks[v].write)
  {
    if Starts(step) { StartShape(c, s, step); } else { TasksOnlyEnd(c, s, step); }
  }

  lemma LostCreate(c: QuotaFile, s: State, step: Step)
    requires ValidFile(c) && TaskInv(c, s) && Enabled(c, s, step) && Creates(s)
    ensures CreationsLost(Apply(c, s, step))
  {
    var s' := Apply(c, s, step);
    if step.Settle? || step.Lapse? {
      assert RequestOk(s, step.r);
      SettleCreates(c, s, step.r);
    } else if !step.ShrinkGuest? && !step.Land? && !step.AcceptApplied? {
      LapsesOnlyThere(c, s, step);
    }
  }

  lemma SettleCreates(c: QuotaFile, s: State, r: int)
    requires TaskInv(c, s) && Creates(s) && r in s.reqs && s.reqs[r].task.Some?
    ensures CreationsLost(EndSettle(s, r))
  {
    if !TaskOver(s, r) { OwnTask(c, s, r); }
  }

  lemma {:induction false} RunCreates(c: QuotaFile, states: seq<State>, steps: seq<Step>, n: nat)
    requires ValidFile(c) && IsRun(c, states, steps) && Fresh(states[0]) && OnlyCreations(steps) && n <= |steps|
    ensures Creates(states[n])
  {
    if n > 0 {
      RunCreates(c, states, steps, n - 1);
      NextCreates(c, states, steps, n - 1);
    }
  }

  lemma NextCreates(c: QuotaFile, states: seq<State>, steps: seq<Step>, n: nat)
    requires ValidFile(c) && IsRun(c, states, steps) && Fresh(states[0]) && OnlyCreations(steps) && n < |steps|
    requires Creates(states[n])
    ensures Creates(states[n + 1])
  {
    RunShape(c, states, steps, n);
    assert StepAt(c, states, steps, n);
    StaysCreating(c, states[n], steps[n]);
  }

  lemma CreationsHold(c: QuotaFile, states: seq<State>, steps: seq<Step>, n: nat)
    requires ValidFile(c) && IsRun(c, states, steps) && Fresh(states[0]) && OnlyCreations(steps) && n <= |steps|
    ensures ReadsHold(states, steps, n)
  {
    forall i | 0 <= i < n ensures AdmitsCurrent(states[i], steps[i]) { RunCreates(c, states, steps, i); }
  }

  /** Runs of creates, clones and restores, with anyone destroying and shrinking guests: if what is
      applied is what its delta bounds, usage with all that is pending or granted stays within the
      larger of the initial usage and the base limit, plus the total positive delta of the writes
      whose settle ended before they were applied. */
  lemma CreationsDegrade(c: QuotaFile, states: seq<State>, steps: seq<Step>, n: nat, pool: string, d: Dim)
    requires ValidFile(c) && Narrowing(c) && IsRun(c, states, steps) && Fresh(states[0]) && OnlyCreations(steps)
    requires AllChecked(states, steps, n)
    ensures var s := states[n];
            PoolUsage(s, pool, d) + Pending(s, pool, d) + Granted(c, s.reqs, pool, d) <=
            Ceiling(c, states[0], pool, d) + LostGrowth(s, pool, d)
  {
    RunCreates(c, states, steps, n);
    CreationsHold(c, states, steps, n);
    LostDeltasBound(c, states, steps, n, pool, d);
  }

  /** And those are only writes whose settle timed out: one that ends on an observation saw the new
      guest of its own write in the pool. */
  lemma CreationsSeenAreApplied(c: QuotaFile, states: seq<State>, steps: seq<Step>, n: nat)
    requires ValidFile(c) && IsRun(c, states, steps) && Fresh(states[0]) && OnlyCreations(steps) && n < |steps|
    requires steps[n].Settle?
    ensures !EndsEarly(states[n], steps[n])
  {
    RunShape(c, states, steps, n);
    RunCreates(c, states, steps, n);
    assert StepAt(c, states, steps, n);
    var s, r := states[n], steps[n].r;
    ObservedIsLanded(c, s, r);
    if !TaskOver(s, r) { OwnTask(c, s, r); }
  }
}
