/** Quota safety and bounded degradation over whole runs of the protocol. */
module Safety {
  import opened Wrappers
  import opened MapSums
  import opened Accounting
  import opened Engine
  import opened Deltas
  import opened Quota
  import opened Admission
  import opened Tasks
  import opened Protocol

  /** The base limit of the user who owns a pool, if anyone does. */
  ghost function OwnerLimit(c: QuotaFile, pool: string, d: Dim): Option<int>
    requires ValidFile(c)
  {
    if u :| u in c.users && c.users[u].value.pool == pool then Limit(c.users[u].value, "", d) else None
  }

  /** The larger of the initial usage and the owner's base limit. Without a limit in this dimension
      it is the initial usage. */
  ghost function Ceiling(c: QuotaFile, start: State, pool: string, d: Dim): int
    requires ValidFile(c)
  {
    var initial, limit := PoolUsage(start, pool, d), OwnerLimit(c, pool, d);
    if limit.Some? && limit.value > initial then limit.value else initial
  }

  lemma OwnersLimit(c: QuotaFile, user: string, d: Dim)
    requires ValidFile(c) && user in c.users
    ensures OwnerLimit(c, PoolOf(c, user), d) == Limit(c.users[user].value, "", d)
  {
    var u :| u in c.users && c.users[u].value.pool == PoolOf(c, user)
             && OwnerLimit(c, PoolOf(c, user), d) == Limit(c.users[u].value, "", d);
    LocksArePoolLocks(c, u, user);
  }

  ghost predicate Narrowing(c: QuotaFile)
    requires ValidFile(c)
  {
    forall u <- c.users :: Narrows(c.users[u].value)
  }

  // ---------------------------------------------------------------- what a guest id reserves

  /** What `v` may come to weigh in a pool by what is there and what is pending, under some listings:
      the guest a pending write was admitted on and its increase, or else the guest itself. */
  ghost function ReservedUnder(s: State, contents: Contents, v: int, pool: string, d: Dim): int {
    if v in s.tasks && s.tasks[v].pool == pool && (s.tasks[v].start.Some? ==> v in s.guests)
    then StartFoot(contents, s.tasks[v], d) + Growth(s.tasks[v], d)
    else if v in s.guests && s.guests[v].pool == pool then GuestFoot(contents, s.guests[v], d) else 0
  }

  /** The guest of a pending write weighs at most what it was admitted on. */
  lemma FoundWithin(c: QuotaFile, s: State, contents: Contents, v: int, d: Dim)
    requires TaskInv(c, s) && NonNegativeContents(contents) && v in s.tasks
    ensures StartFoot(contents, s.tasks[v], d) >= 0
    ensures v in s.guests ==>
              && s.guests[v].pool == s.tasks[v].pool
              && GuestFoot(contents, s.guests[v], d) <= StartFoot(contents, s.tasks[v], d)
  {
    var t := s.tasks[v];
    assert TaskOk(c, s, v, t);
    if t.start.Some? {
      assert GuestFoot(contents, t.start.value, d) >= 0;
      if v in s.guests { assert GuestFoot(contents, s.guests[v], d) <= GuestFoot(contents, t.start.value, d); }
    }
  }

  /** It is what `v` weighs and what is still pending on it, neither of them negative. */
  lemma ReservedParts(c: QuotaFile, s: State, v: int, pool: string, d: Dim)
    requires TaskInv(c, s)
    ensures Get(PoolMap(s, pool, d), v) + PendingAt(s, v, pool, d) == ReservedUnder(s, s.contents, v, pool, d)
    ensures PendingAt(s, v, pool, d) >= 0 && Get(PoolMap(s, pool, d), v) >= 0
  {
    GuestWeight(c, s, s.contents, v, d);
    if v in s.tasks {
      FoundWithin(c, s, s.contents, v, d);
      PartsFit(s, v, pool, d);
    }
  }

  lemma GuestWeight(c: QuotaFile, s: State, contents: Contents, v: int, d: Dim)
    requires TaskInv(c, s) && NonNegativeContents(contents)
    ensures v in s.guests ==> GuestFoot(contents, s.guests[v], d) >= 0
  {
    if v in s.guests { assert WellSized(s.guests[v]); }
  }

  lemma PartsFit(s: State, v: int, pool: string, d: Dim)
    requires v in s.tasks && StartFoot(s.contents, s.tasks[v], d) >= 0
    requires v in s.guests ==>
               && s.guests[v].pool == s.tasks[v].pool
               && 0 <= GuestFoot(s.contents, s.guests[v], d) <= StartFoot(s.contents, s.tasks[v], d)
    ensures Get(PoolMap(s, pool, d), v) + PendingAt(s, v, pool, d) == ReservedUnder(s, s.contents, v, pool, d)
    ensures PendingAt(s, v, pool, d) >= 0
  {}

  lemma ReservedPair(c: QuotaFile, s: State, v: int, pool: string, d: Dim)
    requires TaskInv(c, s)
    ensures Get(PoolMap(s, pool, d), v) + Get(PendingMap(s, pool, d), v) == ReservedUnder(s, s.contents, v, pool, d)
  {
    ReservedParts(c, s, v, pool, d);
  }

  /** If no guest id reserves more, but one by some excess, that is all that the pool's usage and
      pending increases can have grown by. */
  lemma ReservedTotal(c: QuotaFile, s: State, s': State, at: int, excess: int, pool: string, d: Dim)
    requires TaskInv(c, s) && TaskInv(c, s')
    requires forall v :: ReservedUnder(s', s'.contents, v, pool, d) <=
                         ReservedUnder(s, s.contents, v, pool, d) + if v == at then excess else 0
    ensures PoolUsage(s', pool, d) + Pending(s', pool, d) <= PoolUsage(s, pool, d) + Pending(s, pool, d) + excess
  {
    var pending := PendingMap(s, pool, d);
    var more := pending[at := Get(pending, at) + excess];
    forall v
      ensures Get(PoolMap(s', pool, d), v) + Get(PendingMap(s', pool, d), v) <=
              Get(PoolMap(s, pool, d), v) + Get(more, v)
    {
      ReservedPair(c, s, v, pool, d);
      ReservedPair(c, s', v, pool, d);
    }
    SumPairs(PoolMap(s, pool, d), more, PoolMap(s', pool, d), PendingMap(s', pool, d));
    SumChange(pending, more, at);
  }

  lemma PendingNonNegative(c: QuotaFile, s: State, pool: string, d: Dim)
    requires TaskInv(c, s)
    ensures Pending(s, pool, d) >= 0
  {
    forall v ensures Get(PendingMap(s, pool, d), v) >= 0 { ReservedParts(c, s, v, pool, d); }
    SumNonNegative(PendingMap(s, pool, d));
  }

  /** A landing that its delta bounds overshoots by no more than what was read was stale by. */
  lemma LandingFits(c: QuotaFile, s: State, vmid: int, g: Guest, d: Dim)
    requires TaskInv(c, s) && CanLand(s, vmid, g) && ChargedFor(s, vmid, g)
    ensures Overshoot(s.contents, s.tasks[vmid], g, d) <= Stale(s.contents, s.tasks[vmid], d)
  {
    assert TaskOk(c, s, vmid, s.tasks[vmid]);
    OvershootIsStale(s.contents, s.tasks[vmid], BaseOf(s, vmid, s.tasks[vmid]), g, d);
  }

  // ---------------------------------------------------------------- which steps reserve more

  lemma SameReserves(s: State, s': State, contents: Contents, v: int, pool: string, d: Dim)
    requires s'.guests == s.guests && s'.tasks == s.tasks
    ensures ReservedUnder(s', contents, v, pool, d) == ReservedUnder(s, contents, v, pool, d)
  {}

  /** A landing turns what is reserved for the write into usage, and adds what it overshoots by. */
  lemma LandingReserves(c: QuotaFile, s: State, s': State, contents: Contents, vmid: int, g: Guest, v: int,
                        pool: string, d: Dim)
    requires TaskInv(c, s) && CanLand(s, vmid, g) && s'.guests == s.guests[vmid := g] && s'.tasks == s.tasks - {vmid}
    ensures ReservedUnder(s', contents, v, pool, d) <=
            ReservedUnder(s, contents, v, pool, d)
            + if v == vmid && s.tasks[v].pool == pool then Overshoot(contents, s.tasks[v], g, d) else 0
  {
    assert TaskOk(c, s, vmid, s.tasks[vmid]);
    if v == vmid { OnceLanded(s, s', contents, v, g, pool, d); }
  }

  lemma OnceLanded(s: State, s': State, contents: Contents, v: int, g: Guest, pool: string, d: Dim)
    requires v in s.tasks && s'.guests == s.guests[v := g] && v !in s'.tasks && g.pool == s.tasks[v].pool
    requires s.tasks[v].start.Some? ==> v in s.guests
    requires v in s.guests ==> s.guests[v].pool == s.tasks[v].pool
    ensures ReservedUnder(s', contents, v, pool, d) <=
            ReservedUnder(s, contents, v, pool, d)
            + if s.tasks[v].pool == pool then Overshoot(contents, s.tasks[v], g, d) else 0
  {}

  lemma TaskEndReserves(c: QuotaFile, s: State, s': State, contents: Contents, vmid: int, v: int, pool: string, d: Dim)
    requires TaskInv(c, s) && NonNegativeContents(contents) && s'.guests == s.guests && s'.tasks == s.tasks - {vmid}
    ensures ReservedUnder(s', contents, v, pool, d) <= ReservedUnder(s, contents, v, pool, d)
  {
    if v == vmid && v in s.tasks {
      FoundWithin(c, s, contents, v, d);
      OnceEnded(s, s', contents, v, pool, d);
    }
  }

  lemma OnceEnded(s: State, s': State, contents: Contents, v: int, pool: string, d: Dim)
    requires s'.guests == s.guests && v in s.tasks && v !in s'.tasks && StartFoot(contents, s.tasks[v], d) >= 0
    requires v in s.guests ==>
               && s.guests[v].pool == s.tasks[v].pool
               && GuestFoot(contents, s.guests[v], d) <= StartFoot(contents, s.tasks[v], d)
    ensures ReservedUnder(s', contents, v, pool, d) <= ReservedUnder(s, contents, v, pool, d)
  {}

  lemma DestroyReserves(c: QuotaFile, s: State, contents: Contents, vmid: int, v: int, pool: string, d: Dim)
    requires TaskInv(c, s) && NonNegativeContents(contents) && vmid in s.guests
    ensures ReservedUnder(s.(guests := s.guests - {vmid}), contents, v, pool, d) <=
            ReservedUnder(s, contents, v, pool, d)
  {
    if v == vmid {
      GuestWeight(c, s, contents, v, d);
      if v in s.tasks { FoundWithin(c, s, contents, v, d); }
      OnceDestroyed(s, contents, v, pool, d);
    }
  }

  lemma OnceDestroyed(s: State, contents: Contents, v: int, pool: string, d: Dim)
    requires v in s.guests && GuestFoot(contents, s.guests[v], d) >= 0
    requires v in s.tasks ==>
               s.tasks[v].pool == s.guests[v].pool && s.tasks[v].start.Some? && StartFoot(contents, s.tasks[v], d) >= 0
    ensures ReservedUnder(s.(guests := s.guests - {v}), contents, v, pool, d) <=
            ReservedUnder(s, contents, v, pool, d)
  {}

  lemma ShrinkReserves(s: State, s': State, contents: Contents, vmid: int, g: Guest, v: int, pool: string, d: Dim)
    requires NonNegativeContents(contents) && vmid in s.guests && Shrunk(g, s.guests[vmid])
    requires s'.guests == s.guests[vmid := g] && s'.tasks == s.tasks
    ensures ReservedUnder(s', contents, v, pool, d) <= ReservedUnder(s, contents, v, pool, d)
  {
    assert GuestFoot(contents, g, d) <= GuestFoot(contents, s.guests[vmid], d);
  }

  /** The same under smaller listings than those it is applied with. */
  lemma FirmLanding(c: QuotaFile, s: State, s': State, contents: Contents, vmid: int, g: Guest, v: int,
                    pool: string, d: Dim)
    requires TaskInv(c, s) && CanLand(s, vmid, g) && s'.guests == s.guests[vmid := g] && s'.tasks == s.tasks - {vmid}
    requires NonNegativeContents(contents) && SmallerListings(contents, s.contents)
    ensures ReservedUnder(s', contents, v, pool, d) <=
            ReservedUnder(s, contents, v, pool, d)
            + if v == vmid && s.tasks[v].pool == pool then FirmOver(s.contents, s.tasks[v], g, d) else 0
  {
    LandingReserves(c, s, s', contents, vmid, g, v, pool, d);
    LandingOver(c, s, vmid, g, d);
  }

  lemma LandingOver(c: QuotaFile, s: State, vmid: int, g: Guest, d: Dim)
    requires TaskInv(c, s) && CanLand(s, vmid, g)
    ensures OverBy(s.contents, s.tasks[vmid], g, d, FirmOver(s.contents, s.tasks[vmid], g, d))
    ensures Overshoot(s.contents, s.tasks[vmid], g, d) <= FirmOver(s.contents, s.tasks[vmid], g, d)
  {
    assert TaskOk(c, s, vmid, s.tasks[vmid]);
    OverBounded(s.contents, s.tasks[vmid], g, d);
  }

  /** The upstream starts or ends to work on a write. */
  predicate Reserving(step: Step) {
    Starts(step) || step.Land? || step.AcceptApplied?
  }

  /** Only those steps let a guest id reserve more, whatever the listings. */
  lemma StepReserves(c: QuotaFile, s: State, step: Step, contents: Contents, v: int, pool: string, d: Dim)
    requires ValidFile(c) && TaskInv(c, s) && Enabled(c, s, step) && !Reserving(step) && NonNegativeContents(contents)
    ensures ReservedUnder(Apply(c, s, step), contents, v, pool, d) <= ReservedUnder(s, contents, v, pool, d)
  {
    var s' := Apply(c, s, step);
    if Steady(step) {
      SteadyStep(c, s, step);
      SameReserves(s, s', contents, v, pool, d);
    } else if step.RefusedUpstream? {
      RefusedStep(c, s, step.r);
      if s'.tasks == s.tasks { SameReserves(s, s', contents, v, pool, d); }
      else { TaskEndReserves(c, s, s', contents, s.reqs[step.r].vmid, v, pool, d); }
    } else if step.FailTask? {
      TaskEndReserves(c, s, s', contents, step.vmid, v, pool, d);
    } else if step.Destroy? {
      DestroyReserves(c, s, contents, step.vmid, v, pool, d);
    } else {
      ShrinkReserves(s, s', contents, step.vmid, step.g, v, pool, d);
    }
  }

  /** No other step starts work. */
  lemma TasksOnlyEnd(c: QuotaFile, s: State, step: Step)
    requires ValidFile(c) && Enabled(c, s, step) && !Starts(step)
    ensures forall v <- Apply(c, s, step).tasks :: v in s.tasks && Apply(c, s, step).tasks[v] == s.tasks[v]
  {
    if step.RefusedUpstream? { RefusedStep(c, s, step.r); }
  }

  /** Smaller listings reserve less. */
  lemma ReserveMono(s: State, contents: Contents, contents': Contents, v: int, pool: string, d: Dim)
    requires SmallerListings(contents', contents)
    ensures ReservedUnder(s, contents', v, pool, d) <= ReservedUnder(s, contents, v, pool, d)
  {
    if v in s.guests {
      var g := s.guests[v];
      FootMono(contents', contents, g.node, g.kind, g.cfg, d);
    }
    if v in s.tasks && s.tasks[v].start.Some? {
      var g := s.tasks[v].start.value;
      FootMono(contents', contents, g.node, g.kind, g.cfg, d);
    }
  }

  lemma ListingsOnlyShrink(c: QuotaFile, s: State, step: Step)
    requires ValidFile(c) && TaskInv(c, s) && Enabled(c, s, step)
    ensures NonNegativeContents(Apply(c, s, step).contents)
    ensures SmallerListings(Apply(c, s, step).contents, s.contents)
  {
    if !step.ShrinkContents? { ListingsStand(c, s, step); }
  }

  lemma ListingsStand(c: QuotaFile, s: State, step: Step)
    requires ValidFile(c) && Enabled(c, s, step) && !step.ShrinkContents?
    ensures Apply(c, s, step).contents == s.contents
  {
    if Starts(step) { StartShape(c, s, step); }
  }

  // ---------------------------------------------------------------- what lost writes count for

  lemma GivenNonNegative(c: QuotaFile, s: State, q: int, d: Dim)
    requires TaskInv(c, s) && q in s.lapsed
    ensures Given(s.lapsed[q], d) >= 0
  {
    var l := s.lapsed[q];
    assert LostOk(s, q, l);
    if l.task.start.Some? && l.low.Some? {
      assert GuestFoot(l.contents, l.low.value, d) <= GuestFoot(l.contents, l.task.start.value, d);
    }
  }

  /** Taking more off a guest only raises what a lost write on it counts for. */
  lemma GivenLower(s: State, r: int, l: Lost, g: Guest, d: Dim)
    requires LostOk(s, r, l) && l.task.start.Some? && l.low.Some? && Shrunk(g, l.low.value)
    ensures Given(l.(low := Some(g)), d) >= Given(l, d)
  {
    assert GuestFoot(l.contents, g, d) <= GuestFoot(l.contents, l.low.value, d);
  }

  /** A lost write is still known, how it was applied too, and it counts for no less. */
  ghost predicate NoLess(before: map<int, Lost>, after: map<int, Lost>, q: int, d: Dim)
    requires q in before
  {
    && q in after && after[q].task == before[q].task && Given(after[q], d) >= Given(before[q], d)
    && (before[q].applied.None? || after[q].applied == before[q].applied)
  }

  lemma LostAfterNote(c: QuotaFile, s: State, vmid: int, g: Guest, q: int, d: Dim)
    requires TaskInv(c, s) && vmid in s.guests && (vmid in s.tasks ==> Shrunk(g, s.guests[vmid])) && q in s.lapsed
    ensures NoLess(s.lapsed, NoteShrink(s, vmid, g), q, d)
  {
    if vmid in s.tasks && s.tasks[vmid].req == q {
      LostLower(c, s, vmid, g);
      assert LostOk(s, q, s.lapsed[q]);
      GivenLower(s, q, s.lapsed[q], g, d);
    }
  }

  lemma LostAfterLanding(c: QuotaFile, s: State, vmid: int, g: Guest, q: int, d: Dim)
    requires TaskInv(c, s) && vmid in s.tasks && q in s.lapsed
    ensures NoLess(s.lapsed, LapsedWith(s, vmid, g), q, d)
  {
    assert TaskOk(c, s, vmid, s.tasks[vmid]);
    assert LostOk(s, q, s.lapsed[q]);
  }

  lemma LostAreFinished(c: QuotaFile, s: State)
    requires TaskInv(c, s)
    ensures forall r <- s.lapsed :: r in s.reqs && s.reqs[r].phase.Finished?
  {
    forall r | r in s.lapsed ensures r in s.reqs && s.reqs[r].phase.Finished? { assert LostOk(s, r, s.lapsed[r]); }
  }

  lemma LostAfterSettle(c: QuotaFile, s: State, r: int, q: int, d: Dim)
    requires TaskInv(c, s) && r in s.reqs && s.reqs[r].phase.Forwarded? && s.reqs[r].task.Some? && q in s.lapsed
    ensures NoLess(s.lapsed, EndSettle(s, r).lapsed, q, d)
  {
    LostAreFinished(c, s);
  }

  /** A lost write is never forgotten, and never counts for less. */
  lemma LostStays(c: QuotaFile, s: State, step: Step, q: int, d: Dim)
    requires ValidFile(c) && TaskInv(c, s) && Enabled(c, s, step) && q in s.lapsed
    ensures NoLess(s.lapsed, Apply(c, s, step).lapsed, q, d)
  {
    if step.ShrinkGuest? {
      LostAfterNote(c, s, step.vmid, step.g, q, d);
    } else if step.Settle? || step.Lapse? {
      assert RequestOk(s, step.r);
      LostAfterSettle(c, s, step.r, q, d);
    } else if step.Land? {
      LostAfterLanding(c, s, step.vmid, step.g, q, d);
    } else if step.AcceptApplied? {
      LostAfterLanding(c, s, s.reqs[step.r].vmid, step.g, q, d);
    } else {
      LapsesOnlyThere(c, s, step);
    }
  }

  lemma LapsesOnlyThere(c: QuotaFile, s: State, step: Step)
    requires ValidFile(c) && Enabled(c, s, step)
    requires !step.Settle? && !step.Lapse? && !step.ShrinkGuest? && !step.Land? && !step.AcceptApplied?
    ensures Apply(c, s, step).lapsed == s.lapsed
  {
    if Starts(step) { StartShape(c, s, step); }
  }

  /** Lost writes never count for less. */
  lemma LapsedOnlyGrows(c: QuotaFile, s: State, step: Step, pool: string, d: Dim)
    requires ValidFile(c) && TaskInv(c, s) && ViewsOk(s.reqs) && Enabled(c, s, step)
    ensures Lapsed(Apply(c, s, step), pool, d) >= Lapsed(s, pool, d)
  {
    var s' := Apply(c, s, step);
    TasksKept(c, s, step);
    forall q | q in s.lapsed ensures NoLess(s.lapsed, s'.lapsed, q, d) { LostStays(c, s, step, q, d); }
    LapsedGrows(c, s, s', pool, d);
  }

  lemma LapsedGrows(c: QuotaFile, s: State, s': State, pool: string, d: Dim)
    requires TaskInv(c, s') && forall q <- s.lapsed :: NoLess(s.lapsed, s'.lapsed, q, d)
    ensures Lapsed(s', pool, d) >= Lapsed(s, pool, d)
  {
    var before, after := LapsedMap(s, pool, d), LapsedMap(s', pool, d);
    forall q ensures Get(before, q) <= Get(after, q) {
      if q in s.lapsed { assert NoLess(s.lapsed, s'.lapsed, q, d); }
      else if q in s'.lapsed { LostCounts(c, s', q, d); }
    }
    SumMono(before, after);
  }

  lemma LostCounts(c: QuotaFile, s: State, q: int, d: Dim)
    requires TaskInv(c, s) && q in s.lapsed
    ensures Excess(s.lapsed[q], d) >= 0
  {
    GivenNonNegative(c, s, q, d);
  }

  lemma LapsedUnmoved(s: State, s': State, pool: string, d: Dim)
    requires s'.lapsed == s.lapsed
    ensures Lapsed(s', pool, d) == Lapsed(s, pool, d)
  {
    assert LapsedMap(s', pool, d) == LapsedMap(s, pool, d);
  }

  // ---------------------------------------------------------------- usage, pending increases and allowance

  /** What lost writes count for, and what the others overshot by. */
  ghost function Allowance(s: State, pool: string, d: Dim): int {
    Lapsed(s, pool, d) + Overshot(s.applied, pool, d)
  }

  /** Apart from the steps that start work, usage and pending increases grow by no more than the
      allowance does. */
  lemma StepTotal(c: QuotaFile, s: State, step: Step, pool: string, d: Dim)
    requires ValidFile(c) && TaskInv(c, s) && ViewsOk(s.reqs) && Enabled(c, s, step) && !Starts(step)
    ensures var s' := Apply(c, s, step);
            PoolUsage(s', pool, d) + Pending(s', pool, d) + Allowance(s, pool, d) <=
            PoolUsage(s, pool, d) + Pending(s, pool, d) + Allowance(s', pool, d)
  {
    TasksKept(c, s, step);
    if step.Land? {
      LandingTotal(c, s, Apply(c, s, step), step.vmid, step.g, pool, d);
    } else if step.AcceptApplied? {
      LandingTotal(c, s, Apply(c, s, step), s.reqs[step.r].vmid, step.g, pool, d);
    } else {
      QuietTotal(c, s, step, pool, d);
      LapsedOnlyGrows(c, s, step, pool, d);
    }
  }

  lemma QuietTotal(c: QuotaFile, s: State, step: Step, pool: string, d: Dim)
    requires ValidFile(c) && TaskInv(c, s) && Enabled(c, s, step) && TaskInv(c, Apply(c, s, step)) && !Reserving(step)
    ensures var s' := Apply(c, s, step);
            && PoolUsage(s', pool, d) + Pending(s', pool, d) <= PoolUsage(s, pool, d) + Pending(s, pool, d)
            && s'.applied == s.applied
  {
    var s' := Apply(c, s, step);
    ListingsOnlyShrink(c, s, step);
    forall v ensures ReservedUnder(s', s'.contents, v, pool, d) <= ReservedUnder(s, s.contents, v, pool, d) {
      StepReserves(c, s, step, s.contents, v, pool, d);
      ReserveMono(s', s.contents, s'.contents, v, pool, d);
    }
    ReservedTotal(c, s, s', 0, 0, pool, d);
    NothingApplied(c, s, step);
  }

  lemma NothingApplied(c: QuotaFile, s: State, step: Step)
    requires ValidFile(c) && Enabled(c, s, step) && !step.Land? && !step.AcceptApplied?
    ensures Apply(c, s, step).applied == s.applied
  {
    if Starts(step) { StartShape(c, s, step); }
  }

  lemma LandingTotal(c: QuotaFile, s: State, s': State, vmid: int, g: Guest, pool: string, d: Dim)
    requires TaskInv(c, s) && TaskInv(c, s') && CanLand(s, vmid, g) && s'.contents == s.contents
    requires s'.guests == s.guests[vmid := g] && s'.tasks == s.tasks - {vmid}
    requires s'.lapsed == LapsedWith(s, vmid, g) && s'.applied == AppliedWith(s, vmid, g)
    ensures PoolUsage(s', pool, d) + Pending(s', pool, d) + Allowance(s, pool, d) <=
            PoolUsage(s, pool, d) + Pending(s, pool, d) + Allowance(s', pool, d)
  {
    var over := if s.tasks[vmid].pool == pool then Overshoot(s.contents, s.tasks[vmid], g, d) else 0;
    forall v { LandingReserves(c, s, s', s.contents, vmid, g, v, pool, d); }
    ReservedTotal(c, s, s', vmid, over, pool, d);
    LandingAllowance(c, s, s', vmid, g, pool, d);
  }

  /** What is applied is noted with the lost writes, or with the others. */
  lemma LandingAllowance(c: QuotaFile, s: State, s': State, vmid: int, g: Guest, pool: string, d: Dim)
    requires TaskInv(c, s) && CanLand(s, vmid, g)
    requires s'.lapsed == LapsedWith(s, vmid, g) && s'.applied == AppliedWith(s, vmid, g)
    ensures Allowance(s', pool, d) >=
            Allowance(s, pool, d)
            + if s.tasks[vmid].pool == pool then Overshoot(s.contents, s.tasks[vmid], g, d) else 0
  {
    assert TaskOk(c, s, vmid, s.tasks[vmid]);
    var q := s.tasks[vmid].req;
    if q in s.lapsed {
      LandingOver(c, s, vmid, g, d);
      LostApplied(s, s', vmid, g, pool, d);
    } else {
      LapsedUnmoved(s, s', pool, d);
      OneMoreApplied(s.applied, AsApplied(s, vmid, g), pool, d);
    }
  }

  lemma LostApplied(s: State, s': State, vmid: int, g: Guest, pool: string, d: Dim)
    requires vmid in s.tasks && s'.lapsed == LapsedWith(s, vmid, g) && s.tasks[vmid].req in s.lapsed
    requires var l := s.lapsed[s.tasks[vmid].req]; l.task == s.tasks[vmid] && l.applied.None?
    ensures Lapsed(s', pool, d) ==
            Lapsed(s, pool, d)
            + if s.tasks[vmid].pool == pool then FirmOver(s.contents, s.tasks[vmid], g, d) else 0
  {
    SumChange(LapsedMap(s, pool, d), LapsedMap(s', pool, d), s.tasks[vmid].req);
  }

  lemma OneMoreApplied(applied: seq<Applied>, a: Applied, pool: string, d: Dim)
    ensures Overshot(applied + [a], pool, d) ==
            Overshot(applied, pool, d) + if a.task.pool == pool then Overshoot(a.contents, a.task, a.g, d) else 0
  {
    assert (applied + [a])[..|applied|] == applied;
  }

  // ---------------------------------------------------------------- decisions

  /** While a request holds its user's lock undecided, every write still pending on the user's pool
      is a lost one. */
  lemma HolderAlone(c: QuotaFile, s: State, r: int)
    requires ValidFile(c) && LockInv(c, s) && TaskInv(c, s)
    requires r in s.reqs && s.reqs[r].phase.Holding?
    ensures forall v <- s.tasks :: s.tasks[v].pool == PoolOf(c, s.reqs[r].user) ==>
              s.tasks[v].req in s.lapsed && s.lapsed[s.tasks[v].req].task == s.tasks[v]
  {
    forall v | v in s.tasks && s.tasks[v].pool == PoolOf(c, s.reqs[r].user)
      ensures s.tasks[v].req in s.lapsed && s.lapsed[s.tasks[v].req].task == s.tasks[v]
    {
      assert TaskOk(c, s, v, s.tasks[v]);
      LocksArePoolLocks(c, s.tasks[v].user, s.reqs[r].user);
    }
  }

  /** What a lost write may still add is at most what it counts for. */
  lemma PendingOfLost(c: QuotaFile, s: State, v: int, pool: string, d: Dim)
    requires TaskInv(c, s) && v in s.tasks && s.tasks[v].pool == pool
    requires s.tasks[v].req in s.lapsed && s.lapsed[s.tasks[v].req].task == s.tasks[v]
    ensures PendingAt(s, v, pool, d) <= Excess(s.lapsed[s.tasks[v].req], d)
  {
    GivenNonNegative(c, s, s.tasks[v].req, d);
    var t, l := s.tasks[v], s.lapsed[s.tasks[v].req];
    assert TaskOk(c, s, v, t);
    assert LostOk(s, t.req, l);
    if t.start.Some? && v in s.guests {
      TakenOffLater(s.contents, l.contents, s.guests[v], t.start.value, d);
    }
  }

  lemma PendingAmongMine(s: State, pool: string, d: Dim, mine: map<int, int>)
    requires forall v <- s.tasks :: s.tasks[v].pool == pool ==> v in mine && PendingAt(s, v, pool, d) <= mine[v]
    requires forall v <- mine :: v in s.tasks && s.tasks[v].pool == pool
    ensures Pending(s, pool, d) <= Sum(mine)
  {
    var all := PendingMap(s, pool, d);
    forall v ensures Get(all, v) <= Get(mine, v) {
      if v in mine { assert v in s.tasks && s.tasks[v].pool == pool; }
    }
    SumMono(all, mine);
  }

  /** Where every pending write of a pool is lost, they add at most what the lost ones count for. */
  lemma PendingWithinLapsed(c: QuotaFile, s: State, pool: string, d: Dim)
    requires TaskInv(c, s)
    requires forall v <- s.tasks :: s.tasks[v].pool == pool ==>
               s.tasks[v].req in s.lapsed && s.lapsed[s.tasks[v].req].task == s.tasks[v]
    ensures Pending(s, pool, d) <= Lapsed(s, pool, d)
  {
    var req := map v | v in s.tasks && s.tasks[v].pool == pool :: s.tasks[v].req;
    var mine := map v | v in req :: Excess(s.lapsed[req[v]], d);
    forall v | v in mine ensures PendingAt(s, v, pool, d) <= mine[v] { PendingOfLost(c, s, v, pool, d); }
    PendingAmongMine(s, pool, d, mine);
    LostApart(c, s, pool, d, req, mine);
  }

  lemma LostInLapsed(c: QuotaFile, s: State, pool: string, d: Dim, lost: map<int, int>, req: map<int, int>)
    requires TaskInv(c, s) && req.Keys == lost.Keys
    requires forall v <- lost ::
               req[v] in s.lapsed && s.lapsed[req[v]].task.pool == pool && lost[v] == Excess(s.lapsed[req[v]], d)
    requires forall v, w | v in lost && w in lost :: req[v] == req[w] ==> v == w
    ensures Sum(lost) <= Lapsed(s, pool, d)
  {
    var all := LapsedMap(s, pool, d);
    forall i | i in all ensures all[i] >= 0 { LostCounts(c, s, i, d); }
    forall v | v in lost ensures req[v] in all && lost[v] == all[req[v]] {
      assert lost[v] == Excess(s.lapsed[req[v]], d);
    }
    forall v, w | v in lost && w in lost && req[v] == req[w] ensures v == w {}
    SumInjection(lost, all, req);
  }

  /** Different pending writes are different lost ones. */
  lemma LostApart(c: QuotaFile, s: State, pool: string, d: Dim, req: map<int, int>, mine: map<int, int>)
    requires TaskInv(c, s) && req.Keys == mine.Keys
    requires forall v <- req :: v in s.tasks && s.tasks[v].pool == pool && req[v] == s.tasks[v].req
    requires forall v <- mine ::
               req[v] in s.lapsed && s.lapsed[req[v]].task == s.tasks[v] && mine[v] == Excess(s.lapsed[req[v]], d)
    ensures Sum(mine) <= Lapsed(s, pool, d)
  {
    forall v, w | v in mine && w in mine && req[v] == req[w] ensures v == w {
      assert TaskOk(c, s, v, s.tasks[v]) && TaskOk(c, s, w, s.tasks[w]);
    }
    LostInLapsed(c, s, pool, d, mine, req);
  }

  /** A decision taken on the true usage, or more, works with usage read as the model asks. */
  lemma TrueUsageSuffices(c: QuotaFile, s: State, r: int, used: Option<Usage>)
    requires ValidFile(c) && LockInv(c, s) && TaskInv(c, s) && r in s.reqs && s.reqs[r].phase.Holding?
    requires used.Some? ==> forall d :: used.value.At(d) >= PoolUsage(s, PoolOf(c, s.reqs[r].user), d)
    ensures UsageRead(s, PoolOf(c, s.reqs[r].user), used)
  {
    HolderAlone(c, s, r);
    forall d { PendingWithinLapsed(c, s, PoolOf(c, s.reqs[r].user), d); }
  }

  /** What an allowed decision established: every increase of the delta leaves the pool's true usage,
      with all that is pending, within the owner's base limit and what the lost writes count for. */
  lemma DecisionFits(c: QuotaFile, s: State, r: int, used: Option<Usage>, d: Dim)
    requires ValidFile(c) && Narrowing(c) && Enabled(c, s, DecideStep(r, used))
    requires var q := s.reqs[r]; Decide(true, q.write, c.users[q.user].value, AnswersOf(q, used)).allowed
    ensures var q, pool := s.reqs[r], PoolOf(c, s.reqs[r].user);
            && DeltaRead(q).Some?
            && FitsAt(OwnerLimit(c, pool, d), PoolUsage(s, pool, d) + Pending(s, pool, d) - Lapsed(s, pool, d),
                      DeltaRead(q).value.At(d))
  {
    var q, record := s.reqs[r], c.users[s.reqs[r].user].value;
    DecideClosed(q.write, record, AnswersOf(q, used));
    UsageIsNoDelta(q, used);
    var delta := DeltaRead(q).value;
    OwnersLimit(c, q.user, d);
    if delta.At(d) > 0 {
      assert FitsAt(Limit(record, q.write.node, d), used.value.At(d), delta.At(d));
      assert used.value.At(d) + Lapsed(s, record.pool, d) - Pending(s, record.pool, d) >= PoolUsage(s, record.pool, d);
      assert NoHigher(Limit(record, q.write.node, d), Limit(record, "", d));
    }
  }

  /** A started write reserves its own growth and nothing else. */
  lemma StartReserves(s: State, s': State, v: int, t: Task, pool: string, d: Dim)
    requires v !in s.tasks && s'.guests == s.guests && s'.contents == s.contents && s'.tasks == s.tasks[v := t]
    requires if t.start.Some? then v in s.guests && s.guests[v] == t.start.value else v !in s.guests
    ensures PoolUsage(s', pool, d) == PoolUsage(s, pool, d)
    ensures Pending(s', pool, d) == Pending(s, pool, d) + if t.pool == pool then Growth(t, d) else 0
  {
    assert PoolMap(s', pool, d) == PoolMap(s, pool, d);
    SumChange(PendingMap(s, pool, d), PendingMap(s', pool, d), v);
  }

  lemma SameTotals(s: State, s': State, pool: string, d: Dim)
    requires s'.guests == s.guests && s'.contents == s.contents && s'.tasks == s.tasks
    ensures PoolUsage(s', pool, d) == PoolUsage(s, pool, d) && Pending(s', pool, d) == Pending(s, pool, d)
  {
    assert PoolMap(s', pool, d) == PoolMap(s, pool, d);
    forall v { SamePendingAt(s, s', v, pool, d); }
    SumEqual(PendingMap(s', pool, d), PendingMap(s, pool, d));
  }

  lemma SamePendingAt(s: State, s': State, v: int, pool: string, d: Dim)
    requires s'.guests == s.guests && s'.contents == s.contents && s'.tasks == s.tasks
    ensures PendingAt(s', v, pool, d) == PendingAt(s, v, pool, d)
  {}

  // ---------------------------------------------------------------- the invariant

  /** Usage plus everything still pending or granted stays within the ceiling, but for what lost
      writes count for and what applied ones overshot by. */
  ghost predicate BudgetAt(c: QuotaFile, start: State, s: State, pool: string, d: Dim)
    requires ValidFile(c)
  {
    PoolUsage(s, pool, d) + Pending(s, pool, d) + Granted(c, s.reqs, pool, d) <=
    Ceiling(c, start, pool, d) + Allowance(s, pool, d)
  }

  lemma {:induction false} OvershotNonNegative(applied: seq<Applied>, pool: string, d: Dim)
    ensures Overshot(applied, pool, d) >= 0
  {
    if applied != [] { OvershotNonNegative(applied[..|applied| - 1], pool, d); }
  }

  lemma GrantedNonNegative(c: QuotaFile, reqs: map<int, Request>, pool: string, d: Dim)
    requires ValidFile(c)
    ensures Granted(c, reqs, pool, d) >= 0
  {
    forall r ensures Get(GrantedMap(c, reqs, pool, d), r) >= 0 {}
    SumNonNegative(GrantedMap(c, reqs, pool, d));
  }

  /** When a request changes, what is granted changes by its part. */
  lemma GrantedChange(c: QuotaFile, reqs: map<int, Request>, r: int, q: Request, pool: string, d: Dim)
    requires ValidFile(c)
    ensures Granted(c, reqs[r := q], pool, d) ==
            Granted(c, reqs, pool, d) + GrantAt(c, q, pool, d)
            - if r in reqs then GrantAt(c, reqs[r], pool, d) else 0
  {
    SumChange(GrantedMap(c, reqs, pool, d), GrantedMap(c, reqs[r := q], pool, d), r);
  }

  /** While a request holds its user's lock undecided, nothing is granted to its pool. */
  lemma NothingGranted(c: QuotaFile, s: State, r: int, d: Dim)
    requires ValidFile(c) && LockInv(c, s) && r in s.reqs && s.reqs[r].phase.Holding?
    ensures Granted(c, s.reqs, PoolOf(c, s.reqs[r].user), d) == 0
  {
    var pool := PoolOf(c, s.reqs[r].user);
    forall i ensures Get(GrantedMap(c, s.reqs, pool, d), i) == 0 {
      if i in s.reqs && Unstarted(s.reqs[i]) && PoolOf(c, s.reqs[i].user) == pool {
        LocksArePoolLocks(c, s.reqs[i].user, s.reqs[r].user);
      }
    }
    SumZero(GrantedMap(c, s.reqs, pool, d));
  }

  /** Apart from decisions, no step leaves its request newly granted. */
  lemma NoNewGrant(c: QuotaFile, s: State, step: Step)
    requires ValidFile(c) && Enabled(c, s, step) && !UpstreamStep(step) && !step.DecideStep?
    ensures var reqs := Apply(c, s, step).reqs;
            step.r in reqs && reqs == s.reqs[step.r := reqs[step.r]] && !Unstarted(reqs[step.r])
  {
    if !step.TakeUp? && !step.Arrive? && !step.ReadStep? { PhaseOnly(c, s, step); }
  }

  lemma GrantedFalls(c: QuotaFile, s: State, step: Step, pool: string, d: Dim)
    requires ValidFile(c) && Enabled(c, s, step) && !step.DecideStep?
    ensures Granted(c, Apply(c, s, step).reqs, pool, d) <= Granted(c, s.reqs, pool, d)
  {
    if UpstreamStep(step) {
      RequestsStand(c, s, step);
    } else {
      NoNewGrant(c, s, step);
      GrantedChange(c, s.reqs, step.r, Apply(c, s, step).reqs[step.r], pool, d);
    }
  }

  /** A verdict that allows the write grants its increases, to what is at work at once or to what
      waits to be taken up. */
  lemma BudgetDecided(c: QuotaFile, start: State, s: State, r: int, used: Option<Usage>, pool: string, d: Dim)
    requires ValidFile(c) && Narrowing(c) && LockInv(c, s) && TaskInv(c, s) && BudgetAt(c, start, s, pool, d)
    requires Enabled(c, s, DecideStep(r, used))
    ensures BudgetAt(c, start, Decided(c, s, r, used), pool, d)
  {
    assert RequestOk(s, r);
    DecidedShape(c, s, r, used);
    var q := s.reqs[r];
    if Decide(true, q.write, c.users[q.user].value, AnswersOf(q, used)).allowed {
      VerdictFits(c, s, r, used, pool, d);
      if Workable(s, q, PoolOf(c, q.user)) { BudgetStarted(c, start, s, r, pool, d); }
      else { BudgetGranted(c, start, s, r, pool, d); }
    } else {
      BudgetDenied(c, start, s, r, pool, d);
    }
  }

  lemma VerdictFits(c: QuotaFile, s: State, r: int, used: Option<Usage>, pool: string, d: Dim)
    requires ValidFile(c) && Narrowing(c) && LockInv(c, s) && Enabled(c, s, DecideStep(r, used))
    requires var q := s.reqs[r]; Decide(true, q.write, c.users[q.user].value, AnswersOf(q, used)).allowed
    ensures Fitting(c, s, r, pool, d)
  {
    DecisionFits(c, s, r, used, d);
    if PoolOf(c, s.reqs[r].user) == pool { NothingGranted(c, s, r, d); }
  }

  lemma BudgetDenied(c: QuotaFile, start: State, s: State, r: int, pool: string, d: Dim)
    requires ValidFile(c) && r in s.reqs && s.reqs[r].phase.Holding? && BudgetAt(c, start, s, pool, d)
    ensures BudgetAt(c, start, Release(s, r), pool, d)
  {
    GrantedChange(c, s.reqs, r, s.reqs[r].(phase := Finished), pool, d);
    SameBudget(c, start, s, Release(s, r), pool, d);
  }

  /** What an allowed verdict leaves: the delta fits, and nothing else is granted to the pool. */
  ghost predicate Fitting(c: QuotaFile, s: State, r: int, pool: string, d: Dim)
    requires ValidFile(c) && r in s.reqs && s.reqs[r].user in c.users
  {
    DeltaRead(s.reqs[r]).Some? &&
    (PoolOf(c, s.reqs[r].user) == pool ==>
      && Granted(c, s.reqs, pool, d) == 0
      && FitsAt(OwnerLimit(c, pool, d), PoolUsage(s, pool, d) + Pending(s, pool, d) - Lapsed(s, pool, d),
                DeltaRead(s.reqs[r]).value.At(d)))
  }

  lemma BudgetStarted(c: QuotaFile, start: State, s: State, r: int, pool: string, d: Dim)
    requires ValidFile(c) && r in s.reqs && s.reqs[r].user in c.users && s.reqs[r].view.Some?
    requires BudgetAt(c, start, s, pool, d) && Fitting(c, s, r, pool, d)
    requires s.reqs[r].vmid !in s.tasks && Workable(s, s.reqs[r], PoolOf(c, s.reqs[r].user))
    ensures BudgetAt(c, start, Started(c, s, r), pool, d)
  {
    var s' := Started(c, s, r);
    GrantedChange(c, s.reqs, r, s'.reqs[r], pool, d);
    StartedBudget(c, start, s, s', s.reqs[r].vmid, TaskOf(c, s, r), pool, d);
  }

  lemma BudgetGranted(c: QuotaFile, start: State, s: State, r: int, pool: string, d: Dim)
    requires ValidFile(c) && r in s.reqs && s.reqs[r].user in c.users && s.reqs[r].phase.Holding?
    requires BudgetAt(c, start, s, pool, d) && Fitting(c, s, r, pool, d) && s.reqs[r].task.None?
    ensures BudgetAt(c, start, s.(reqs := WithPhase(s, r, Cleared)), pool, d)
  {
    var s' := s.(reqs := WithPhase(s, r, Cleared));
    GrantedChange(c, s.reqs, r, s'.reqs[r], pool, d);
    GrantedBudget(c, start, s, s', DeltaRead(s.reqs[r]).value.At(d), PoolOf(c, s.reqs[r].user), pool, d);
  }

  lemma SameBudget(c: QuotaFile, start: State, s: State, s': State, pool: string, d: Dim)
    requires ValidFile(c) && BudgetAt(c, start, s, pool, d) && s'.lapsed == s.lapsed && s'.applied == s.applied
    requires s'.guests == s.guests && s'.contents == s.contents && s'.tasks == s.tasks
    requires Granted(c, s'.reqs, pool, d) <= Granted(c, s.reqs, pool, d)
    ensures BudgetAt(c, start, s', pool, d)
  {
    SameTotals(s, s', pool, d);
    LapsedUnmoved(s, s', pool, d);
  }

  lemma StartedBudget(c: QuotaFile, start: State, s: State, s': State, v: int, t: Task, pool: string, d: Dim)
    requires ValidFile(c) && BudgetAt(c, start, s, pool, d) && s'.lapsed == s.lapsed && s'.applied == s.applied
    requires v !in s.tasks && s'.guests == s.guests && s'.contents == s.contents && s'.tasks == s.tasks[v := t]
    requires if t.start.Some? then v in s.guests && s.guests[v] == t.start.value else v !in s.guests
    requires Granted(c, s'.reqs, pool, d) <= Granted(c, s.reqs, pool, d)
    requires t.pool == pool ==>
               && Granted(c, s.reqs, pool, d) == 0
               && FitsAt(OwnerLimit(c, pool, d), PoolUsage(s, pool, d) + Pending(s, pool, d) - Lapsed(s, pool, d),
                         t.delta.At(d))
    ensures BudgetAt(c, start, s', pool, d)
  {
    StartReserves(s, s', v, t, pool, d);
    LapsedUnmoved(s, s', pool, d);
    OvershotNonNegative(s.applied, pool, d);
  }

  lemma GrantedBudget(c: QuotaFile, start: State, s: State, s': State, n: int, owner: string, pool: string, d: Dim)
    requires ValidFile(c) && BudgetAt(c, start, s, pool, d) && s'.lapsed == s.lapsed && s'.applied == s.applied
    requires s'.guests == s.guests && s'.contents == s.contents && s'.tasks == s.tasks
    requires Granted(c, s'.reqs, pool, d) == Granted(c, s.reqs, pool, d) + if owner == pool then Positive(n) else 0
    requires owner == pool ==>
               && Granted(c, s.reqs, pool, d) == 0
               && FitsAt(OwnerLimit(c, pool, d), PoolUsage(s, pool, d) + Pending(s, pool, d) - Lapsed(s, pool, d), n)
    ensures BudgetAt(c, start, s', pool, d)
  {
    SameTotals(s, s', pool, d);
    LapsedUnmoved(s, s', pool, d);
    OvershotNonNegative(s.applied, pool, d);
  }

  /** A write taken up late reserves what was granted to it. */
  lemma BudgetTakenUp(c: QuotaFile, start: State, s: State, r: int, pool: string, d: Dim)
    requires ValidFile(c) && BudgetAt(c, start, s, pool, d) && Enabled(c, s, TakeUp(r))
    ensures BudgetAt(c, start, Started(c, s, r), pool, d)
  {
    var s' := Started(c, s, r);
    GrantedChange(c, s.reqs, r, s'.reqs[r], pool, d);
    StartReserves(s, s', s.reqs[r].vmid, TaskOf(c, s, r), pool, d);
    LapsedUnmoved(s, s', pool, d);
  }

  /** Every step of the protocol keeps usage, pending and granted increases within the budget. */
  lemma BudgetKept(c: QuotaFile, start: State, s: State, step: Step, pool: string, d: Dim)
    requires ValidFile(c) && Narrowing(c) && LockInv(c, s) && TaskInv(c, s) && ViewsOk(s.reqs)
    requires BudgetAt(c, start, s, pool, d) && Enabled(c, s, step)
    ensures BudgetAt(c, start, Apply(c, s, step), pool, d)
  {
    if step.DecideStep? {
      BudgetDecided(c, start, s, step.r, step.used, pool, d);
    } else if step.TakeUp? {
      BudgetTakenUp(c, start, s, step.r, pool, d);
    } else {
      StepTotal(c, s, step, pool, d);
      GrantedFalls(c, s, step, pool, d);
    }
  }

  // ---------------------------------------------------------------- runs

  lemma {:induction false} RunBudget(c: QuotaFile, states: seq<State>, steps: seq<Step>, n: nat, pool: string, d: Dim)
    requires ValidFile(c) && Narrowing(c) && IsRun(c, states, steps) && Fresh(states[0]) && n <= |steps|
    ensures BudgetAt(c, states[0], states[n], pool, d)
  {
    if n == 0 {
      FreshBudget(c, states[0], pool, d);
    } else {
      RunBudget(c, states, steps, n - 1, pool, d);
      NextBudget(c, states, steps, n - 1, pool, d);
    }
  }

  lemma FreshBudget(c: QuotaFile, s: State, pool: string, d: Dim)
    requires ValidFile(c) && s.reqs == map[] && s.tasks == map[] && s.lapsed == map[] && s.applied == []
    ensures BudgetAt(c, s, s, pool, d)
  {
    SumZero(GrantedMap(c, s.reqs, pool, d));
    SumZero(PendingMap(s, pool, d));
    SumZero(LapsedMap(s, pool, d));
  }

  lemma NextBudget(c: QuotaFile, states: seq<State>, steps: seq<Step>, n: nat, pool: string, d: Dim)
    requires ValidFile(c) && Narrowing(c) && IsRun(c, states, steps) && Fresh(states[0]) && n < |steps|
    requires BudgetAt(c, states[0], states[n], pool, d)
    ensures BudgetAt(c, states[0], states[n + 1], pool, d)
  {
    RunShape(c, states, steps, n);
    assert StepAt(c, states, steps, n);
    BudgetKept(c, states[0], states[n], steps[n], pool, d);
  }

  /** Bounded degradation: in every state of every run, whatever the upstream makes of the writes,
      whenever their settles end, and however old what they were decided on, usage plus all that is
      pending or granted stays within the larger of the initial usage and the base limit, plus what
      the lost writes count for and what the others overshot by. A lost write counts for its increase,
      for what others took off its guest before it was applied, and for the most it may overshoot by
      as listings shrink. */
  lemma BoundedDegradation(c: QuotaFile, states: seq<State>, steps: seq<Step>, n: nat, pool: string, d: Dim)
    requires ValidFile(c) && Narrowing(c) && IsRun(c, states, steps) && Fresh(states[0]) && n <= |steps|
    ensures var s := states[n];
            && PoolUsage(s, pool, d) <= PoolUsage(s, pool, d) + Pending(s, pool, d) + Granted(c, s.reqs, pool, d)
            && PoolUsage(s, pool, d) + Pending(s, pool, d) + Granted(c, s.reqs, pool, d) <=
               Ceiling(c, states[0], pool, d) + Allowance(s, pool, d)
  {
    RunShape(c, states, steps, n);
    PendingNonNegative(c, states[n], pool, d);
    GrantedNonNegative(c, states[n].reqs, pool, d);
    RunBudget(c, states, steps, n, pool, d);
  }

  /** No settle among the first `n` steps ends before its own write is applied. */
  predicate NothingLost(states: seq<State>, steps: seq<Step>, n: nat) {
    n <= |steps| && n <= |states| && forall i :: 0 <= i < n ==> !EndsEarly(states[i], steps[i])
  }

  lemma LossStep(c: QuotaFile, s: State, step: Step)
    requires ValidFile(c) && Enabled(c, s, step) && !EndsEarly(s, step) && s.lapsed == map[]
    ensures Apply(c, s, step).lapsed == map[]
  {
    if !step.Settle? && !step.Lapse? && !step.ShrinkGuest? && !step.Land? && !step.AcceptApplied? {
      LapsesOnlyThere(c, s, step);
    }
  }

  lemma {:induction false} NothingLapsed(c: QuotaFile, states: seq<State>, steps: seq<Step>, n: nat)
    requires ValidFile(c) && IsRun(c, states, steps) && Fresh(states[0]) && NothingLost(states, steps, n)
    ensures states[n].lapsed == map[]
  {
    if n > 0 {
      NothingLapsed(c, states, steps, n - 1);
      assert StepAt(c, states, steps, n - 1);
      LossStep(c, states[n - 1], steps[n - 1]);
    }
  }

  /** Everything applied in the first `n` steps is one of the landings that its delta bounds. */
  ghost predicate AllChecked(states: seq<State>, steps: seq<Step>, n: nat) {
    n <= |steps| && n <= |states| && forall i :: 0 <= i < n ==> AsChecked(states[i], steps[i])
  }

  /** What the writes applied to a pool were stale by, all together. */
  ghost function StaleTotal(applied: seq<Applied>, pool: string, d: Dim): int {
    if applied == [] then 0
    else
      var last := applied[|applied| - 1];
      StaleTotal(applied[..|applied| - 1], pool, d)
      + if last.task.pool == pool then Stale(last.contents, last.task, d) else 0
  }

  lemma OneMoreStale(applied: seq<Applied>, a: Applied, pool: string, d: Dim)
    ensures StaleTotal(applied + [a], pool, d) ==
            StaleTotal(applied, pool, d) + if a.task.pool == pool then Stale(a.contents, a.task, d) else 0
  {
    assert (applied + [a])[..|applied|] == applied;
  }

  lemma OverStep(c: QuotaFile, s: State, step: Step, pool: string, d: Dim)
    requires ValidFile(c) && TaskInv(c, s) && Enabled(c, s, step) && AsChecked(s, step)
    requires Overshot(s.applied, pool, d) <= StaleTotal(s.applied, pool, d)
    ensures var s' := Apply(c, s, step); Overshot(s'.applied, pool, d) <= StaleTotal(s'.applied, pool, d)
  {
    if step.Land? {
      OverLanding(c, s, step.vmid, step.g, pool, d);
    } else if step.AcceptApplied? {
      OverLanding(c, s, s.reqs[step.r].vmid, step.g, pool, d);
    } else {
      NothingApplied(c, s, step);
    }
  }

  lemma OverLanding(c: QuotaFile, s: State, vmid: int, g: Guest, pool: string, d: Dim)
    requires TaskInv(c, s) && CanLand(s, vmid, g) && ChargedFor(s, vmid, g)
    requires Overshot(s.applied, pool, d) <= StaleTotal(s.applied, pool, d)
    ensures Overshot(AppliedWith(s, vmid, g), pool, d) <= StaleTotal(AppliedWith(s, vmid, g), pool, d)
  {
    LandingFits(c, s, vmid, g, d);
    OneMoreApplied(s.applied, AsApplied(s, vmid, g), pool, d);
    OneMoreStale(s.applied, AsApplied(s, vmid, g), pool, d);
  }

  /** Where the deltas bound what is applied, it overshoots at most by what was taken off the guests
      between the reads of the decisions and their verdicts. */
  lemma {:induction false} OvershotIsStale(c: QuotaFile, states: seq<State>, steps: seq<Step>, n: nat,
                                           pool: string, d: Dim)
    requires ValidFile(c) && IsRun(c, states, steps) && Fresh(states[0]) && AllChecked(states, steps, n)
    ensures Overshot(states[n].applied, pool, d) <= StaleTotal(states[n].applied, pool, d)
  {
    if n > 0 {
      OvershotIsStale(c, states, steps, n - 1, pool, d);
      NextOvershot(c, states, steps, n - 1, pool, d);
    }
  }

  lemma NextOvershot(c: QuotaFile, states: seq<State>, steps: seq<Step>, n: nat, pool: string, d: Dim)
    requires ValidFile(c) && IsRun(c, states, steps) && Fresh(states[0]) && n < |steps|
    requires AsChecked(states[n], steps[n])
    requires Overshot(states[n].applied, pool, d) <= StaleTotal(states[n].applied, pool, d)
    ensures Overshot(states[n + 1].applied, pool, d) <= StaleTotal(states[n + 1].applied, pool, d)
  {
    RunShape(c, states, steps, n);
    assert StepAt(c, states, steps, n);
    OverStep(c, states[n], steps[n], pool, d);
  }

  /** So where no settle ends before its own write is applied, and what is applied is what its delta
      bounds, that is all that usage can exceed the ceiling by, however old the reads. */
  lemma StaleReadsBound(c: QuotaFile, states: seq<State>, steps: seq<Step>, n: nat, pool: string, d: Dim)
    requires ValidFile(c) && Narrowing(c) && IsRun(c, states, steps) && Fresh(states[0])
    requires NothingLost(states, steps, n) && AllChecked(states, steps, n)
    ensures PoolUsage(states[n], pool, d) <= Ceiling(c, states[0], pool, d) + StaleTotal(states[n].applied, pool, d)
  {
    OvershotIsStale(c, states, steps, n, pool, d);
    NothingLapsed(c, states, steps, n);
    BoundedDegradation(c, states, steps, n, pool, d);
    SumZero(LapsedMap(states[n], pool, d));
  }

  // ---------------------------------------------------------------- decisions on what still holds

  /** The write admitted in this step, if any, was decided on a guest no heavier than it is now: nobody
      has taken anything off it since the decision read it. */
  ghost predicate AdmitsCurrent(s: State, step: Step) {
    Starts(step) && step.r in s.reqs && s.reqs[step.r].view.Some? && PreOf(s, s.reqs[step.r]).Some?
    && s.reqs[step.r].view.value.pre.Some? ==>
      Shrunk(s.reqs[step.r].view.value.pre.value, PreOf(s, s.reqs[step.r]).value)
  }

  ghost predicate ReadsHold(states: seq<State>, steps: seq<Step>, n: nat) {
    n <= |steps| && n <= |states| && forall i :: 0 <= i < n ==> AdmitsCurrent(states[i], steps[i])
  }

  /** So it is when nobody changed the guest in between. */
  lemma CurrentHolds(s: State, step: Step)
    requires StartsCurrent(s, step)
    ensures AdmitsCurrent(s, step)
  {}

  ghost predicate AllHeld(s: State) {
    && (forall v <- s.tasks :: ReadHeld(s.tasks[v]))
    && (forall i :: 0 <= i < |s.applied| ==> HeldWhenApplied(s.applied[i]))
  }

  ghost predicate HeldWhenApplied(a: Applied) {
    ReadHeld(a.task) && a.task.pre.Some? == a.task.start.Some? && NonNegativeContents(a.contents)
  }

  lemma StaysHeld(c: QuotaFile, s: State, step: Step)
    requires ValidFile(c) && TaskInv(c, s) && Enabled(c, s, step) && AllHeld(s) && AdmitsCurrent(s, step)
    ensures AllHeld(Apply(c, s, step))
  {
    if Starts(step) {
      StartShape(c, s, step);
    } else {
      TasksOnlyEnd(c, s, step);
      if step.Land? { HeldLanding(c, s, step.vmid, step.g); }
      else if step.AcceptApplied? { HeldLanding(c, s, s.reqs[step.r].vmid, step.g); }
      else { NothingApplied(c, s, step); }
    }
  }

  lemma HeldLanding(c: QuotaFile, s: State, vmid: int, g: Guest)
    requires TaskInv(c, s) && CanLand(s, vmid, g) && AllHeld(s)
    ensures forall i :: 0 <= i < |AppliedWith(s, vmid, g)| ==> HeldWhenApplied(AppliedWith(s, vmid, g)[i])
  {
    assert TaskOk(c, s, vmid, s.tasks[vmid]) && HeldWhenApplied(AsApplied(s, vmid, g));
  }

  lemma {:induction false} RunHeld(c: QuotaFile, states: seq<State>, steps: seq<Step>, n: nat)
    requires ValidFile(c) && IsRun(c, states, steps) && Fresh(states[0]) && ReadsHold(states, steps, n)
    ensures AllHeld(states[n])
  {
    if n > 0 {
      RunHeld(c, states, steps, n - 1);
      NextHeld(c, states, steps, n - 1);
    }
  }

  lemma NextHeld(c: QuotaFile, states: seq<State>, steps: seq<Step>, n: nat)
    requires ValidFile(c) && IsRun(c, states, steps) && Fresh(states[0]) && n < |steps|
    requires AllHeld(states[n]) && AdmitsCurrent(states[n], steps[n])
    ensures AllHeld(states[n + 1])
  {
    RunShape(c, states, steps, n);
    assert StepAt(c, states, steps, n);
    StaysHeld(c, states[n], steps[n]);
  }

  lemma {:induction false} HeldIsFresh(applied: seq<Applied>, pool: string, d: Dim)
    requires forall i :: 0 <= i < |applied| ==> HeldWhenApplied(applied[i])
    ensures StaleTotal(applied, pool, d) == 0
  {
    if applied != [] {
      HeldIsFresh(applied[..|applied| - 1], pool, d);
      var last := applied[|applied| - 1];
      assert HeldWhenApplied(last);
      HeldIsNotStale(last.contents, last.task, d);
    }
  }

  lemma NothingStale(c: QuotaFile, states: seq<State>, steps: seq<Step>, n: nat, pool: string, d: Dim)
    requires ValidFile(c) && IsRun(c, states, steps) && Fresh(states[0]) && ReadsHold(states, steps, n)
    ensures StaleTotal(states[n].applied, pool, d) == 0
  {
    RunHeld(c, states, steps, n);
    HeldIsFresh(states[n].applied, pool, d);
  }

  /** Deltas that bound what is applied, computed on what still holds, leave nothing overshot. */
  lemma NothingOvershot(c: QuotaFile, states: seq<State>, steps: seq<Step>, n: nat, pool: string, d: Dim)
    requires ValidFile(c) && IsRun(c, states, steps) && Fresh(states[0])
    requires AllChecked(states, steps, n) && ReadsHold(states, steps, n)
    ensures Overshot(states[n].applied, pool, d) == 0
  {
    OvershotIsStale(c, states, steps, n, pool, d);
    NothingStale(c, states, steps, n, pool, d);
    OvershotNonNegative(states[n].applied, pool, d);
  }

  /** Quota safety: when no settle ends before its own write is applied, what is applied is what the
      deltas bound, and nobody takes anything off a guest between the read of a decision and its
      verdict, no interleaving of any requests and of anyone who otherwise destroys or shrinks guests,
      also those being worked on, ever takes a pool's recomputed usage above the larger of its initial
      usage and its owner's base limit; in a dimension without a limit it never grows. */
  lemma QuotaSafety(c: QuotaFile, states: seq<State>, steps: seq<Step>, n: nat, pool: string, d: Dim)
    requires ValidFile(c) && Narrowing(c) && IsRun(c, states, steps) && Fresh(states[0])
    requires NothingLost(states, steps, n) && AllChecked(states, steps, n) && ReadsHold(states, steps, n)
    ensures PoolUsage(states[n], pool, d) <= Ceiling(c, states[0], pool, d)
  {
    StaleReadsBound(c, states, steps, n, pool, d);
    NothingStale(c, states, steps, n, pool, d);
  }

  /** Nobody changes a guest that a write is pending on, nor has anyone changed the guest of a write
      admitted in this step since the decision read it. */
  predicate LeavesAlone(s: State, step: Step) {
    !TouchesPending(s, step) && StartsCurrent(s, step)
  }

  lemma {:induction false} RunUndisturbed(c: QuotaFile, states: seq<State>, steps: seq<Step>, n: nat)
    requires ValidFile(c) && IsRun(c, states, steps) && Fresh(states[0]) && n <= |steps|
    requires forall i :: 0 <= i < n ==> LeavesAlone(states[i], steps[i])
    ensures Undisturbed(states[n])
  {
    if n > 0 {
      RunUndisturbed(c, states, steps, n - 1);
      NextUndisturbed(c, states, steps, n - 1);
    }
  }

  lemma NextUndisturbed(c: QuotaFile, states: seq<State>, steps: seq<Step>, n: nat)
    requires ValidFile(c) && IsRun(c, states, steps) && Fresh(states[0]) && n < |steps|
    requires Undisturbed(states[n]) && LeavesAlone(states[n], steps[n])
    ensures Undisturbed(states[n + 1])
  {
    RunShape(c, states, steps, n);
    assert StepAt(c, states, steps, n);
    StaysUndisturbed(c, states[n], steps[n]);
  }

  /** When nobody touches a guest from the read of a decision until its write is applied, a settle that
      ends on an observation never ends too early, so only timeouts can lose a write. */
  lemma ObservationsSuffice(c: QuotaFile, states: seq<State>, steps: seq<Step>, n: nat)
    requires ValidFile(c) && IsRun(c, states, steps) && Fresh(states[0]) && n <= |steps|
    requires forall i :: 0 <= i < n ==> LeavesAlone(states[i], steps[i])
    requires forall i :: 0 <= i < n && steps[i].Lapse? ==> !EndsEarly(states[i], steps[i])
    ensures NothingLost(states, steps, n)
  {
    forall i | 0 <= i < n && steps[i].Settle? ensures !EndsEarly(states[i], steps[i]) {
      RunUndisturbed(c, states, steps, i);
      RunShape(c, states, steps, i);
      assert StepAt(c, states, steps, i);
      ObservedIsLanded(c, states[i], steps[i].r);
    }
  }

  /** What the ceiling is for the pool of a user with a record. */
  lemma CeilingOfUser(c: QuotaFile, start: State, user: string, d: Dim)
    requires ValidFile(c) && user in c.users
    ensures var limit, initial := Limit(c.users[user].value, "", d), PoolUsage(start, PoolOf(c, user), d);
            Ceiling(c, start, PoolOf(c, user), d) ==
            if limit.Some? && limit.value > initial then limit.value else initial
  {
    OwnersLimit(c, user, d);
  }
}
