/** Progress: no reachable state is stuck, no request goes round in circles, and every way out of the
    critical section releases the lock. */
module Progress {
  import opened Wrappers
  import opened MapSums
  import opened Accounting
  import opened Engine
  import opened Deltas
  import opened Quota
  import opened Admission
  import opened Tasks
  import opened Protocol

  /** How far a request is from being answered. */
  function RequestRank(q: Request): nat {
    match q.phase
    case Waiting => 6
    case Holding => if q.view.None? then 5 else 4
    case Cleared => if q.task.None? then 3 else 2
    case Forwarded => 1
    case Finished => 0
  }

  function Rank(s: State, r: int): nat {
    if r in s.reqs then RequestRank(s.reqs[r]) else 7
  }

  /** Steps of the proxy or of the upstream that move the request `r` on. */
  predicate Moves(step: Step, r: int) {
    match step
    case Arrive(i, _, _, _) => i == r
    case Acquire(i) => i == r
    case ReadStep(i, _, _, _, _) => i == r
    case DecideStep(i, _) => i == r
    case TakeUp(i) => i == r
    case RefusedUpstream(i) => i == r
    case Accept(i) => i == r
    case AcceptApplied(i, _) => i == r
    case Settle(i) => i == r
    case Lapse(i) => i == r
    case Land(_, _) => false
    case FailTask(_) => false
    case Destroy(_) => false
    case ShrinkGuest(_, _) => false
    case ShrinkContents(_) => false
  }

  /** The reads of a decision can all fail; it is then still a decision. */
  const NO_ANSWERS := Reads(None, None, None, None, None)

  /** The step that the holder of a lock can always take: read and decide, even if no read succeeds; be
      refused by the upstream; or give up waiting. */
  function WayOut(s: State, r: int): Step
    requires r in s.reqs && Critical(s.reqs[r].phase)
  {
    match s.reqs[r].phase
    case Holding =>
      if s.reqs[r].view.None? then ReadStep(r, NO_ANSWERS, map[], "", map[]) else DecideStep(r, None)
    case Cleared => RefusedUpstream(r)
    case Forwarded => Lapse(r)
  }

  lemma WayOutEnabled(c: QuotaFile, s: State, r: int)
    requires ValidFile(c) && LockInv(c, s) && TaskInv(c, s) && r in s.reqs && Critical(s.reqs[r].phase)
    ensures Enabled(c, s, WayOut(s, r))
  {
    assert RequestOk(s, r);
  }

  /** A step moves its own request strictly closer to its answer, and no other request at all. */
  lemma StepMoves(c: QuotaFile, s: State, step: Step, r: int)
    requires ValidFile(c) && Enabled(c, s, step)
    ensures Moves(step, r) ==> Rank(Apply(c, s, step), r) < Rank(s, r)
    ensures !Moves(step, r) ==> Rank(Apply(c, s, step), r) == Rank(s, r)
  {
    if step.DecideStep? {
      DecideMoves(c, s, step.r, step.used, r);
    } else if UpstreamStep(step) {
      OtherMoves(c, s, step, r);
    } else {
      RequestMoves(c, s, step, r);
    }
  }

  lemma DecideMoves(c: QuotaFile, s: State, i: int, used: Option<Usage>, r: int)
    requires ValidFile(c) && i in s.reqs && s.reqs[i].phase.Holding? && s.reqs[i].view.Some?
    requires s.reqs[i].user in c.users
    ensures r == i ==> Rank(Decided(c, s, i, used), r) < Rank(s, r)
    ensures r != i ==> Rank(Decided(c, s, i, used), r) == Rank(s, r)
  {
    DecidedRequest(c, s, i, used);
    PastVerdictMoves(s, Decided(c, s, i, used), i, r);
  }

  lemma PastVerdictMoves(s: State, s': State, i: int, r: int)
    requires i in s.reqs && s.reqs[i].phase.Holding? && PastVerdict(s, s', i)
    ensures r == i ==> Rank(s', r) < Rank(s, r)
    ensures r != i ==> Rank(s', r) == Rank(s, r)
  {
    RankAt(s, s', i, s'.reqs[i], r);
  }

  lemma OtherMoves(c: QuotaFile, s: State, step: Step, r: int)
    requires ValidFile(c) && Enabled(c, s, step) && UpstreamStep(step)
    ensures Apply(c, s, step).reqs == s.reqs && !Moves(step, r)
  {}

  lemma RequestMoves(c: QuotaFile, s: State, step: Step, r: int)
    requires ValidFile(c) && Enabled(c, s, step) && !UpstreamStep(step) && !step.DecideStep?
    ensures Moves(step, r) ==> Rank(Apply(c, s, step), r) < Rank(s, r)
    ensures !Moves(step, r) ==> Rank(Apply(c, s, step), r) == Rank(s, r)
  {
    var s' := Apply(c, s, step);
    OneRequestChanges(c, s, step);
    RankAt(s, s', step.r, s'.reqs[step.r], r);
  }

  /** Only the request's own entry changes, and it gets closer to its answer. */
  ghost predicate OneMoved(s: State, s': State, r: int) {
    r in s'.reqs && s'.reqs == s.reqs[r := s'.reqs[r]] && RequestRank(s'.reqs[r]) < Rank(s, r)
  }

  lemma OneRequestChanges(c: QuotaFile, s: State, step: Step)
    requires ValidFile(c) && Enabled(c, s, step) && !UpstreamStep(step) && !step.DecideStep?
    ensures OneMoved(s, Apply(c, s, step), step.r)
  {
    if Answers(step) {
      ReleaseMoves(c, s, step);
    }
  }

  lemma ReleaseMoves(c: QuotaFile, s: State, step: Step)
    requires ValidFile(c) && Enabled(c, s, step)
    requires Answers(step)
    ensures OneMoved(s, Apply(c, s, step), step.r)
  {
    AnswerReleases(c, s, step);
    AnsweredMoved(s, Apply(c, s, step), step.r);
  }

  /** The request is answered and its user's lock free. */
  ghost predicate Answered(s: State, s': State, r: int) {
    && r in s.reqs && (s.reqs[r].phase.Cleared? || s.reqs[r].phase.Forwarded?)
    && s'.reqs == WithPhase(s, r, Finished) && s'.lock == s.lock - {s.reqs[r].user}
  }

  lemma SettleAnswers(s: State, r: int)
    requires r in s.reqs && s.reqs[r].phase.Forwarded? && s.reqs[r].task.Some?
    ensures Answered(s, EndSettle(s, r), r)
  {}

  lemma ClearedAnswers(c: QuotaFile, s: State, step: Step)
    requires ValidFile(c) && Enabled(c, s, step) && (step.RefusedUpstream? || step.AcceptApplied?)
    ensures Answered(s, Apply(c, s, step), step.r)
  {}

  /** The four answers all release the lock. */
  lemma AnswerReleases(c: QuotaFile, s: State, step: Step)
    requires ValidFile(c) && Enabled(c, s, step)
    requires Answers(step)
    ensures Answered(s, Apply(c, s, step), step.r)
  {
    if step.Settle? || step.Lapse? { SettleAnswers(s, step.r); } else { ClearedAnswers(c, s, step); }
  }

  lemma AnsweredMoved(s: State, s': State, r: int)
    requires r in s.reqs && !s.reqs[r].phase.Finished? && s'.reqs == WithPhase(s, r, Finished)
    ensures OneMoved(s, s', r)
  {}

  lemma RankAt(s: State, s': State, i: int, q: Request, r: int)
    requires s'.reqs == s.reqs[i := q]
    ensures Rank(s', r) == if r == i then RequestRank(q) else Rank(s, r)
  {}

  /** No state of any run is stuck: for an unanswered request there is a step, of the request itself
      or of the one that holds its user's lock, that can be taken now and moves that one on. */
  lemma Progress(c: QuotaFile, states: seq<State>, steps: seq<Step>, n: nat, r: int) returns (who: int, step: Step)
    requires ValidFile(c) && IsRun(c, states, steps) && Fresh(states[0]) && n <= |steps|
    requires r in states[n].reqs && !states[n].reqs[r].phase.Finished?
    ensures who in states[n].reqs && states[n].reqs[who].user == states[n].reqs[r].user
    ensures Moves(step, who) && Enabled(c, states[n], step)
    ensures Rank(Apply(c, states[n], step), who) < Rank(states[n], who)
  {
    RunShape(c, states, steps, n);
    var s := states[n];
    if s.reqs[r].phase.Waiting? && s.reqs[r].user !in s.lock {
      who, step := r, Acquire(r);
    } else {
      who := if s.reqs[r].phase.Waiting? then s.lock[s.reqs[r].user] else r;
      step := WayOut(s, who);
      WayOutEnabled(c, s, who);
    }
    StepMoves(c, s, step, who);
  }

  function Taken(steps: seq<Step>, r: int): nat {
    if steps == [] then 0 else Taken(steps[..|steps| - 1], r) + if Moves(steps[|steps| - 1], r) then 1 else 0
  }

  /** In every run a request takes at most seven steps, its arrival included. */
  lemma {:induction false} StepsPerRequest(c: QuotaFile, states: seq<State>, steps: seq<Step>, n: nat, r: int)
    requires ValidFile(c) && IsRun(c, states, steps) && Fresh(states[0]) && n <= |steps|
    ensures Taken(steps[..n], r) + Rank(states[n], r) <= 7
  {
    if n > 0 {
      StepsPerRequest(c, states, steps, n - 1, r);
      assert StepAt(c, states, steps, n - 1);
      StepMoves(c, states[n - 1], steps[n - 1], r);
      assert steps[..n][..n - 1] == steps[..n - 1] && steps[..n][n - 1] == steps[n - 1];
    }
  }

  /** How a step leaves the locks: one more, taken by `Acquire`; one less, with its holder answered; or the same. */
  ghost predicate LockChange(s: State, s': State, step: Step) {
    || (step.Acquire? && step.r in s.reqs && s.reqs[step.r].user !in s.lock
        && s'.lock == s.lock[s.reqs[step.r].user := step.r])
    || (s'.lock == s.lock && forall u <- s.lock :: s.lock[u] in s'.reqs && !s'.reqs[s.lock[u]].phase.Finished?)
    || (exists r :: r in s.reqs && Critical(s.reqs[r].phase) && s'.lock == s.lock - {s.reqs[r].user}
                    && s'.reqs == WithPhase(s, r, Finished))
  }

  lemma ReleaseChange(s: State, s': State, step: Step, r: int)
    requires r in s.reqs && Critical(s.reqs[r].phase)
    requires s'.lock == s.lock - {s.reqs[r].user} && s'.reqs == WithPhase(s, r, Finished)
    ensures LockChange(s, s', step)
  {}

  lemma SameLocks(c: QuotaFile, s: State, step: Step)
    requires ValidFile(c) && LockInv(c, s) && Enabled(c, s, step)
    requires step.Arrive? || step.ReadStep? || step.TakeUp? || step.Accept? || UpstreamStep(step)
    ensures LockChange(s, Apply(c, s, step), step)
  {
    if UpstreamStep(step) {
      RequestsStand(c, s, step);
    } else {
      SameLock(c, s, step);
    }
  }

  lemma SameLock(c: QuotaFile, s: State, step: Step)
    requires ValidFile(c) && LockInv(c, s) && Enabled(c, s, step)
    requires step.Arrive? || step.ReadStep? || step.TakeUp? || step.Accept?
    ensures var s' := Apply(c, s, step);
            s'.lock == s.lock && forall u <- s.lock :: s.lock[u] in s'.reqs && !s'.reqs[s.lock[u]].phase.Finished?
  {}

  lemma DecideLocks(c: QuotaFile, s: State, step: Step)
    requires ValidFile(c) && LockInv(c, s) && Enabled(c, s, step) && step.DecideStep?
    ensures LockChange(s, Apply(c, s, step), step)
  {
    DecidedRequest(c, s, step.r, step.used);
    PastVerdictLocks(c, s, Apply(c, s, step), step);
  }

  lemma PastVerdictLocks(c: QuotaFile, s: State, s': State, step: Step)
    requires LockInv(c, s) && step.DecideStep? && step.r in s.reqs && Critical(s.reqs[step.r].phase)
    requires PastVerdict(s, s', step.r)
    ensures LockChange(s, s', step)
  {
    if s' == Release(s, step.r) { ReleaseChange(s, s', step, step.r); }
  }

  lemma StepLocks(c: QuotaFile, s: State, step: Step)
    requires ValidFile(c) && LockInv(c, s) && Enabled(c, s, step)
    ensures LockChange(s, Apply(c, s, step), step)
  {
    if step.DecideStep? {
      DecideLocks(c, s, step);
    } else if step.Arrive? || step.ReadStep? || step.TakeUp? || step.Accept? || UpstreamStep(step) {
      SameLocks(c, s, step);
    } else if !step.Acquire? {
      AnswerReleases(c, s, step);
      ReleaseChange(s, Apply(c, s, step), step, step.r);
    }
  }

  /** A lock is taken only when free, by `Acquire`, and is free again as soon as its holder is
      answered, and not before. */
  lemma LockReleasedWithAnswer(c: QuotaFile, s: State, step: Step, user: string)
    requires ValidFile(c) && LockInv(c, s) && Enabled(c, s, step)
    ensures var s' := Apply(c, s, step);
            && (user !in s.lock && user in s'.lock ==> step.Acquire? && s'.lock[user] == step.r)
            && (user in s.lock ==> s.lock[user] in s'.reqs)
            && (user in s.lock ==> (user !in s'.lock <==> s'.reqs[s.lock[user]].phase.Finished?))
            && (user in s.lock && user in s'.lock ==> s'.lock[user] == s.lock[user])
  {
    StepLocks(c, s, step);
    LocksFollow(c, s, Apply(c, s, step), step, user);
  }

  lemma LocksFollow(c: QuotaFile, s: State, s': State, step: Step, user: string)
    requires LockInv(c, s) && LockChange(s, s', step)
    requires step.Acquire? ==> step.r in s.reqs && s'.reqs == WithPhase(s, step.r, Holding)
    ensures user !in s.lock && user in s'.lock ==> step.Acquire? && s'.lock[user] == step.r
    ensures user in s.lock ==> s.lock[user] in s'.reqs
    ensures user in s.lock ==> (user !in s'.lock <==> s'.reqs[s.lock[user]].phase.Finished?)
    ensures user in s.lock && user in s'.lock ==> s'.lock[user] == s.lock[user]
  {}

  // ---------------------------------------------------------------- what is left open

  /** Any number of requests of any users may be under way at once: whatever the state, whatever is asked
      for and in whatever order, all of it can arrive before anything else happens, and nothing else
      changes. */
  lemma {:induction false} CrowdsForm(c: QuotaFile, start: State, first: nat, asked: seq<(string, Write, int)>)
    returns (states: seq<State>, steps: seq<Step>)
    requires ValidFile(c) && forall r <- start.reqs :: r < first
    requires forall i :: 0 <= i < |asked| ==> asked[i].0 in c.users && !asked[i].1.Alloc?
    ensures IsRun(c, states, steps) && |steps| == |asked|
    ensures states[0] == start && states[|asked|] == start.(reqs := states[|asked|].reqs)
    ensures var reqs := states[|asked|].reqs;
            && (forall r :: r in reqs <==> r in start.reqs || first <= r < first + |asked|)
            && (forall r <- start.reqs :: reqs[r] == start.reqs[r])
            && forall i :: 0 <= i < |asked| ==> Waits(reqs[first + i], asked[i].0, asked[i].1)
  {
    if asked == [] {
      states, steps := [start], [];
    } else {
      var n, last := |asked| - 1, asked[|asked| - 1];
      states, steps := CrowdsForm(c, start, first, asked[..n]);
      var step := Arrive(first + n, last.0, last.1, last.2);
      assert forall i | 0 <= i < n :: Waits(states[n].reqs[first + i], asked[..n][i].0, asked[..n][i].1);
      ArriveLast(c, states, steps, step);
      states, steps := states + [Apply(c, states[n], step)], steps + [step];
    }
  }

  predicate Waits(q: Request, user: string, write: Write) {
    q.user == user && q.write == write && q.phase.Waiting?
  }

  lemma ArriveLast(c: QuotaFile, states: seq<State>, steps: seq<Step>, step: Step)
    requires ValidFile(c) && IsRun(c, states, steps) && Enabled(c, states[|steps|], step)
    ensures IsRun(c, states + [Apply(c, states[|steps|], step)], steps + [step])
  {
    var more, all := states + [Apply(c, states[|steps|], step)], steps + [step];
    forall i | 0 <= i < |all| ensures StepAt(c, more, all, i) {
      if i < |steps| { assert StepAt(c, states, steps, i); }
    }
  }

  /** Whoever waits may be the next to get the lock as soon as no other request of the user is served. */
  lemma AnyoneIsNext(c: QuotaFile, s: State, r: int)
    requires ValidFile(c) && LockInv(c, s) && r in s.reqs && s.reqs[r].phase.Waiting?
    ensures Enabled(c, s, Acquire(r)) <==>
            forall i <- s.reqs :: s.reqs[i].user == s.reqs[r].user ==> !Critical(s.reqs[i].phase)
  {
    if s.reqs[r].user in s.lock {
      var i := s.lock[s.reqs[r].user];
      assert i in s.reqs && s.reqs[i].user == s.reqs[r].user && Critical(s.reqs[i].phase);
    }
  }

  /** Others are not held back: any guest may be destroyed or replaced by a lighter one at any time. */
  lemma OthersAreFree(c: QuotaFile, s: State, v: int, g: Guest)
    requires ValidFile(c) && v in s.guests
    ensures Enabled(c, s, Destroy(v)) && Apply(c, s, Destroy(v)) == s.(guests := s.guests - {v})
    ensures WellSized(g) && Shrunk(g, s.guests[v]) ==>
              Enabled(c, s, ShrinkGuest(v, g)) && Apply(c, s, ShrinkGuest(v, g)).guests == s.guests[v := g]
  {}

  /** Nor is the upstream: a pending write whose request has been answered may fail, or leave its guest as
      anything of its pool, and is then over. */
  lemma UpstreamIsFree(c: QuotaFile, s: State, v: int, g: Guest)
    requires ValidFile(c) && TaskInv(c, s) && v in s.tasks && !s.reqs[s.tasks[v].req].phase.Cleared?
    ensures Enabled(c, s, FailTask(v)) && Apply(c, s, FailTask(v)) == s.(tasks := s.tasks - {v})
    ensures WellSized(g) && g.pool == s.tasks[v].pool && (s.tasks[v].start.Some? ==> v in s.guests) ==>
              && Enabled(c, s, Land(v, g))
              && Apply(c, s, Land(v, g)).guests == s.guests[v := g] && Apply(c, s, Land(v, g)).tasks == s.tasks - {v}
  {
    assert TaskOk(c, s, v, s.tasks[v]);
  }
}
