/** The handler and the step system: what a request does in a run, effect by effect, is what the handler
    does for it. */
module Refinement {
  import opened Wrappers
  import opened Accounting
  import opened Deltas
  import opened Quota
  import opened Admission
  import opened Tasks
  import opened Protocol
  import opened Progress
  import M = Mediation

  /** The request that takes the step, if one does. */
  predicate Mine(step: Step, r: int) {
    !UpstreamStep(step) && step.r == r
  }

  ghost function Verdict(c: QuotaFile, q: Request, used: Option<Usage>): Decision
    requires ValidFile(c) && q.user in c.users
  {
    Decide(true, q.write, c.users[q.user].value, AnswersOf(q, used))
  }

  /** What the request waits for, once accepted. */
  function Awaited(c: QuotaFile, q: Request): Settle
    requires ValidFile(c) && q.user in c.users
  {
    SettleOf(q.write, c.users[q.user].value, AnswersOf(q, None))
  }

  /** The handler's effects in a step of a request. */
  ghost function OpsOf(c: QuotaFile, q: Request, step: Step): seq<M.Op>
    requires ValidFile(c) && q.user in c.users
  {
    match step
    case Acquire(_) => [M.TakeRegistry, M.ReleaseRegistry, M.TakeLock(q.user)]
    case DecideStep(_, used) =>
      [M.Judge(q.write)] +
      if Verdict(c, q, used).allowed then [M.CountAllowed]
      else M.ErrorOps(true, Verdict(c, q, used)) + [M.CountDenied, M.Reject, M.ReleaseLock(q.user)]
    case RefusedUpstream(_) => [M.Forward(M.Admitted), M.ReleaseLock(q.user)]
    case AcceptApplied(_, _) => [M.Forward(M.Admitted), M.ReleaseLock(q.user)]
    case Accept(_) => [M.Forward(M.Admitted)]
    case Settle(_) => [M.Await(Awaited(c, q)), M.ReleaseLock(q.user)]
    case Lapse(_) => [M.Await(Awaited(c, q)), M.ReleaseLock(q.user)]
    case _ => []
  }

  /** The usage that the request's verdict was taken on, and the status that the upstream answered with. */
  datatype Story = Story(used: Option<Usage>, status: int)

  function After(story: Story, step: Step, r: int): Story {
    if !Mine(step, r) then story
    else match step
      case DecideStep(_, used) => story.(used := used)
      case RefusedUpstream(_) => story.(status := 300)
      case _ => story
  }

  function Head(q: Request): seq<M.Op> {
    [M.TakeRegistry, M.ReleaseRegistry, M.TakeLock(q.user)]
  }

  /** What the request has done so far, by its phase. */
  ghost predicate SoFar(c: QuotaFile, q: Request, ops: seq<M.Op>, story: Story)
    requires ValidFile(c)
  {
    && q.user in c.users && !q.write.Alloc?
    && (q.phase.Finished? || story.status < 300)
    && (q.task.Some? ==> DeltaRead(q) == Some(q.task.value.delta))
    && match q.phase
       case Waiting => q.task.None? && ops == []
       case Holding => q.task.None? && ops == Head(q)
       case Cleared => Verdict(c, q, story.used).allowed && ops == Head(q) + [M.Judge(q.write), M.CountAllowed]
       case Forwarded =>
         && Verdict(c, q, story.used).allowed && DeltaRead(q).Some? && DeltaRead(q).value.Positive()
         && ops == Head(q) + [M.Judge(q.write), M.CountAllowed, M.Forward(M.Admitted)]
       case Finished =>
         ops == M.LockedOps(true, q.user, q.write, Verdict(c, q, story.used), story.status)
  }

  // ---------------------------------------------------------------- what each step adds

  /** An allowed write failing closed met no accounting error, and is waited for if it raises something. */
  lemma AllowedVerdict(c: QuotaFile, q: Request, used: Option<Usage>)
    requires ValidFile(c) && q.user in c.users && !q.write.Alloc? && Verdict(c, q, used).allowed
    ensures Verdict(c, q, used).errors == 0 && DeltaRead(q).Some?
    ensures Verdict(c, q, used).settle == if DeltaRead(q).value.Positive() then Awaited(c, q) else NoSettle
    ensures DeltaRead(q).value.Positive() ==> !Awaited(c, q).NoSettle?
  {
    var record, r := c.users[q.user].value, AnswersOf(q, used);
    DecideClosed(q.write, record, r);
    UsageIsNoDelta(q, used);
  }

  lemma DeniedOps(user: string, w: Write, dec: Decision, status: int)
    requires !dec.allowed
    ensures [M.TakeRegistry, M.ReleaseRegistry, M.TakeLock(user)]
            + ([M.Judge(w)] + (M.ErrorOps(true, dec) + [M.CountDenied, M.Reject, M.ReleaseLock(user)])) ==
            M.LockedOps(true, user, w, dec, status)
  {}

  lemma AllowedOps(user: string, w: Write, dec: Decision, status: int)
    requires dec.allowed && dec.errors == 0
    ensures var head := [M.TakeRegistry, M.ReleaseRegistry, M.TakeLock(user)];
            M.LockedOps(true, user, w, dec, status) ==
            if status >= 300 || dec.settle.NoSettle?
            then head + [M.Judge(w), M.CountAllowed] + [M.Forward(M.Admitted), M.ReleaseLock(user)]
            else head + [M.Judge(w), M.CountAllowed, M.Forward(M.Admitted)] + [M.Await(dec.settle), M.ReleaseLock(user)]
  {}

  lemma DeniedSoFar(c: QuotaFile, q: Request, used: Option<Usage>, ops: seq<M.Op>, story: Story)
    requires ValidFile(c) && SoFar(c, q, ops, story) && q.phase.Holding? && !Verdict(c, q, used).allowed
    ensures SoFar(c, q.(phase := Finished), ops + OpsOf(c, q, DecideStep(0, used)), story.(used := used))
  {
    DeniedOps(q.user, q.write, Verdict(c, q, used), story.status);
    assert Verdict(c, q.(phase := Finished), used) == Verdict(c, q, used);
  }

  lemma ClearedSoFar(c: QuotaFile, q: Request, task: Option<Task>, used: Option<Usage>, ops: seq<M.Op>, story: Story)
    requires ValidFile(c) && SoFar(c, q, ops, story) && q.phase.Holding? && Verdict(c, q, used).allowed
    requires task.Some? ==> DeltaRead(q) == Some(task.value.delta)
    ensures SoFar(c, q.(phase := Cleared, task := task), ops + OpsOf(c, q, DecideStep(0, used)), story.(used := used))
  {
    var q' := q.(phase := Cleared, task := task);
    assert Verdict(c, q', used) == Verdict(c, q, used) && DeltaRead(q') == DeltaRead(q);
    assert Head(q) + ([M.Judge(q.write)] + [M.CountAllowed]) == Head(q) + [M.Judge(q.write), M.CountAllowed];
  }

  /** The request after its verdict. */
  lemma AfterDecided(c: QuotaFile, s: State, r: int, used: Option<Usage>)
    requires ValidFile(c) && r in s.reqs && s.reqs[r].view.Some? && s.reqs[r].user in c.users
    ensures var s', q := Decided(c, s, r, used), s.reqs[r];
            && r in s'.reqs
            && if !Verdict(c, q, used).allowed then s'.reqs[r] == q.(phase := Finished)
               else || s'.reqs[r] == q.(phase := Cleared)
                    || (DeltaRead(q).Some? && s'.reqs[r] == q.(phase := Cleared, task := Some(TaskOf(c, s, r))))
  {
    Protocol.DecidedShape(c, s, r, used);
  }

  lemma VerdictSoFar(c: QuotaFile, s: State, r: int, used: Option<Usage>, ops: seq<M.Op>, story: Story)
    requires ValidFile(c) && r in s.reqs && s.reqs[r].phase.Holding? && s.reqs[r].view.Some?
    requires SoFar(c, s.reqs[r], ops, story)
    ensures var s' := Decided(c, s, r, used);
            && r in s'.reqs
            && SoFar(c, s'.reqs[r], ops + OpsOf(c, s.reqs[r], DecideStep(r, used)), story.(used := used))
  {
    AfterDecided(c, s, r, used);
    DecidedSoFar(c, s.reqs[r], Decided(c, s, r, used).reqs[r], r, used, ops, story);
  }

  lemma DecidedSoFar(c: QuotaFile, q: Request, q': Request, r: int, used: Option<Usage>, ops: seq<M.Op>, story: Story)
    requires ValidFile(c) && SoFar(c, q, ops, story) && q.phase.Holding?
    requires !Verdict(c, q, used).allowed ==> q' == q.(phase := Finished)
    requires Verdict(c, q, used).allowed ==> q' == q.(phase := Cleared, task := q'.task)
    requires Verdict(c, q, used).allowed && q'.task.Some? ==> DeltaRead(q) == Some(q'.task.value.delta)
    ensures SoFar(c, q', ops + OpsOf(c, q, DecideStep(r, used)), story.(used := used))
  {
    if Verdict(c, q, used).allowed {
      ClearedSoFar(c, q, q'.task, used, ops, story);
    } else {
      DeniedSoFar(c, q, used, ops, story);
    }
  }

  lemma TakenUpSoFar(c: QuotaFile, q: Request, task: Task, ops: seq<M.Op>, story: Story)
    requires ValidFile(c) && SoFar(c, q, ops, story) && q.phase.Cleared? && DeltaRead(q) == Some(task.delta)
    ensures SoFar(c, q.(phase := Cleared, task := Some(task)), ops, story)
  {
    var q' := q.(phase := Cleared, task := Some(task));
    assert Verdict(c, q', story.used) == Verdict(c, q, story.used) && DeltaRead(q') == DeltaRead(q);
  }

  lemma ForwardedSoFar(c: QuotaFile, q: Request, ops: seq<M.Op>, story: Story)
    requires ValidFile(c) && SoFar(c, q, ops, story) && q.phase.Cleared?
    requires q.task.Some? && q.task.value.delta.Positive()
    ensures SoFar(c, q.(phase := Forwarded), ops + [M.Forward(M.Admitted)], story)
  {
    assert Verdict(c, q.(phase := Forwarded), story.used) == Verdict(c, q, story.used);
  }

  lemma RefusedSoFar(c: QuotaFile, q: Request, ops: seq<M.Op>, story: Story)
    requires ValidFile(c) && SoFar(c, q, ops, story) && q.phase.Cleared?
    ensures SoFar(c, q.(phase := Finished), ops + [M.Forward(M.Admitted), M.ReleaseLock(q.user)], story.(status := 300))
  {
    AllowedVerdict(c, q, story.used);
    AllowedOps(q.user, q.write, Verdict(c, q, story.used), 300);
    assert Verdict(c, q.(phase := Finished), story.used) == Verdict(c, q, story.used);
  }

  lemma AppliedSoFar(c: QuotaFile, q: Request, ops: seq<M.Op>, story: Story)
    requires ValidFile(c) && SoFar(c, q, ops, story) && q.phase.Cleared?
    requires q.task.Some? && !q.task.value.delta.Positive()
    ensures SoFar(c, q.(phase := Finished), ops + [M.Forward(M.Admitted), M.ReleaseLock(q.user)], story)
  {
    AllowedVerdict(c, q, story.used);
    AllowedOps(q.user, q.write, Verdict(c, q, story.used), story.status);
    assert Verdict(c, q.(phase := Finished), story.used) == Verdict(c, q, story.used);
  }

  lemma SettledSoFar(c: QuotaFile, q: Request, ops: seq<M.Op>, story: Story)
    requires ValidFile(c) && SoFar(c, q, ops, story) && q.phase.Forwarded?
    ensures SoFar(c, q.(phase := Finished), ops + [M.Await(Awaited(c, q)), M.ReleaseLock(q.user)], story)
  {
    AllowedVerdict(c, q, story.used);
    AllowedOps(q.user, q.write, Verdict(c, q, story.used), story.status);
    assert Verdict(c, q.(phase := Finished), story.used) == Verdict(c, q, story.used);
  }

  // ---------------------------------------------------------------- runs

  /** The request's own step. */
  lemma OwnStep(c: QuotaFile, s: State, step: Step, ops: seq<M.Op>, story: Story)
    requires ValidFile(c) && Enabled(c, s, step) && !UpstreamStep(step) && !step.Arrive?
    requires SoFar(c, s.reqs[step.r], ops, story)
    ensures var s' := Apply(c, s, step);
            && step.r in s'.reqs
            && SoFar(c, s'.reqs[step.r], ops + OpsOf(c, s.reqs[step.r], step), After(story, step, step.r))
  {
    if step.DecideStep? {
      VerdictSoFar(c, s, step.r, step.used, ops, story);
    } else if step.Acquire? || step.ReadStep? || step.TakeUp? {
      QuietStep(c, s, step, ops, story);
    } else {
      AnswerStep(c, s, step, ops, story);
    }
  }

  lemma QuietStep(c: QuotaFile, s: State, step: Step, ops: seq<M.Op>, story: Story)
    requires ValidFile(c) && Enabled(c, s, step) && (step.Acquire? || step.ReadStep? || step.TakeUp?)
    requires SoFar(c, s.reqs[step.r], ops, story)
    ensures var s' := Apply(c, s, step);
            && step.r in s'.reqs
            && SoFar(c, s'.reqs[step.r], ops + OpsOf(c, s.reqs[step.r], step), story)
  {
    assert ops + [] == ops;
    if step.TakeUp? { TakenUpSoFar(c, s.reqs[step.r], TaskOf(c, s, step.r), ops, story); }
  }

  /** The request after the upstream's answer, or the end of its settle. */
  lemma AnswerShape(c: QuotaFile, s: State, step: Step)
    requires ValidFile(c) && Enabled(c, s, step) && (step.Accept? || Answers(step))
    ensures var s' := Apply(c, s, step);
            && step.r in s'.reqs
            && s'.reqs[step.r] == s.reqs[step.r].(phase := if step.Accept? then Forwarded else Finished)
  {
    if Answers(step) { AnswerReleases(c, s, step); }
  }

  lemma AnswerStep(c: QuotaFile, s: State, step: Step, ops: seq<M.Op>, story: Story)
    requires ValidFile(c) && Enabled(c, s, step) && (step.Accept? || Answers(step))
    requires SoFar(c, s.reqs[step.r], ops, story)
    ensures var s' := Apply(c, s, step);
            && step.r in s'.reqs
            && SoFar(c, s'.reqs[step.r], ops + OpsOf(c, s.reqs[step.r], step), After(story, step, step.r))
  {
    AnswerShape(c, s, step);
    AnsweredSoFar(c, s.reqs[step.r], step, ops, story);
  }

  lemma AnsweredSoFar(c: QuotaFile, q: Request, step: Step, ops: seq<M.Op>, story: Story)
    requires ValidFile(c) && SoFar(c, q, ops, story)
    requires step.Accept? || step.AcceptApplied? ==>
               q.phase.Cleared? && q.task.Some? && (q.task.value.delta.Positive() <==> step.Accept?)
    requires step.RefusedUpstream? ==> q.phase.Cleared?
    requires step.Settle? || step.Lapse? ==> q.phase.Forwarded?
    requires step.Accept? || Answers(step)
    ensures SoFar(c, q.(phase := if step.Accept? then Forwarded else Finished), ops + OpsOf(c, q, step),
                  After(story, step, step.r))
  {
    if step.RefusedUpstream? {
      RefusedSoFar(c, q, ops, story);
    } else if step.AcceptApplied? {
      AppliedSoFar(c, q, ops, story);
    } else if step.Accept? {
      ForwardedSoFar(c, q, ops, story);
    } else {
      SettledSoFar(c, q, ops, story);
    }
  }

  /** Steps of others leave the request as it is. */
  lemma OtherStep(c: QuotaFile, s: State, step: Step, r: int)
    requires ValidFile(c) && Enabled(c, s, step) && !Mine(step, r)
    ensures r in s.reqs <==> r in Apply(c, s, step).reqs
    ensures r in s.reqs ==> Apply(c, s, step).reqs[r] == s.reqs[r]
  {
    if UpstreamStep(step) {
      RequestsStand(c, s, step);
    } else if step.DecideStep? {
      DecidedRequest(c, s, step.r, step.used);
    } else {
      OneRequestChanges(c, s, step);
    }
  }

  /** The handler's effects for the request in the first `n` steps of a run. */
  ghost function Effects(c: QuotaFile, states: seq<State>, steps: seq<Step>, n: nat, r: int): seq<M.Op>
    requires ValidFile(c) && n <= |steps| && n <= |states|
  {
    if n == 0 then []
    else
      var s, step := states[n - 1], steps[n - 1];
      Effects(c, states, steps, n - 1, r) +
      if Mine(step, r) && r in s.reqs && s.reqs[r].user in c.users then OpsOf(c, s.reqs[r], step) else []
  }

  function StoryOf(steps: seq<Step>, n: nat, r: int): Story
    requires n <= |steps|
  {
    if n == 0 then Story(None, 200) else After(StoryOf(steps, n - 1, r), steps[n - 1], r)
  }

  /** Before it arrives a request has done nothing; from then on, what its phase says. */
  ghost predicate InStory(c: QuotaFile, s: State, r: int, ops: seq<M.Op>, story: Story)
    requires ValidFile(c)
  {
    if r in s.reqs then SoFar(c, s.reqs[r], ops, story) else ops == [] && story == Story(None, 200)
  }

  lemma NextInStory(c: QuotaFile, s: State, step: Step, r: int, ops: seq<M.Op>, story: Story)
    requires ValidFile(c) && Enabled(c, s, step) && InStory(c, s, r, ops, story)
    ensures var more :=
              if Mine(step, r) && r in s.reqs && s.reqs[r].user in c.users then OpsOf(c, s.reqs[r], step) else [];
            InStory(c, Apply(c, s, step), r, ops + more, After(story, step, r))
  {
    assert ops + [] == ops;
    if !Mine(step, r) {
      OtherStep(c, s, step, r);
    } else if !step.Arrive? {
      OwnStep(c, s, step, ops, story);
    }
  }

  lemma {:induction false} RunInStory(c: QuotaFile, states: seq<State>, steps: seq<Step>, n: nat, r: int)
    requires ValidFile(c) && IsRun(c, states, steps) && Fresh(states[0]) && n <= |steps|
    ensures InStory(c, states[n], r, Effects(c, states, steps, n, r), StoryOf(steps, n, r))
  {
    if n > 0 {
      RunInStory(c, states, steps, n - 1, r);
      assert StepAt(c, states, steps, n - 1);
      NextInStory(c, states[n - 1], steps[n - 1], r, Effects(c, states, steps, n - 1, r), StoryOf(steps, n - 1, r));
    }
  }

  /** In every run, whatever the others do meanwhile, a request that has been answered has had exactly the
      effects of the handler's critical section, in that order, for the decision on what it read and the
      status that the upstream answered with. */
  lemma HandlerRefined(c: QuotaFile, states: seq<State>, steps: seq<Step>, n: nat, r: int)
    requires ValidFile(c) && IsRun(c, states, steps) && Fresh(states[0]) && n <= |steps|
    requires r in states[n].reqs && states[n].reqs[r].phase.Finished?
    ensures states[n].reqs[r].user in c.users
    ensures var q, story := states[n].reqs[r], StoryOf(steps, n, r);
            var dec := Decide(true, q.write, c.users[q.user].value, AnswersOf(q, story.used));
            Effects(c, states, steps, n, r) == M.LockedOps(true, q.user, q.write, dec, story.status)
  {
    RunInStory(c, states, steps, n, r);
  }

  /** With the audit before it, that is the handler's whole trace of the call that the request stands for. */
  lemma RunIsTrace(c: QuotaFile, states: seq<State>, steps: seq<Step>, n: nat, r: int, mode: M.Mode, call: M.Call)
    requires ValidFile(c) && IsRun(c, states, steps) && Fresh(states[0]) && n <= |steps|
    requires r in states[n].reqs && states[n].reqs[r].phase.Finished? && states[n].reqs[r].user in c.users
    requires mode.failClosed && M.EarlyTrace(mode, call).None?
    requires var q, story := states[n].reqs[r], StoryOf(steps, n, r);
             && call.user == q.user && call.record == c.users[q.user] && M.WriteOf(mode, call) == q.write
             && call.answers == AnswersOf(q, story.used) && call.status == story.status
    ensures M.Trace(mode, call) == [M.CountAudited] + Effects(c, states, steps, n, r)
  {
    HandlerRefined(c, states, steps, n, r);
  }
}
