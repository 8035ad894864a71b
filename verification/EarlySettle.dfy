/** A run that overshoots without any timeout: someone else edits a guest while a write on it is
    pending, the settle takes that for the write, and the next write is admitted too early. */
module EarlySettle {
  import opened Wrappers
  import opened MapSums
  import opened Accounting
  import opened Engine
  import opened Quota
  import opened Admission
  import opened Tasks
  import opened Protocol
  import opened Safety
  import opened Boxes

  // ---------------------------------------------------------------- the states

  /** The edits of two containers of one core to two cores. */
  function E(v: int): Task {
    T(v, 2, 1, 1)
  }

  const LOST: map<int, Lost> := map[1 := Lost(E(1), Some(Box(Noted(1))), map[], None)]
  const LOST_APPLIED: map<int, Lost> := map[1 := Lost(E(1), Some(Box(Noted(1))), map[], Some(FIRST))]

  const FIRST := Applied(E(1), map[], Box(Noted(2)))
  const SECOND := Applied(E(2), map[], Box(Cpus(2)))

  /** With the first request alone. */
  function One(phase: Phase, view: Option<View>, task: Option<Task>): map<int, Request> {
    map[1 := Q(1, 2, phase, view, task)]
  }

  /** With the second request too, once the first is answered. */
  function Both(phase: Phase, view: Option<View>, task: Option<Task>): map<int, Request> {
    map[1 := Q(1, 2, Finished, Some(V(1)), Some(E(1))), 2 := Q(2, 2, phase, view, task)]
  }

  function AtWork(one: Config, lock: map<string, int>, phase: Phase): State {
    Stage(one, Cpus(1), One(phase, Some(V(1)), Some(E(1))), lock, map[1 := E(1)],
          if phase.Finished? then LOST else map[])
  }

  function Alone(lock: map<string, int>, phase: Phase, view: Option<View>): State {
    Stage(Cpus(1), Cpus(1), One(phase, view, None), lock, map[], map[])
  }

  function After(lock: map<string, int>, phase: Phase, view: Option<View>): State {
    Stage(Noted(1), Cpus(1), Both(phase, view, None), lock, map[1 := E(1)], LOST)
  }

  function TwoAtWork(phase: Phase): State {
    Stage(Noted(1), Cpus(1), Both(phase, Some(V(1)), Some(E(2))), map["u" := 2], map[1 := E(1), 2 := E(2)], LOST)
  }

  const ONE_LANDED := Stage(Noted(2), Cpus(1), Both(Forwarded, Some(V(1)), Some(E(2))), map["u" := 2],
                            map[2 := E(2)], LOST_APPLIED)
  const BOTH_LANDED := Stage(Noted(2), Cpus(2), Both(Forwarded, Some(V(1)), Some(E(2))), map["u" := 2],
                             map[], LOST_APPLIED).(applied := [SECOND])

  function StateNo(i: nat): State
    requires i <= 14
  {
    if i == 0 then Stage(Cpus(1), Cpus(1), map[], map[], map[], map[])
    else if i == 1 then Alone(map[], Waiting, None)
    else if i == 2 then Alone(map["u" := 1], Holding, None)
    else if i == 3 then Alone(map["u" := 1], Holding, Some(V(1)))
    else if i == 4 then AtWork(Cpus(1), map["u" := 1], Cleared)
    else if i == 5 then AtWork(Cpus(1), map["u" := 1], Forwarded)
    else if i == 6 then AtWork(Noted(1), map["u" := 1], Forwarded)
    else if i == 7 then AtWork(Noted(1), map[], Finished)
    else if i == 8 then After(map[], Waiting, None)
    else if i == 9 then After(map["u" := 2], Holding, None)
    else if i == 10 then After(map["u" := 2], Holding, Some(V(1)))
    else if i == 11 then TwoAtWork(Cleared)
    else if i == 12 then TwoAtWork(Forwarded)
    else if i == 13 then ONE_LANDED
    else BOTH_LANDED
  }

  function StepNo(i: nat): Step
    requires i < 14
  {
    if i == 0 then Arrive(1, "u", W(1, 2), 0)
    else if i == 1 then Acquire(1)
    else if i == 2 then ReadBox(1, 1)
    else if i == 3 then DecideStep(1, Some(UsageOf(2)))
    else if i == 4 then Accept(1)
    else if i == 5 then ShrinkGuest(1, Box(Noted(1)))
    else if i == 6 then Settle(1)
    else if i == 7 then Arrive(2, "u", W(2, 2), 0)
    else if i == 8 then Acquire(2)
    else if i == 9 then ReadBox(2, 1)
    else if i == 10 then DecideStep(2, Some(UsageOf(2)))
    else if i == 11 then Accept(2)
    else if i == 12 then Land(1, Box(Noted(2)))
    else Land(2, Box(Cpus(2)))
  }

  // ---------------------------------------------------------------- the run

  /** Step number `i` can be taken, and leads on. */
  ghost predicate Goes(i: nat)
    requires i < 14 && ValidFile(FILE)
  {
    Enabled(FILE, StateNo(i), StepNo(i)) && Apply(FILE, StateNo(i), StepNo(i)) == StateNo(i + 1)
  }

  lemma Goes0()
    requires ValidFile(FILE)
    ensures Goes(0)
  {
    ArriveGoes(StateNo(0), 1, 2);
  }

  lemma Goes1()
    requires ValidFile(FILE)
    ensures Goes(1)
  {
    AcquireGoes(StateNo(1), 1, 2);
  }

  lemma Goes2()
    requires ValidFile(FILE)
    ensures Goes(2)
  {
    ReadGoes(StateNo(2), 1, 2, 1);
  }

  lemma TwoCores(s: State, one: Config)
    requires (one == Cpus(1) || one == Noted(1)) && s.guests == map[1 := Box(one), 2 := Box(Cpus(1))]
    ensures forall d :: PoolUsage(s, "p", d) == UsageOf(2).At(d)
  {
    BareBoxes(1);
    forall d ensures PoolUsage(s, "p", d) == UsageOf(2).At(d) { Usages(s, one, Cpus(1), 1, 1, d); }
  }

  lemma Goes3()
    requires ValidFile(FILE)
    ensures Goes(3)
  {
    TwoCores(StateNo(3), Cpus(1));
    QuietUsage(StateNo(3), 2);
    DecideGoes(StateNo(3), 1, 2, 1, 1, 2);
    FirstBegun();
  }

  lemma FirstBegun()
    ensures Begun(StateNo(3), 1, 2, 1, 1) == StateNo(4)
  {}

  lemma Goes4()
    requires ValidFile(FILE)
    ensures Goes(4)
  {
    AcceptGoes(StateNo(4), 1, Q(1, 2, Cleared, Some(V(1)), Some(E(1))));
  }

  lemma Goes5()
    requires ValidFile(FILE)
    ensures Goes(5)
  {
    NoteShrinks();
    ShrinkGoes(StateNo(5), 1, Noted(1));
    NoteLeads();
  }

  lemma NoteLeads()
    ensures StateNo(5).(guests := StateNo(5).guests[1 := Box(Noted(1))]) == StateNo(6)
  {
    assert StateNo(5).guests[1 := Box(Noted(1))] == StateNo(6).guests;
  }

  lemma Goes6()
    requires ValidFile(FILE)
    ensures Goes(6) && EndsEarly(StateNo(6), StepNo(6))
  {
    NoteIsSeen();
    EndsOnNote();
    SettleGoes(StateNo(6), 1);
  }

  lemma NoteIsSeen()
    ensures Observed(StateNo(6), Q(1, 2, Forwarded, Some(V(1)), Some(E(1))))
  {
    assert |Noted(1)| == 2 && |Cpus(1)| == 1 by { assert "cores"[0] != "description"[0]; }
  }

  lemma EndsOnNote()
    ensures var s := StateNo(6);
            && 1 in s.reqs && s.reqs[1] == Q(1, 2, Forwarded, Some(V(1)), Some(E(1)))
            && !TaskOver(s, 1) && EndSettle(s, 1) == StateNo(7)
  {
    assert StateNo(6).tasks[1].req == 1;
  }

  lemma Goes7()
    requires ValidFile(FILE)
    ensures Goes(7)
  {
    ArriveGoes(StateNo(7), 2, 2);
    SecondArrived();
  }

  lemma SecondArrived()
    ensures StateNo(7).(reqs := StateNo(7).reqs[2 := Q(2, 2, Waiting, None, None)]) == StateNo(8)
  {
    assert StateNo(7).reqs[2 := Q(2, 2, Waiting, None, None)] == StateNo(8).reqs;
  }

  lemma Goes8()
    requires ValidFile(FILE)
    ensures Goes(8)
  {
    AcquireGoes(StateNo(8), 2, 2);
  }

  lemma Goes9()
    requires ValidFile(FILE)
    ensures Goes(9)
  {
    ReadGoes(StateNo(9), 2, 2, 1);
  }

  lemma Goes10()
    requires ValidFile(FILE) && Sound(StateNo(10))
    ensures Goes(10)
  {
    TwoCores(StateNo(10), Noted(1));
    TrueUsageSuffices(FILE, StateNo(10), 2, Some(UsageOf(2)));
    DecideGoes(StateNo(10), 2, 2, 1, 1, 2);
    SecondBegun();
  }

  lemma SecondBegun()
    ensures Begun(StateNo(10), 2, 2, 1, 1) == StateNo(11)
  {}

  lemma Goes11()
    requires ValidFile(FILE)
    ensures Goes(11)
  {
    AcceptGoes(StateNo(11), 2, Q(2, 2, Cleared, Some(V(1)), Some(E(2))));
  }

  lemma Goes12()
    requires ValidFile(FILE)
    ensures Goes(12) && AsChecked(StateNo(12), StepNo(12))
  {
    LandsAsChecked(StateNo(12), 1, 2, 1, 1, Noted(1), 1, Noted(2));
    LandGoes(StateNo(12), 1, Box(Noted(2)));
    FirstLanded();
  }

  lemma FirstLanded()
    ensures Landed(StateNo(12), 1, Box(Noted(2))) == StateNo(13)
  {
    var s, s' := StateNo(12), StateNo(13);
    assert s.guests[1 := Box(Noted(2))] == s'.guests && s.tasks - {1} == s'.tasks;
  }

  lemma Goes13()
    requires ValidFile(FILE)
    ensures Goes(13) && AsChecked(StateNo(13), StepNo(13))
  {
    LandsAsChecked(StateNo(13), 2, 2, 1, 1, Cpus(1), 1, Cpus(2));
    LandGoes(StateNo(13), 2, Box(Cpus(2)));
    SecondLanded();
  }

  lemma SecondLanded()
    ensures Landed(StateNo(13), 2, Box(Cpus(2))) == StateNo(14)
  {
    var s, s' := StateNo(13), StateNo(14);
    assert s.guests[2 := Box(Cpus(2))] == s'.guests && s.tasks - {2} == s'.tasks;
  }

  lemma {:induction false} InOrder(n: nat)
    requires n <= 14 && ValidFile(FILE)
    ensures Sound(StateNo(n))
  {
    if n == 0 {
      StartInOrder();
    } else {
      InOrder(n - 1);
      OrderKept(n - 1);
    }
  }

  lemma StartInOrder()
    requires ValidFile(FILE)
    ensures Sound(StateNo(0)) && Fresh(StateNo(0))
  {
    BoxesAreFresh(1, 1);
    FreshIsSound(StateNo(0));
  }

  lemma OrderKept(i: nat)
    requires i < 14 && ValidFile(FILE) && Sound(StateNo(i))
    ensures Sound(StateNo(i + 1))
  {
    OneGoes(i);
    LockKept(FILE, StateNo(i), StepNo(i));
    TasksKept(FILE, StateNo(i), StepNo(i));
    ViewsKept(FILE, StateNo(i), StepNo(i));
  }

  lemma OneGoes(i: nat)
    requires i < 14 && ValidFile(FILE) && Sound(StateNo(i))
    ensures Goes(i)
  {
    if i < 7 { FirstGoes(i); } else { SecondGoes(i); }
  }

  lemma FirstGoes(i: nat)
    requires i < 7 && ValidFile(FILE)
    ensures Goes(i)
  {
    if i == 0 { Goes0(); } else if i == 1 { Goes1(); } else if i == 2 { Goes2(); }
    else if i == 3 { Goes3(); } else if i == 4 { Goes4(); } else if i == 5 { Goes5(); } else { Goes6(); }
  }

  lemma SecondGoes(i: nat)
    requires 7 <= i < 14 && ValidFile(FILE) && Sound(StateNo(i))
    ensures Goes(i)
  {
    if i == 7 { Goes7(); } else if i == 8 { Goes8(); } else if i == 9 { Goes9(); }
    else if i == 10 { Goes10(); } else if i == 11 { Goes11(); } else if i == 12 { Goes12(); } else { Goes13(); }
  }

  /** What every step of the run keeps to: nothing times out, nobody destroys or takes away anything,
      every decision is taken on the true usage and on the guest as it is, and what is applied is
      what was checked. */
  ghost predicate Fair(s: State, step: Step) {
    && !step.Lapse? && !step.Destroy? && !step.ShrinkContents?
    && (step.ShrinkGuest? && step.vmid in s.guests ==> SameWeight(step.g, s.guests[step.vmid]))
    && (step.DecideStep? ==> step.used.Some? && forall d :: step.used.value.At(d) == PoolUsage(s, "p", d))
    && StartsCurrent(s, step) && AsChecked(s, step)
  }

  ghost predicate SameWeight(a: Guest, b: Guest) {
    forall contents, d :: GuestFoot(contents, a, d) == GuestFoot(contents, b, d)
  }

  lemma OneFair(i: nat)
    requires i < 14 && ValidFile(FILE)
    ensures Fair(StateNo(i), StepNo(i))
  {
    if i == 3 || i == 10 { DecisionFair(i); }
    else if i == 5 { NoteFair(); }
    else if i == 12 { Goes12(); }
    else if i == 13 { Goes13(); }
    else { OtherFair(i); }
  }

  lemma DecisionFair(i: nat)
    requires i == 3 || i == 10
    ensures Fair(StateNo(i), StepNo(i))
  {
    if i == 3 { TwoCores(StateNo(3), Cpus(1)); } else { TwoCores(StateNo(10), Noted(1)); }
  }

  lemma NoteFair()
    ensures Fair(StateNo(5), StepNo(5))
  {
    NoteWeighsNothing();
  }

  lemma OtherFair(i: nat)
    requires i < 14 && i !in {3, 5, 10, 12, 13}
    ensures Fair(StateNo(i), StepNo(i))
  {}

  lemma NoteWeighsNothing()
    ensures SameWeight(Box(Noted(1)), Box(Cpus(1)))
  {
    BareBoxes(1);
    forall contents, d ensures GuestFoot(contents, Box(Noted(1)), d) == GuestFoot(contents, Box(Cpus(1)), d) {
      BareFoot(contents, Noted(1), 1, d);
      BareFoot(contents, Cpus(1), 1, d);
    }
  }

  /** Quota safety fails without its first condition. In this run nothing times out, nobody raises
      anything behind the proxy's back, what is applied is what was checked, and every decision is
      taken on the true usage and on the guest as it is. At step `at` someone edits a guest that an
      admitted write is pending on, without changing what it weighs; the very next step ends the
      settle early, the next write is admitted, and when both have landed the pool has four cores on
      a limit of three. */
  lemma EarlySettleOvershoots() returns (states: seq<State>, steps: seq<Step>, at: nat)
    ensures ValidFile(FILE) && Narrowing(FILE) && IsRun(FILE, states, steps) && Fresh(states[0])
    ensures forall i :: 0 <= i < |steps| ==> Fair(states[i], steps[i])
    ensures at + 1 < |steps| && steps[at].ShrinkGuest? && TouchesPending(states[at], steps[at])
    ensures forall d :: PoolUsage(states[at + 1], "p", d) == PoolUsage(states[at], "p", d)
    ensures steps[at + 1].Settle? && EndsEarly(states[at + 1], steps[at + 1])
    ensures PoolUsage(states[|steps|], "p", Cores) > Ceiling(FILE, states[0], "p", Cores)
  {
    states, steps, at := STATES, STEPS, 5;
    FileIsValid();
    WholeRun();
    EndsAtOnce();
    Ends();
  }

  lemma WholeRun()
    requires ValidFile(FILE)
    ensures IsRun(FILE, STATES, STEPS) && |STEPS| == 14
    ensures forall i :: 0 <= i < |STEPS| ==> Fair(STATES[i], STEPS[i])
  {
    forall i | 0 <= i < 14 ensures StepAt(FILE, STATES, STEPS, i) && Fair(STATES[i], STEPS[i]) {
      StepOf(i);
      FairOf(i);
    }
  }

  lemma Ends()
    requires ValidFile(FILE)
    ensures Fresh(STATES[0])
    ensures PoolUsage(STATES[14], "p", Cores) > Ceiling(FILE, STATES[0], "p", Cores)
  {
    AtIndex(0);
    AtIndex(13);
    StartInOrder();
    StartCeiling();
    EndUsage();
  }

  lemma EndsAtOnce()
    requires ValidFile(FILE)
    ensures STEPS[5].ShrinkGuest? && TouchesPending(STATES[5], STEPS[5])
    ensures forall d :: PoolUsage(STATES[6], "p", d) == PoolUsage(STATES[5], "p", d)
    ensures STEPS[6].Settle? && EndsEarly(STATES[6], STEPS[6])
  {
    AtIndex(5);
    AtIndex(6);
    Goes6();
    TwoCores(StateNo(5), Cpus(1));
    TwoCores(StateNo(6), Noted(1));
  }

  const STATES: seq<State> := seq(15, i requires 0 <= i <= 14 => StateNo(i))
  const STEPS: seq<Step> := seq(14, i requires 0 <= i < 14 => StepNo(i))

  lemma StepOf(i: nat)
    requires i < 14 && ValidFile(FILE)
    ensures StepAt(FILE, STATES, STEPS, i)
  {
    InOrder(i);
    OneGoes(i);
    AtIndex(i);
  }

  lemma FairOf(i: nat)
    requires i < 14 && ValidFile(FILE)
    ensures Fair(STATES[i], STEPS[i])
  {
    OneFair(i);
    AtIndex(i);
  }

  lemma AtIndex(i: nat)
    requires i < 14
    ensures |STATES| == 15 && |STEPS| == 14
    ensures STATES[i] == StateNo(i) && STATES[i + 1] == StateNo(i + 1) && STEPS[i] == StepNo(i)
  {}

  lemma StartCeiling()
    requires ValidFile(FILE)
    ensures Ceiling(FILE, StateNo(0), "p", Cores) == 3
  {
    BareBoxes(1);
    CoresUsed(StateNo(0), Cpus(1), Cpus(1), 1, 1);
    CeilingIs(StateNo(0));
  }

  lemma EndUsage()
    ensures PoolUsage(StateNo(14), "p", Cores) == 4
  {
    BareBoxes(2);
    EndGuests();
    CoresUsed(StateNo(14), Noted(2), Cpus(2), 2, 2);
  }

  lemma EndGuests()
    ensures StateNo(14).guests == map[1 := Box(Noted(2)), 2 := Box(Cpus(2))]
  {}
}
