/** Runs in which the config that a decision is based on is out of date at its verdict: the pool
    overshoots though no write is lost, and a settle ends at once though nobody touches the guest. */
module StaleRead {
  import opened Wrappers
  import opened GoStrings
  import opened MapSums
  import opened Accounting
  import opened Engine
  import opened Quota
  import opened Admission
  import opened Tasks
  import opened Protocol
  import opened Safety
  import opened Boxes

  // ---------------------------------------------------------------- the states

  /** The edit to three cores: decided on two, admitted on one. */
  const EDIT := T(1, 3, 2, 1)

  function Only(phase: Phase, view: Option<View>, task: Option<Task>): map<int, Request> {
    map[1 := Q(1, 3, phase, view, task)]
  }

  function Before(cores: nat, lock: map<string, int>, phase: Phase, view: Option<View>): State {
    Stage(Cpus(cores), Cpus(1), Only(phase, view, None), lock, map[], map[])
  }

  function AtWork(phase: Phase): State {
    Stage(Cpus(1), Cpus(1), Only(phase, Some(V(2)), Some(EDIT)), map["u" := 1], map[1 := EDIT], map[])
  }

  const LANDED := Stage(Cpus(3), Cpus(1), Only(Forwarded, Some(V(2)), Some(EDIT)), map["u" := 1], map[], map[])
                  .(applied := [Applied(EDIT, map[], Box(Cpus(3)))])

  function StateNo(i: nat): State
    requires i <= 7
  {
    if i == 0 then Stage(Cpus(2), Cpus(1), map[], map[], map[], map[])
    else if i == 1 then Before(2, map[], Waiting, None)
    else if i == 2 then Before(2, map["u" := 1], Holding, None)
    else if i == 3 then Before(2, map["u" := 1], Holding, Some(V(2)))
    else if i == 4 then Before(1, map["u" := 1], Holding, Some(V(2)))
    else if i == 5 then AtWork(Cleared)
    else if i == 6 then AtWork(Forwarded)
    else LANDED
  }

  function StepNo(i: nat): Step
    requires i < 7
  {
    if i == 0 then Arrive(1, "u", W(1, 3), 0)
    else if i == 1 then Acquire(1)
    else if i == 2 then ReadBox(1, 2)
    else if i == 3 then ShrinkGuest(1, Box(Cpus(1)))
    else if i == 4 then DecideStep(1, Some(UsageOf(2)))
    else if i == 5 then Accept(1)
    else Land(1, Box(Cpus(3)))
  }

  // ---------------------------------------------------------------- the steps

  ghost predicate Goes(i: nat)
    requires i < 7 && ValidFile(FILE)
  {
    Enabled(FILE, StateNo(i), StepNo(i)) && Apply(FILE, StateNo(i), StepNo(i)) == StateNo(i + 1)
  }

  lemma Goes0()
    requires ValidFile(FILE)
    ensures Goes(0)
  {
    ArriveGoes(StateNo(0), 1, 3);
  }

  lemma Goes1()
    requires ValidFile(FILE)
    ensures Goes(1)
  {
    AcquireGoes(StateNo(1), 1, 3);
  }

  lemma Goes2()
    requires ValidFile(FILE)
    ensures Goes(2)
  {
    ReadGoes(StateNo(2), 1, 3, 2);
  }

  lemma Lowers()
    ensures Shrunk(Box(Cpus(1)), Box(Cpus(2))) && WellSized(Box(Cpus(1)))
  {
    BareBoxes(1);
    BareBoxes(2);
    BareLighter(Cpus(2), 2, Cpus(1), 1);
  }

  lemma Goes3()
    requires ValidFile(FILE)
    ensures Goes(3)
  {
    Lowers();
    ShrinkGoes(StateNo(3), 1, Cpus(1));
    LoweredLeads();
  }

  lemma LoweredLeads()
    ensures StateNo(3).(guests := StateNo(3).guests[1 := Box(Cpus(1))]) == StateNo(4)
  {
    assert StateNo(3).guests[1 := Box(Cpus(1))] == StateNo(4).guests;
  }

  lemma TwoInUse(s: State)
    requires s.guests == map[1 := Box(Cpus(1)), 2 := Box(Cpus(1))]
    ensures forall d :: PoolUsage(s, "p", d) == UsageOf(2).At(d)
  {
    BareBoxes(1);
    forall d ensures PoolUsage(s, "p", d) == UsageOf(2).At(d) { Usages(s, Cpus(1), Cpus(1), 1, 1, d); }
  }

  lemma Goes4()
    requires ValidFile(FILE)
    ensures Goes(4)
  {
    TwoInUse(StateNo(4));
    QuietUsage(StateNo(4), 2);
    DecideGoes(StateNo(4), 1, 3, 2, 1, 2);
    EditBegun();
  }

  lemma EditBegun()
    ensures Begun(StateNo(4), 1, 3, 2, 1) == StateNo(5)
  {}

  lemma Goes5()
    requires ValidFile(FILE)
    ensures Goes(5)
  {
    AcceptGoes(StateNo(5), 1, Q(1, 3, Cleared, Some(V(2)), Some(EDIT)));
  }

  lemma Goes6()
    requires ValidFile(FILE)
    ensures Goes(6) && AsChecked(StateNo(6), StepNo(6))
  {
    LandsAsChecked(StateNo(6), 1, 3, 2, 1, Cpus(1), 1, Cpus(3));
    LandGoes(StateNo(6), 1, Box(Cpus(3)));
    EditLanded();
  }

  lemma EditLanded()
    ensures Landed(StateNo(6), 1, Box(Cpus(3))) == StateNo(7)
  {
    var s, s' := StateNo(6), StateNo(7);
    assert s.guests[1 := Box(Cpus(3))] == s'.guests && s.tasks - {1} == s'.tasks;
  }

  lemma OneGoes(i: nat)
    requires i < 7 && ValidFile(FILE)
    ensures Goes(i)
  {
    if i == 0 { Goes0(); } else if i == 1 { Goes1(); } else if i == 2 { Goes2(); } else if i == 3 { Goes3(); }
    else if i == 4 { Goes4(); } else if i == 5 { Goes5(); } else { Goes6(); }
  }

  /** Nothing times out, nobody destroys anything or touches a guest that a write is pending on, every
      decision is taken on the true usage, and what is applied is what was checked. */
  ghost predicate Fair(s: State, step: Step) {
    && !step.Lapse? && !step.Destroy? && !step.ShrinkContents? && !TouchesPending(s, step)
    && (step.DecideStep? ==> step.used.Some? && forall d :: step.used.value.At(d) == PoolUsage(s, "p", d))
    && AsChecked(s, step)
  }

  lemma OneFair(i: nat)
    requires i < 7 && ValidFile(FILE)
    ensures Fair(StateNo(i), StepNo(i)) && !EndsEarly(StateNo(i), StepNo(i))
  {
    if i == 4 { TwoInUse(StateNo(4)); }
    else if i == 6 { Goes6(); }
    else { OtherFair(i); }
  }

  lemma OtherFair(i: nat)
    requires i < 7 && i != 4 && i != 6
    ensures Fair(StateNo(i), StepNo(i))
  {}

  const STATES: seq<State> := seq(8, i requires 0 <= i <= 7 => StateNo(i))
  const STEPS: seq<Step> := seq(7, i requires 0 <= i < 7 => StepNo(i))

  lemma AtIndex(i: nat)
    requires i < 7
    ensures |STATES| == 8 && |STEPS| == 7
    ensures STATES[i] == StateNo(i) && STATES[i + 1] == StateNo(i + 1) && STEPS[i] == StepNo(i)
  {}

  lemma StepOf(i: nat)
    requires i < 7 && ValidFile(FILE)
    ensures StepAt(FILE, STATES, STEPS, i) && Fair(STATES[i], STEPS[i]) && !EndsEarly(STATES[i], STEPS[i])
  {
    OneGoes(i);
    OneFair(i);
    AtIndex(i);
  }

  lemma WholeRun()
    requires ValidFile(FILE)
    ensures IsRun(FILE, STATES, STEPS) && NothingLost(STATES, STEPS, 7) && |STEPS| == 7
    ensures forall i :: 0 <= i < |STEPS| ==> Fair(STATES[i], STEPS[i])
  {
    forall i | 0 <= i < 7
      ensures StepAt(FILE, STATES, STEPS, i) && Fair(STATES[i], STEPS[i]) && !EndsEarly(STATES[i], STEPS[i])
    {
      StepOf(i);
    }
  }

  // ---------------------------------------------------------------- the overshoot

  /** Quota safety fails without its third condition. Containers of two and one cores are at the limit
      of three; the first is to get three. Its config is read at two cores, someone lowers it to one,
      and the scan truthfully finds two in use: one more is admitted, nothing is lost, what is applied
      is what was checked, and the pool ends at four. */
  lemma StaleReadOvershoots() returns (states: seq<State>, steps: seq<Step>)
    ensures ValidFile(FILE) && Narrowing(FILE) && IsRun(FILE, states, steps) && Fresh(states[0])
    ensures NothingLost(states, steps, |steps|) && forall i :: 0 <= i < |steps| ==> Fair(states[i], steps[i])
    ensures PoolUsage(states[0], "p", Cores) == Ceiling(FILE, states[0], "p", Cores) == 3
    ensures PoolUsage(states[|steps|], "p", Cores) == 4
  {
    states, steps := STATES, STEPS;
    FileIsValid();
    WholeRun();
    AtIndex(0);
    AtIndex(6);
    StartsFull();
    EndsOver();
  }

  lemma StartsFull()
    requires ValidFile(FILE)
    ensures Fresh(StateNo(0)) && PoolUsage(StateNo(0), "p", Cores) == Ceiling(FILE, StateNo(0), "p", Cores) == 3
  {
    BareBoxes(1);
    BareBoxes(2);
    BoxesAreFresh(2, 1);
    CoresUsed(StateNo(0), Cpus(2), Cpus(1), 2, 1);
    CeilingIs(StateNo(0));
  }

  lemma EndsOver()
    ensures PoolUsage(StateNo(7), "p", Cores) == 4
  {
    BareBoxes(1);
    BareBoxes(3);
    EndGuests();
    CoresUsed(StateNo(7), Cpus(3), Cpus(1), 3, 1);
  }

  lemma EndGuests()
    ensures StateNo(7).guests == map[1 := Box(Cpus(3)), 2 := Box(Cpus(1))]
  {}

  // ---------------------------------------------------------------- the settle

  const SETTLING: seq<State> := STATES[..7] + [EndSettle(StateNo(6), 1)]
  const AND_SETTLE: seq<Step> := STEPS[..6] + [Settle(1)]

  lemma SeenAtOnce()
    requires ValidFile(FILE)
    ensures Enabled(FILE, StateNo(6), Settle(1)) && EndsEarly(StateNo(6), Settle(1))
    ensures Apply(FILE, StateNo(6), Settle(1)) == EndSettle(StateNo(6), 1)
  {
    LowerReadsOtherwise();
    assert StateNo(6).tasks[1].req == 1;
    SettleGoes(StateNo(6), 1);
  }

  lemma LowerReadsOtherwise()
    ensures Observed(StateNo(6), StateNo(6).reqs[1])
  {
    assert PrintNat(1) == "1" && PrintNat(2) == "2" && "1"[0] != "2"[0];
    assert Cpus(2)["cores"] != Cpus(1)["cores"];
  }

  /** A settle can end too early though nobody has touched a guest that a write was pending on: the
      config that it compares with was out of date before the write was admitted. */
  lemma StaleSettleEndsEarly() returns (states: seq<State>, steps: seq<Step>)
    ensures ValidFile(FILE) && IsRun(FILE, states, steps) && Fresh(states[0])
    ensures forall i :: 0 <= i < |steps| ==> !TouchesPending(states[i], steps[i]) && !steps[i].Lapse?
    ensures !NothingLost(states, steps, |steps|)
  {
    states, steps := SETTLING, AND_SETTLE;
    FileIsValid();
    AtIndex(0);
    StartsFull();
    SettlingIs();
    forall i | 0 <= i < 7
      ensures StepAt(FILE, SETTLING, AND_SETTLE, i)
      ensures !TouchesPending(SETTLING[i], AND_SETTLE[i]) && !AND_SETTLE[i].Lapse?
    {
      SettlingStep(i);
    }
    SettlingLoses();
  }

  lemma SettlingLoses()
    requires ValidFile(FILE)
    ensures !NothingLost(SETTLING, AND_SETTLE, 7)
  {
    SettlingIs();
    SeenAtOnce();
    assert EndsEarly(SETTLING[6], AND_SETTLE[6]);
  }

  lemma SettlingIs()
    ensures |SETTLING| == 8 && |AND_SETTLE| == 7 && SETTLING[6] == StateNo(6) && AND_SETTLE[6] == Settle(1)
    ensures forall i :: 0 <= i < 7 ==> SETTLING[i] == STATES[i]
    ensures forall i :: 0 <= i < 6 ==> AND_SETTLE[i] == STEPS[i]
  {
    AtIndex(6);
  }

  lemma SettlingStep(i: nat)
    requires i < 7 && ValidFile(FILE)
    ensures |SETTLING| == 8 && |AND_SETTLE| == 7 && StepAt(FILE, SETTLING, AND_SETTLE, i)
    ensures !TouchesPending(SETTLING[i], AND_SETTLE[i]) && !AND_SETTLE[i].Lapse?
  {
    SettlingIs();
    if i < 6 {
      StepOf(i);
      assert StepAt(FILE, STATES, STEPS, i);
    } else {
      SeenAtOnce();
    }
  }
}
