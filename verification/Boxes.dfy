/** Containers without drives, edits of their cores, and the steps by which such edits go: the parts
    that concrete runs of the protocol are made of. */
module Boxes {
  import opened Wrappers
  import opened GoStrings
  import opened MapSums
  import opened Accounting
  import opened Engine
  import opened Deltas
  import opened Landing
  import opened Quota
  import opened Admission
  import opened Tasks
  import opened Protocol
  import opened Safety
  import opened DiskSpecs
  import opened Counterexamples

  /** One user, with a limit of three cores. */
  const RECORD := UserQuota("p", 3, 1024, 2, map[], map[])
  const FILE := QuotaFile(0, map["u" := Some(RECORD)])

  lemma FileIsValid()
    ensures ValidFile(FILE) && Narrowing(FILE)
  {
    forall a, b | SharePool(FILE, a, b) ensures a == b { assert a == "u" && b == "u"; }
    forall node, d ensures NoHigher(Limit(RECORD, node, d), Limit(RECORD, "", d)) {}
  }

  // ---------------------------------------------------------------- containers

  /** So many cores and default memory; the same with a description. */
  function Cpus(n: nat): Config {
    map["cores" := PrintNat(n)]
  }

  function Noted(n: nat): Config {
    map["cores" := PrintNat(n), "description" := "x"]
  }

  function Box(cfg: Config): Guest {
    Guest("n", "lxc", "p", cfg)
  }

  /** A container with so many cores, default memory and no drives. */
  predicate Bare(cfg: Config, cores: nat) {
    DrivesOf(cfg) == map[] && CoresEach("lxc", cfg) == cores && MemoryOf(cfg) == 512
  }

  lemma NoDisk(k: string)
    requires k == "cores" || k == "description"
    ensures !IsDiskKey(k)
  {
    DiskKeyEnds(k);
    assert "cores"[4] == 's' && "description"[10] == 'n';
    assert |"rootfs"| == 6 && |"cores"| == 5 && |"description"| == 11;
  }

  lemma NoDrives(cfg: Config)
    requires cfg.Keys <= {"cores", "description"}
    ensures DrivesOf(cfg) == map[] && MemoryOf(cfg) == 512
  {
    NoDisk("cores");
    NoDisk("description");
    assert "cores"[0] == 'c' && "memory"[0] == 'm' && "description"[0] == 'd';
    assert "memory" !in cfg;
  }

  lemma BareConfig(cfg: Config, cores: nat)
    requires cfg.Keys <= {"cores", "description"} && "cores" in cfg && cores < 10 && cfg["cores"] == PrintNat(cores)
    ensures Bare(cfg, cores)
  {
    NoDrives(cfg);
    DigitReads(cores, 0);
  }

  lemma BareBoxes(n: nat)
    requires n < 10
    ensures Bare(Cpus(n), n) && Bare(Noted(n), n) && Cpus(n) != Noted(n)
  {
    assert "cores"[0] != "description"[0];
    BareConfig(Cpus(n), n);
    BareConfig(Noted(n), n);
    assert "description" in Noted(n) && "description" !in Cpus(n);
  }

  lemma BareFoot(contents: Contents, cfg: Config, cores: nat, d: Dim)
    requires Bare(cfg, cores)
    ensures GuestFoot(contents, Box(cfg), d) ==
            match d case Cores => cores case Memory => 512 case Instances => 1 case Disk(_) => 0
  {
    if d.Disk? { SumZero(DriveMap(contents, "n", DrivesOf(cfg), d.storage)); }
  }

  lemma BareSized(cfg: Config, cores: nat)
    requires Bare(cfg, cores)
    ensures WellSized(Box(cfg))
  {
    forall contents, d { BareFoot(contents, cfg, cores, d); }
  }

  /** Fewer cores are lighter, and a description changes nothing. */
  lemma BareLighter(cfg: Config, cores: nat, cfg': Config, cores': nat)
    requires Bare(cfg, cores) && Bare(cfg', cores') && cores' <= cores
    ensures Lighter(Box(cfg'), Box(cfg)) && Shrunk(Box(cfg'), Box(cfg)) && WellSized(Box(cfg'))
  {
    BareSized(cfg, cores);
    BareSized(cfg', cores');
    LighterShrunk(Box(cfg'), Box(cfg));
  }

  // ---------------------------------------------------------------- edits

  lemma Merges(n: nat, m: nat)
    ensures Merge(Cpus(m), Cpus(n)) == Cpus(n) && Merge(Noted(m), Cpus(n)) == Noted(n)
  {
    assert "cores"[0] == 'c' && "description"[0] == 'd';
  }

  /** An edit to `n` cores of a container that has `m`. */
  lemma CpusDelta(n: nat, m: nat)
    requires n < 10 && m < 10
    ensures ConfigDelta("lxc", Cpus(n), Cpus(m)) == NO_DELTA.(cores := n - m)
  {
    BareBoxes(n);
    BareBoxes(m);
    Merges(n, m);
    CoresAndMemoryExact("lxc", Cpus(n), Cpus(m));
    NoDisk("cores");
    assert FreshOrders(Cpus(n), Cpus(m)) == map[];
    assert OrderedDisks(map[]) == map[];
  }

  /** It lands as checked, on the container as it was read or one of fewer cores. */
  lemma CpusLand(contents: Contents, n: nat, m: nat, cur: Config, k: nat, cfg: Config)
    requires n < 10 && m < 10 && k < 10 && k <= m
    requires (cur == Cpus(k) && cfg == Cpus(n)) || (cur == Noted(k) && cfg == Noted(n))
    ensures EditCharged(contents, Cpus(n), Box(Cpus(m)), Box(cur), Box(cfg)) && Lighter(Box(cur), Box(Cpus(m)))
  {
    BareBoxes(n);
    BareBoxes(m);
    BareBoxes(k);
    Merges(n, k);
    MergeLands(contents, "n", Cpus(n), cur);
    forall d { OnlyNewUncharged(contents, "n", Cpus(n), Cpus(m), d); }
    BareLighter(Cpus(m), m, cur, k);
  }

  // ---------------------------------------------------------------- requests and states

  /** The edit of container `v` to `n` cores. */
  function W(v: int, n: nat): Write {
    Write.Edit("n", "lxc", v, Cpus(n))
  }

  /** It is at work: decided on `m` cores, admitted on `k`. */
  function T(v: int, n: nat, m: nat, k: nat): Task {
    Task(v, "u", "p", W(v, n), Some(Box(Cpus(m))), Some(Box(Cpus(k))), map[], "", NO_DELTA.(cores := n - m))
  }

  /** The config was read, with `m` cores. */
  function V(m: nat): View {
    View(Some(Box(Cpus(m))), Answer(m), map[], "", map[])
  }

  function Answer(m: nat): Reads {
    Reads(Some(Cpus(m)), None, None, None, None)
  }

  function Q(v: int, n: nat, phase: Phase, view: Option<View>, task: Option<Task>): Request {
    Request("u", W(v, n), v, phase, view, task)
  }

  /** The two containers, the requests, who holds the lock, the writes at work and those lost. */
  function Stage(one: Config, two: Config, reqs: map<int, Request>, lock: map<string, int>, tasks: map<int, Task>,
                 lapsed: map<int, Lost>): State {
    State(map[1 := Box(one), 2 := Box(two)], map[], lock, reqs, tasks, lapsed, [])
  }

  /** What a scan sees of two containers. */
  function UsageOf(cores: nat): Usage {
    Usage(cores, 1024, 2, map[])
  }

  lemma SumPair(x: int, y: int)
    ensures Sum(map[1 := x, 2 := y]) == x + y
  {
    SumSingle(1, x);
    SumChange(map[1 := x], map[1 := x, 2 := y], 2);
  }

  lemma WeightOfTwo(s: State, one: Config, two: Config, x: int, y: int, v: int, d: Dim)
    requires s.guests == map[1 := Box(one), 2 := Box(two)]
    requires x == GuestFoot(s.contents, Box(one), d) && y == GuestFoot(s.contents, Box(two), d)
    ensures Get(PoolMap(s, "p", d), v) == Get(map[1 := x, 2 := y], v)
  {}

  lemma TwoGuests(s: State, one: Config, two: Config, d: Dim)
    requires s.guests == map[1 := Box(one), 2 := Box(two)]
    ensures PoolUsage(s, "p", d) == GuestFoot(s.contents, Box(one), d) + GuestFoot(s.contents, Box(two), d)
  {
    var x, y := GuestFoot(s.contents, Box(one), d), GuestFoot(s.contents, Box(two), d);
    SumPair(x, y);
    forall v ensures Get(PoolMap(s, "p", d), v) == Get(map[1 := x, 2 := y], v) {
      WeightOfTwo(s, one, two, x, y, v, d);
    }
    SumEqual(PoolMap(s, "p", d), map[1 := x, 2 := y]);
  }

  lemma Usages(s: State, one: Config, two: Config, a: nat, b: nat, d: Dim)
    requires Bare(one, a) && Bare(two, b) && s.guests == map[1 := Box(one), 2 := Box(two)]
    ensures PoolUsage(s, "p", d) == UsageOf(a + b).At(d)
  {
    BareFoot(s.contents, one, a, d);
    BareFoot(s.contents, two, b, d);
    TwoGuests(s, one, two, d);
  }

  // ---------------------------------------------------------------- steps

  lemma ArriveGoes(s: State, v: int, n: nat)
    requires ValidFile(FILE) && v !in s.reqs
    ensures Enabled(FILE, s, Arrive(v, "u", W(v, n), 0))
    ensures Apply(FILE, s, Arrive(v, "u", W(v, n), 0)) == s.(reqs := s.reqs[v := Q(v, n, Waiting, None, None)])
  {}

  lemma AcquireGoes(s: State, v: int, n: nat)
    requires ValidFile(FILE) && v in s.reqs && s.reqs[v] == Q(v, n, Waiting, None, None) && "u" !in s.lock
    ensures Enabled(FILE, s, Acquire(v))
    ensures Apply(FILE, s, Acquire(v)) ==
            s.(reqs := s.reqs[v := Q(v, n, Holding, None, None)], lock := s.lock["u" := v])
  {}

  /** The config is read. */
  function ReadBox(v: int, m: nat): Step {
    ReadStep(v, Answer(m), map[], "", map[])
  }

  lemma ReadGoes(s: State, v: int, n: nat, m: nat)
    requires ValidFile(FILE) && v in s.reqs && s.reqs[v] == Q(v, n, Holding, None, None)
    requires v in s.guests && s.guests[v] == Box(Cpus(m))
    ensures Enabled(FILE, s, ReadBox(v, m))
    ensures Apply(FILE, s, ReadBox(v, m)) == s.(reqs := s.reqs[v := Q(v, n, Holding, Some(V(m)), None)])
  {
    assert PreOf(s, s.reqs[v]) == Some(Box(Cpus(m)));
  }

  lemma ShrinkGoes(s: State, v: int, cfg: Config)
    requires ValidFile(FILE) && v in s.guests && s.lapsed == map[]
    requires WellSized(Box(cfg)) && Shrunk(Box(cfg), s.guests[v])
    ensures Enabled(FILE, s, ShrinkGuest(v, Box(cfg)))
    ensures Apply(FILE, s, ShrinkGuest(v, Box(cfg))) == s.(guests := s.guests[v := Box(cfg)])
  {}

  /** The verdict on an edit to `n` cores, read at `m`, on a usage of so many cores. */
  lemma EditAllowed(v: int, n: nat, m: nat, q: Request, used: nat)
    requires n < 10 && m < 10 && m < n && used + n - m <= 3
    requires q == Q(v, n, Holding, Some(V(m)), None)
    ensures DeltaRead(q) == Some(NO_DELTA.(cores := n - m))
    ensures Decide(true, q.write, RECORD, AnswersOf(q, Some(UsageOf(used)))).allowed
  {
    CpusDelta(n, m);
    UsageIsNoDelta(q, Some(UsageOf(used)));
    DecideClosed(q.write, RECORD, AnswersOf(q, Some(UsageOf(used))));
    forall d ensures FitsAt(Limit(RECORD, "n", d), UsageOf(used).At(d), NO_DELTA.(cores := n - m).At(d)) {}
  }

  lemma DecideGoes(s: State, v: int, n: nat, m: nat, k: nat, used: nat)
    requires n < 10 && m < n && used + n - m <= 3
    requires v in s.reqs && s.reqs[v] == Q(v, n, Holding, Some(V(m)), None)
    requires v in s.guests && s.guests[v] == Box(Cpus(k)) && v !in s.tasks
    requires ValidFile(FILE) && UsageRead(s, "p", Some(UsageOf(used)))
    ensures Enabled(FILE, s, DecideStep(v, Some(UsageOf(used))))
    ensures Apply(FILE, s, DecideStep(v, Some(UsageOf(used)))) == Begun(s, v, n, m, k)
  {
    EditAllowed(v, n, m, s.reqs[v], used);
    DecidedShape(FILE, s, v, Some(UsageOf(used)));
    BegunIs(s, v, n, m, k);
  }

  /** With no write at work or lost, the true usage is what a decision may read. */
  lemma QuietUsage(s: State, used: nat)
    requires s.tasks == map[] && s.lapsed == map[] && forall d :: PoolUsage(s, "p", d) == UsageOf(used).At(d)
    ensures UsageRead(s, "p", Some(UsageOf(used)))
  {
    forall d ensures Lapsed(s, "p", d) == Pending(s, "p", d) == 0 {
      SumZero(LapsedMap(s, "p", d));
      SumZero(PendingMap(s, "p", d));
    }
  }

  /** The state with the edit of `v` at work. */
  function Begun(s: State, v: int, n: nat, m: nat, k: nat): State
    requires v in s.reqs
  {
    s.(reqs := s.reqs[v := Q(v, n, Cleared, Some(V(m)), Some(T(v, n, m, k)))], tasks := s.tasks[v := T(v, n, m, k)])
  }

  lemma BegunIs(s: State, v: int, n: nat, m: nat, k: nat)
    requires ValidFile(FILE) && v in s.reqs && s.reqs[v] == Q(v, n, Holding, Some(V(m)), None)
    requires v in s.guests && s.guests[v] == Box(Cpus(k)) && v !in s.tasks
    requires DeltaRead(s.reqs[v]) == Some(NO_DELTA.(cores := n - m))
    ensures Workable(s, s.reqs[v], "p") && Started(FILE, s, v) == Begun(s, v, n, m, k)
  {
    assert PreOf(s, s.reqs[v]) == Some(Box(Cpus(k)));
    assert TaskOf(FILE, s, v) == T(v, n, m, k);
  }

  lemma AcceptGoes(s: State, r: int, q: Request)
    requires ValidFile(FILE) && r in s.reqs && s.reqs[r] == q && q.phase.Cleared?
    requires q.task.Some? && q.task.value.delta.Positive()
    ensures Enabled(FILE, s, Accept(r))
    ensures Apply(FILE, s, Accept(r)) == s.(reqs := s.reqs[r := q.(phase := Forwarded)])
  {}

  lemma SettleGoes(s: State, r: int)
    requires ValidFile(FILE) && r in s.reqs && s.reqs[r].phase.Forwarded? && Observed(s, s.reqs[r])
    ensures Enabled(FILE, s, Settle(r)) && Apply(FILE, s, Settle(r)) == EndSettle(s, r)
  {}

  lemma LandGoes(s: State, v: int, g: Guest)
    requires ValidFile(FILE) && CanLand(s, v, g) && s.tasks[v].req == v
    requires v in s.reqs && !s.reqs[v].phase.Cleared?
    ensures Enabled(FILE, s, Land(v, g)) && Apply(FILE, s, Land(v, g)) == Landed(s, v, g)
  {}

  /** The edit can land as checked. */
  lemma LandsAsChecked(s: State, v: int, n: nat, m: nat, j: nat, cur: Config, k: nat, cfg: Config)
    requires n < 10 && m < 10 && k < 10 && k <= m && j < 10
    requires v in s.tasks && s.tasks[v] == T(v, n, m, j) && v in s.guests && s.guests[v] == Box(cur)
    requires (cur == Cpus(k) && cfg == Cpus(n)) || (cur == Noted(k) && cfg == Noted(n))
    ensures CanLand(s, v, Box(cfg)) && ChargedFor(s, v, Box(cfg))
  {
    BareBoxes(n);
    BareSized(cfg, n);
    CpusLand(s.contents, n, m, cur, k, cfg);
  }

  // ---------------------------------------------------------------- where runs start

  ghost predicate Sound(s: State)
    requires ValidFile(FILE)
  {
    LockInv(FILE, s) && TaskInv(FILE, s) && ViewsOk(s.reqs)
  }

  lemma FreshIsSound(s: State)
    requires ValidFile(FILE) && Fresh(s)
    ensures Sound(s)
  {}

  lemma BoxesAreFresh(n: nat, m: nat)
    requires n < 10 && m < 10
    ensures Fresh(Stage(Cpus(n), Cpus(m), map[], map[], map[], map[]))
  {
    BareBoxes(n);
    BareBoxes(m);
    BareSized(Cpus(n), n);
    BareSized(Cpus(m), m);
  }

  lemma CoresUsed(s: State, one: Config, two: Config, a: nat, b: nat)
    requires Bare(one, a) && Bare(two, b) && s.guests == map[1 := Box(one), 2 := Box(two)]
    ensures PoolUsage(s, "p", Cores) == a + b
  {
    Usages(s, one, two, a, b, Cores);
  }

  /** The ceiling is the limit, if no more is in use. */
  lemma CeilingIs(s: State)
    requires ValidFile(FILE) && PoolUsage(s, "p", Cores) <= 3
    ensures Ceiling(FILE, s, "p", Cores) == 3
  {
    CeilingOfUser(FILE, s, "u", Cores);
  }

  /** An edit that notes something on a container of one core. */
  lemma NoteShrinks()
    ensures Shrunk(Box(Noted(1)), Box(Cpus(1))) && WellSized(Box(Noted(1)))
  {
    BareBoxes(1);
    BareLighter(Cpus(1), 1, Noted(1), 1);
  }
}
