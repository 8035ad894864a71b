/** The increase each write would cause, after internal/admission/delta.go. */
module Deltas {
  import opened Wrappers
  import opened GoStrings
  import opened MapSums
  import opened Accounting

  datatype Delta = Delta(cores: int, memoryMiB: int, instances: int, diskBytes: map<string, int>) {
    function At(d: Dim): int {
      match d
      case Cores => cores
      case Memory => memoryMiB
      case Instances => instances
      case Disk(st) => Get(diskBytes, st)
    }

    /** `positive` */
    predicate Positive() {
      cores > 0 || memoryMiB > 0 || instances > 0 || exists st <- diskBytes :: diskBytes[st] > 0
    }

    /** A delta is positive exactly when it raises some dimension. */
    lemma PositiveSomewhere()
      ensures Positive() <==> exists d :: At(d) > 0
    {
      if Positive() {
        if st :| st in diskBytes && diskBytes[st] > 0 { assert At(Disk(st)) > 0; }
        if cores > 0 { assert At(Cores) > 0; }
        if memoryMiB > 0 { assert At(Memory) > 0; }
        if instances > 0 { assert At(Instances) > 0; }
      }
    }
  }

  const NO_DELTA := Delta(0, 0, 0, map[])

  // ---------------------------------------------------------------- create-time disk specs

  datatype Order = Order(storage: string, bytes: int, cdrom: bool)

  /** The "NN" of a create-time `storage:NN`, in bytes; zero when it is no positive number. */
  function CountBytes(v: string): int {
    match Cut(TrimSpace(Split(v, ',')[0]), ':')
    case None => 0
    case Some(p) =>
      match ParseInt(TrimSpace(p.1))
      case None => 0
      case Some(n) => if n > 0 then n * GIB else 0
  }

  /** What a create-time disk parameter asks for. */
  function OrderOf(v: string): Order {
    match VolumeOf(v)
    case None => Order("", 0, false)
    case Some(vol) =>
      var cdrom := "media=cdrom" in Options(v);
      var stated := LastSize(Options(v));
      var bytes := if stated.Some? then stated.value else 0;
      Order(vol.0, if bytes == 0 && !cdrom then CountBytes(v) else bytes, cdrom)
  }

  method ParseCreateDisk(v: string) returns (order: Order)
    ensures order == OrderOf(v)
  {
    var first := TrimSpace(Split(v, ',')[0]);
    if first == "" || first == "none" { return Order("", 0, false); }
    var cut := Cut(first, ':');
    if cut.None? || cut.value.0 == "" { return Order("", 0, false); }
    var size, cdrom := ScanOptions(v);
    var bytes := if size.Some? then size.value else 0;
    if bytes == 0 && !cdrom {
      var n := ParseInt(TrimSpace(cut.value.1));
      if n.Some? && n.value > 0 { bytes := n.value * GIB; }
    }
    return Order(cut.value.0, bytes, cdrom);
  }

  /** The two parsers agree on storage and CD-ROM flag for every string, and on the bytes exactly
      when a non-zero size is stated or there is no create-time count to fall back on. */
  lemma ParsersAgree(v: string)
    ensures OrderOf(v).storage == DiskSpecOf(v).storage && OrderOf(v).cdrom == DiskSpecOf(v).cdrom
    ensures OrderOf(v).bytes == DiskSpecOf(v).size <==>
            DiskSpecOf(v).size != 0 || DiskSpecOf(v).cdrom || DiskSpecOf(v).storage == "" || CountBytes(v) == 0
  {}

  // ---------------------------------------------------------------- disks added by a request

  type Orders = map<string, Order>

  predicate Counts(o: Order) {
    !o.cdrom && o.storage != ""
  }

  function OrderTerm(o: Order, st: string): int {
    if Counts(o) && o.storage == st then o.bytes else 0
  }

  function OrderMap(orders: Orders, st: string): map<string, int> {
    map k | k in orders :: OrderTerm(orders[k], st)
  }

  ghost function Ordered(orders: Orders, st: string): int {
    Sum(OrderMap(orders, st))
  }

  function OrderStorages(orders: Orders): set<string> {
    set k | k in orders && Counts(orders[k]) :: orders[k].storage
  }

  ghost function OrderedDisks(orders: Orders): map<string, int> {
    map st | st in OrderStorages(orders) :: Ordered(orders, st)
  }

  lemma OrderedAt(orders: Orders, st: string)
    ensures Get(OrderedDisks(orders), st) == Ordered(orders, st)
  {
    if st !in OrderStorages(orders) { SumZero(OrderMap(orders, st)); }
  }

  ghost predicate OrdersTallied(done: Orders, base: map<string, int>, disks: map<string, int>) {
    && disks.Keys == base.Keys + OrderStorages(done)
    && forall st :: Get(disks, st) == Get(base, st) + Ordered(done, st)
  }

  lemma TallyOrder(done: Orders, base: map<string, int>, disks: map<string, int>, k: string, o: Order,
      disks': map<string, int>)
    requires k !in done && OrdersTallied(done, base, disks)
    requires disks' == if Counts(o) then disks[o.storage := Get(disks, o.storage) + o.bytes] else disks
    ensures OrdersTallied(done[k := o], base, disks')
  {
    OneMoreStorage(done, k, o);
    forall st ensures Get(disks', st) == Get(base, st) + Ordered(done[k := o], st) {
      assert Get(disks, st) == Get(base, st) + Ordered(done, st);
      OneMoreOrder(done, k, o, st);
    }
  }

  lemma OneMoreOrder(done: Orders, k: string, o: Order, st: string)
    requires k !in done
    ensures Ordered(done[k := o], st) == Ordered(done, st) + if Counts(o) && o.storage == st then o.bytes else 0
  {
    SumChange(OrderMap(done, st), OrderMap(done[k := o], st), k);
  }

  lemma OneMoreStorage(done: Orders, k: string, o: Order)
    requires k !in done
    ensures OrderStorages(done[k := o]) == OrderStorages(done) + if Counts(o) then {o.storage} else {}
  {
    var more := done[k := o];
    assert forall j <- done :: more[j] == done[j];
    if Counts(o) { assert more[k].storage == o.storage; }
  }

  /** The disk parameters that are genuinely new: their keys are absent from `cur`. */
  function FreshOrders(p: Config, cur: Config): Orders {
    map k | k in p && IsDiskKey(k) && k !in cur :: OrderOf(p[k])
  }

  /** One iteration of `addDiskParams`. */
  method AddOrder(ghost done: Orders, ghost base: map<string, int>, disks: map<string, int>, ghost k: string, o: Order)
    returns (disks': map<string, int>)
    requires k !in done && OrdersTallied(done, base, disks)
    ensures OrdersTallied(done[k := o], base, disks')
  {
    disks' := if o.cdrom || o.storage == "" then disks else disks[o.storage := Get(disks, o.storage) + o.bytes];
    TallyOrder(done, base, disks, k, o, disks');
  }

  /** `addDiskParams`, for every order in which the parameters are ranged over. Without a current
      config every key counts, which is what an empty one says. */
  method AddDiskParams(dst: map<string, int>, p: Config, cur: Config) returns (dst': map<string, int>)
    ensures OrdersTallied(FreshOrders(p, cur), dst, dst')
  {
    dst' := dst;
    var todo := p.Keys;
    ghost var all := FreshOrders(p, cur);
    ghost var done: Orders := map[];
    NothingOrdered(dst);
    while todo != {}
      invariant todo <= p.Keys
      invariant done.Keys == all.Keys - todo && forall k <- done :: done[k] == all[k]
      invariant OrdersTallied(done, dst, dst')
      decreases todo
    {
      var k :| k in todo;
      todo := todo - {k};
      if IsDiskKey(k) && k !in cur {
        var o := ParseCreateDisk(p[k]);
        dst' := AddOrder(done, dst, dst', k, o);
        done := done[k := o];
      }
    }
    assert done == all;
  }

  lemma NothingOrdered(base: map<string, int>)
    ensures OrdersTallied(map[], base, base)
  {
    forall st ensures Ordered(map[], st) == 0 { SumZero(OrderMap(map[], st)); }
  }

  /** Starting from an empty map the loop computes `OrderedDisks`. */
  lemma TalliedFromEmpty(orders: Orders, disks: map<string, int>)
    requires OrdersTallied(orders, map[], disks)
    ensures disks == OrderedDisks(orders)
  {
    forall st | st in disks ensures disks[st] == Ordered(orders, st) {
      assert Get(disks, st) == Get(map[], st) + Ordered(orders, st);
    }
  }

  // ---------------------------------------------------------------- the deltas

  /** `merge`: the parameters override the current config. */
  function Merge(base: Config, over: Config): Config {
    base + over
  }

  ghost function CreateDelta(kind: string, p: Config): Delta {
    Delta(TotalCores(kind, p), MemoryOf(p), 1, OrderedDisks(FreshOrders(p, map[])))
  }

  ghost function ConfigDelta(kind: string, p: Config, cur: Config): Delta {
    Delta(
      if "sockets" in p || "cores" in p then TotalCores(kind, Merge(cur, p)) - TotalCores(kind, cur) else 0,
      if "memory" in p then AtoiDef(p["memory"], 512) - AtoiDef(Field(cur, "memory"), 512) else 0,
      0,
      OrderedDisks(FreshOrders(p, cur)))
  }

  function ResizeDelta(p: Config, cur: Config): Delta {
    var disk, sz := Field(p, "disk"), Field(p, "size");
    if disk == "" || sz == "" then NO_DELTA
    else
      var spec := DiskSpecOf(Field(cur, disk));
      if spec.storage == "" then NO_DELTA
      else match CutPrefix(sz, "+")
        case Some(rest) =>
          (match ParseSize(rest)
           case Some(n) => NO_DELTA.(diskBytes := map[spec.storage := n])
           case None => NO_DELTA)
        case None =>
          match ParseSize(sz)
          case Some(n) =>
            if spec.hasSize && n > spec.size then NO_DELTA.(diskBytes := map[spec.storage := n - spec.size])
            else NO_DELTA
          case None => NO_DELTA
  }

  function UsageToDelta(u: Usage): Delta {
    Delta(u.cores, u.memoryMiB, u.instances, u.diskBytes)
  }

  ghost function CloneDelta(src: Usage, p: Config): Delta {
    var st := Field(p, "storage");
    Delta(src.cores, src.memoryMiB, 1, if st == "" then src.diskBytes else map[st := Sum(src.diskBytes)])
  }

  function Increase(target: int, current: int): int {
    if target > current then target - current else 0
  }

  function IncreaseDelta(target: Usage, current: Usage): Delta {
    Delta(
      Increase(target.cores, current.cores), Increase(target.memoryMiB, current.memoryMiB), 0,
      map st | st in target.diskBytes && target.diskBytes[st] > Get(current.diskBytes, st) ::
        target.diskBytes[st] - Get(current.diskBytes, st))
  }

  /** The key a move names: `disk`, or `volume` for a container. */
  function MoveKey(p: Config): string {
    if Field(p, "disk") != "" then Field(p, "disk") else Field(p, "volume")
  }

  function MoveDelta(p: Config, cur: Config): Delta {
    var key, target := MoveKey(p), Field(p, "storage");
    if key == "" || target == "" then NO_DELTA
    else
      var spec := DiskSpecOf(Field(cur, key));
      if spec.storage == target || !spec.hasSize then NO_DELTA
      else NO_DELTA.(diskBytes := map[target := spec.size])
  }

  /** The summing loop of `CloneDelta`, in any order. */
  method TotalBytes(disks: map<string, int>) returns (total: int)
    ensures total == Sum(disks)
  {
    total := 0;
    var todo := disks.Keys;
    while todo != {}
      invariant todo <= disks.Keys
      invariant total + SumOver(todo, disks) == Sum(disks)
      decreases todo
    {
      var st :| st in todo;
      SumOverRemove(todo, disks, st);
      todo := todo - {st};
      total := total + disks[st];
    }
  }

  /** The loop of `IncreaseDelta`, in any order. */
  method IncreasedDisks(target: Usage, current: Usage) returns (disks: map<string, int>)
    ensures disks == IncreaseDelta(target, current).diskBytes
  {
    disks := map[];
    var todo := target.diskBytes.Keys;
    while todo != {}
      invariant todo <= target.diskBytes.Keys
      invariant disks == IncreaseDelta(target, current).diskBytes - todo
      decreases todo
    {
      var st :| st in todo;
      todo := todo - {st};
      var grown := target.diskBytes[st] - Get(current.diskBytes, st);
      if grown > 0 { disks := disks[st := grown]; }
    }
  }
}
