/** What a write does to a guest's config once the upstream has applied it, and how the delta that
    admission checked compares with the recomputed footprint. */
module Landing {
  import opened Wrappers
  import opened GoStrings
  import opened MapSums
  import opened Accounting
  import opened Deltas

  predicate SameResources(a: Config, b: Config) {
    && Field(a, "sockets") == Field(b, "sockets")
    && Field(a, "cores") == Field(b, "cores")
    && Field(a, "memory") == Field(b, "memory")
  }

  function OnlyDrives(drives: Drives, keys: set<string>): Drives {
    map k | k in drives && k in keys :: drives[k]
  }

  function OnlyOrders(orders: Orders, keys: set<string>): Orders {
    map k | k in orders && k in keys :: orders[k]
  }

  /** All disk parameters of a request. */
  function AllOrders(p: Config): Orders {
    FreshOrders(p, map[])
  }

  // ---------------------------------------------------------------- create and edit

  /** A parameter that names an existing volume and states no size: it is charged for nothing. */
  predicate Attaches(o: Order, asked: DiskSpec) {
    Counts(o) && o.bytes == 0 && !asked.hasSize
  }

  /** What the parameter weighs once carried out: the volume it attaches, or what it orders. */
  function AskedBytes(contents: Contents, node: string, o: Order, asked: DiskSpec): int {
    if Attaches(o, asked) then Lookup(contents, node, Ref(asked.storage, asked.volid)) else o.bytes
  }

  /** What a drive weighs on its own storage. */
  function Weight(contents: Contents, node: string, spec: DiskSpec): int {
    DriveTerm(contents, node, spec, spec.storage)
  }

  /** The drive that the upstream makes for a disk parameter: on the storage asked for, and no
      heavier than asked for. */
  predicate Materialised(contents: Contents, node: string, o: Order, asked: DiskSpec, spec: DiskSpec) {
    if Counts(o)
    then Counted(spec) && spec.storage == o.storage
         && Weight(contents, node, spec) <= AskedBytes(contents, node, o, asked)
    else !Counted(spec)
  }

  /** Every drive of `made` is what its parameter asks for. */
  predicate AllMade(contents: Contents, node: string, p: Config, made: Drives) {
    && made.Keys == DrivesOf(p).Keys
    && forall k <- made :: Materialised(contents, node, OrderOf(p[k]), DiskSpecOf(p[k]), made[k])
  }

  /** Nothing was made lighter than asked for. */
  predicate InFull(contents: Contents, node: string, p: Config, made: Drives) {
    forall k <- made :: k in p && Counts(OrderOf(p[k])) ==>
      Weight(contents, node, made[k]) == AskedBytes(contents, node, OrderOf(p[k]), DiskSpecOf(p[k]))
  }

  predicate CreateLands(contents: Contents, node: string, p: Config, cfg: Config) {
    SameResources(p, cfg) && AllMade(contents, node, p, DrivesOf(cfg))
  }

  /** `after` is `before` with the drives under `keys` written anew; every other one is left alone. */
  predicate Rewritten(before: Drives, keys: set<string>, after: Drives) {
    && after.Keys == before.Keys + keys
    && (forall k <- before :: k !in keys ==> after[k] == before[k])
  }

  /** The drives of `cfg` that the request wrote. */
  function Made(p: Config, cfg: Config): Drives {
    OnlyDrives(DrivesOf(cfg), DrivesOf(p).Keys)
  }

  predicate EditLands(contents: Contents, node: string, p: Config, cur: Config, cfg: Config) {
    && SameResources(Merge(cur, p), cfg)
    && Rewritten(DrivesOf(cur), DrivesOf(p).Keys, DrivesOf(cfg))
    && AllMade(contents, node, p, Made(p, cfg))
  }

  /** Disk orders that overwrite an existing drive, and the drives they overwrite. */
  function Overwriting(p: Config, cur: Config): Orders {
    OnlyOrders(AllOrders(p), DrivesOf(cur).Keys)
  }

  function Overwritten(p: Config, cur: Config): Drives {
    OnlyDrives(DrivesOf(cur), DrivesOf(p).Keys)
  }

  function AttachedTerm(contents: Contents, node: string, o: Order, asked: DiskSpec, st: string): int {
    if Attaches(o, asked) && o.storage == st then AskedBytes(contents, node, o, asked) else 0
  }

  function AttachedMap(contents: Contents, node: string, orders: Orders, asked: Drives, st: string): map<string, int> {
    map k | k in orders && k in asked :: AttachedTerm(contents, node, orders[k], asked[k], st)
  }

  /** What the existing volumes that a request attaches weigh on a storage. */
  ghost function Attached(contents: Contents, node: string, p: Config, st: string): int {
    Sum(AttachedMap(contents, node, AllOrders(p), DrivesOf(p), st))
  }

  function ShortMap(contents: Contents, node: string, orders: Orders, asked: Drives, made: Drives,
      st: string): map<string, int> {
    map k | k in orders && k in asked && k in made ::
      OrderTerm(orders[k], st) + AttachedTerm(contents, node, orders[k], asked[k], st)
      - DriveTerm(contents, node, made[k], st)
  }

  /** By how much the drives made fall short of what was asked for. */
  ghost function Shortfall(contents: Contents, node: string, p: Config, made: Drives, st: string): int {
    Sum(ShortMap(contents, node, AllOrders(p), DrivesOf(p), made, st))
  }

  lemma MadeBytes(contents: Contents, node: string, p: Config, made: Drives, st: string)
    requires made.Keys == DrivesOf(p).Keys
    ensures DriveBytes(contents, node, made, st) ==
            Ordered(AllOrders(p), st) + Attached(contents, node, p, st) - Shortfall(contents, node, p, made, st)
  {
    SameKeys(p);
    PartsBalance(contents, node, AllOrders(p), DrivesOf(p), made, st);
  }

  lemma SameKeys(p: Config)
    ensures AllOrders(p).Keys == DrivesOf(p).Keys
  {}

  lemma PartsBalance(contents: Contents, node: string, orders: Orders, asked: Drives, made: Drives, st: string)
    requires orders.Keys == asked.Keys == made.Keys
    ensures DriveBytes(contents, node, made, st) ==
            Ordered(orders, st) + Sum(AttachedMap(contents, node, orders, asked, st))
            - Sum(ShortMap(contents, node, orders, asked, made, st))
  {
    var both := map k | k in orders :: OrderTerm(orders[k], st) + AttachedTerm(contents, node, orders[k], asked[k], st);
    SumAdd(OrderMap(orders, st), AttachedMap(contents, node, orders, asked, st), both);
    SumAdd(DriveMap(contents, node, made, st), ShortMap(contents, node, orders, asked, made, st), both);
  }

  lemma ShortAt(contents: Contents, node: string, v: string, spec: DiskSpec, st: string)
    requires Materialised(contents, node, OrderOf(v), DiskSpecOf(v), spec)
    ensures var o, asked := OrderOf(v), DiskSpecOf(v);
            var short := OrderTerm(o, st) + AttachedTerm(contents, node, o, asked, st)
                         - DriveTerm(contents, node, spec, st);
            short == if Counts(o) && st == o.storage
                     then AskedBytes(contents, node, o, asked) - Weight(contents, node, spec)
                     else 0
  {
    ParsersAgree(v);
  }

  /** What was made is never heavier than asked for, and as heavy when made in full. */
  lemma ShortfallSign(contents: Contents, node: string, p: Config, made: Drives, st: string)
    requires AllMade(contents, node, p, made)
    ensures Shortfall(contents, node, p, made, st) >= 0
    ensures InFull(contents, node, p, made) ==> Shortfall(contents, node, p, made, st) == 0
  {
    var short := ShortMap(contents, node, AllOrders(p), DrivesOf(p), made, st);
    forall k ensures Get(short, k) >= 0 && (InFull(contents, node, p, made) ==> Get(short, k) == 0) {
      if k in short {
        assert Materialised(contents, node, OrderOf(p[k]), DiskSpecOf(p[k]), made[k]);
        ShortAt(contents, node, p[k], made[k], st);
      }
    }
    SumNonNegative(short);
    if InFull(contents, node, p, made) { SumZero(short); }
  }

  /** How far a created guest departs from its delta: the volumes attached, less what was not made in full. */
  lemma CreateResidual(contents: Contents, node: string, kind: string, p: Config, cfg: Config, d: Dim)
    requires CreateLands(contents, node, p, cfg)
    ensures Foot(contents, node, kind, cfg, d) ==
            CreateDelta(kind, p).At(d) +
            if d.Disk? then
              Attached(contents, node, p, d.storage) - Shortfall(contents, node, p, DrivesOf(cfg), d.storage)
            else 0
  {
    match d
    case Disk(st) =>
      OrderedAt(AllOrders(p), st);
      MadeBytes(contents, node, p, DrivesOf(cfg), st);
    case _ => ResourcesAgree(kind, p, cfg);
  }

  lemma CreatedAt(contents: Contents, node: string, kind: string, p: Config, cfg: Config, st: string)
    requires CreateLands(contents, node, p, cfg) && InFull(contents, node, p, DrivesOf(cfg))
    ensures Foot(contents, node, kind, cfg, Disk(st)) ==
            CreateDelta(kind, p).At(Disk(st)) + Attached(contents, node, p, st)
  {
    CreateResidual(contents, node, kind, p, cfg, Disk(st));
    ShortfallSign(contents, node, p, DrivesOf(cfg), st);
  }

  /** A create-time delta bounds the footprint exactly when the existing volumes that the request
      attaches weigh nothing: they are the branch that the delta leaves at zero bytes. */
  lemma CreateDeltaSound(contents: Contents, node: string, kind: string, p: Config, cfg: Config)
    requires CreateLands(contents, node, p, cfg) && InFull(contents, node, p, DrivesOf(cfg))
    ensures (forall d :: Foot(contents, node, kind, cfg, d) <= CreateDelta(kind, p).At(d)) <==>
            (forall st :: Attached(contents, node, p, st) <= 0)
  {
    forall st { CreatedAt(contents, node, kind, p, cfg, st); }
    forall d: Dim | !d.Disk? { CreateResidual(contents, node, kind, p, cfg, d); }
  }

  /** A guest made in full weighs exactly its delta, in every dimension, exactly when the volumes that
      the request attaches weigh nothing. */
  lemma CreateDeltaExact(contents: Contents, node: string, kind: string, p: Config, cfg: Config)
    requires CreateLands(contents, node, p, cfg) && InFull(contents, node, p, DrivesOf(cfg))
    ensures (forall d :: Foot(contents, node, kind, cfg, d) == CreateDelta(kind, p).At(d)) <==>
            (forall st :: Attached(contents, node, p, st) == 0)
  {
    forall st { CreatedAt(contents, node, kind, p, cfg, st); }
    forall d: Dim | !d.Disk? { CreateResidual(contents, node, kind, p, cfg, d); }
  }

  /** The drives under some keys, and the others. */
  lemma SplitBytes(contents: Contents, node: string, drives: Drives, keys: set<string>, st: string)
    ensures DriveBytes(contents, node, drives, st) ==
            DriveBytes(contents, node, drives - keys, st) + DriveBytes(contents, node, OnlyDrives(drives, keys), st)
  {
    SumAdd(DriveMap(contents, node, drives - keys, st), DriveMap(contents, node, OnlyDrives(drives, keys), st),
           DriveMap(contents, node, drives, st));
  }

  /** A storage after an edit: what it held, without the drives written over, plus what was written. */
  lemma RewrittenBytes(contents: Contents, node: string, before: Drives, keys: set<string>, after: Drives, st: string)
    requires Rewritten(before, keys, after)
    ensures DriveBytes(contents, node, after, st) ==
            DriveBytes(contents, node, before, st) - DriveBytes(contents, node, OnlyDrives(before, keys), st)
            + DriveBytes(contents, node, OnlyDrives(after, keys), st)
  {
    SplitBytes(contents, node, before, keys, st);
    SplitBytes(contents, node, after, keys, st);
    assert after - keys == before - keys;
  }

  lemma FreshAreNew(p: Config, cur: Config)
    ensures FreshOrders(p, cur) == AllOrders(p) - DrivesOf(cur).Keys
  {}

  lemma ResourcesAgree(kind: string, a: Config, b: Config)
    requires SameResources(a, b)
    ensures TotalCores(kind, a) == TotalCores(kind, b) && MemoryOf(a) == MemoryOf(b)
  {}

  /** Cores and memory deltas are exact for every merge, defaults and both guest kinds included. */
  lemma CoresAndMemoryExact(kind: string, p: Config, cur: Config)
    ensures ConfigDelta(kind, p, cur).cores == TotalCores(kind, Merge(cur, p)) - TotalCores(kind, cur)
    ensures ConfigDelta(kind, p, cur).memoryMiB == MemoryOf(Merge(cur, p)) - MemoryOf(cur)
  {
    if "sockets" !in p && "cores" !in p {
      assert Field(Merge(cur, p), "sockets") == Field(cur, "sockets");
      assert Field(Merge(cur, p), "cores") == Field(cur, "cores");
    }
    assert Field(Merge(cur, p), "memory") == if "memory" in p then p["memory"] else Field(cur, "memory");
  }

  /** The disk part of an edit's delta: all that is ordered, less what is ordered over existing drives. */
  lemma EditDiskDelta(kind: string, p: Config, cur: Config, st: string)
    ensures ConfigDelta(kind, p, cur).At(Disk(st)) == Ordered(AllOrders(p) - DrivesOf(cur).Keys, st)
    ensures ConfigDelta(kind, p, cur).At(Disk(st)) == Ordered(AllOrders(p), st) - Ordered(Overwriting(p, cur), st)
  {
    FreshAreNew(p, cur);
    OrderedAt(FreshOrders(p, cur), st);
    SumAdd(OrderMap(AllOrders(p) - DrivesOf(cur).Keys, st), OrderMap(Overwriting(p, cur), st),
           OrderMap(AllOrders(p), st));
  }

  /** What an edit asks for in one dimension beyond its delta: existing volumes that it attaches, and
      what it orders in place of existing drives, beyond what those held. */
  ghost function EditUncharged(contents: Contents, node: string, p: Config, cur: Config, d: Dim): int {
    match d
    case Disk(st) =>
      Attached(contents, node, p, st) + Ordered(Overwriting(p, cur), st)
      - DriveBytes(contents, node, Overwritten(p, cur), st)
    case _ => 0
  }

  ghost function EditShortfall(contents: Contents, node: string, p: Config, cfg: Config, d: Dim): int {
    match d
    case Disk(st) => Shortfall(contents, node, p, Made(p, cfg), st)
    case _ => 0
  }

  /** How far a landed edit departs from its delta, in every dimension and for every edit. */
  lemma EditResidual(contents: Contents, node: string, kind: string, p: Config, cur: Config, cfg: Config, d: Dim)
    requires EditLands(contents, node, p, cur, cfg)
    ensures Foot(contents, node, kind, cfg, d) ==
            Foot(contents, node, kind, cur, d) + ConfigDelta(kind, p, cur).At(d)
            + EditUncharged(contents, node, p, cur, d) - EditShortfall(contents, node, p, cfg, d)
  {
    match d
    case Disk(st) =>
      EditDiskDelta(kind, p, cur, st);
      RewrittenBytes(contents, node, DrivesOf(cur), DrivesOf(p).Keys, DrivesOf(cfg), st);
      MadeBytes(contents, node, p, Made(p, cfg), st);
    case _ =>
      ResourcesAgree(kind, Merge(cur, p), cfg);
      CoresAndMemoryExact(kind, p, cur);
  }

  /** `delta` bounds the growth from `cur` to `cfg` in dimension `d`. */
  ghost predicate Bounds(delta: Delta, contents: Contents, node: string, kind: string, cur: Config, cfg: Config,
      d: Dim) {
    Foot(contents, node, kind, cfg, d) <= Foot(contents, node, kind, cur, d) + delta.At(d)
  }

  lemma EditInFull(contents: Contents, node: string, p: Config, cur: Config, cfg: Config, d: Dim)
    requires EditLands(contents, node, p, cur, cfg) && InFull(contents, node, p, Made(p, cfg))
    ensures EditShortfall(contents, node, p, cfg, d) == 0
  {
    if d.Disk? { ShortfallSign(contents, node, p, Made(p, cfg), d.storage); }
  }

  /** The delta of an edit bounds the growth it causes exactly when, per storage, the volumes it
      attaches and what it orders over existing drives are covered by what those drives held:
      attaching and overwriting are the two branches that the delta leaves at zero. */
  lemma ConfigDeltaSound(contents: Contents, node: string, kind: string, p: Config, cur: Config, cfg: Config)
    requires EditLands(contents, node, p, cur, cfg) && InFull(contents, node, p, Made(p, cfg))
    ensures (forall d :: Bounds(ConfigDelta(kind, p, cur), contents, node, kind, cur, cfg, d)) <==>
            (forall d :: EditUncharged(contents, node, p, cur, d) <= 0)
  {
    forall d
      ensures Bounds(ConfigDelta(kind, p, cur), contents, node, kind, cur, cfg, d) <==>
              EditUncharged(contents, node, p, cur, d) <= 0
    {
      EditResidual(contents, node, kind, p, cur, cfg, d);
      EditInFull(contents, node, p, cur, cfg, d);
    }
  }

  /** An edit carried out in full changes the footprint by exactly its delta, in every dimension,
      exactly when what it asks for beyond its delta is nothing. */
  lemma ConfigDeltaExact(contents: Contents, node: string, kind: string, p: Config, cur: Config, cfg: Config)
    requires EditLands(contents, node, p, cur, cfg) && InFull(contents, node, p, Made(p, cfg))
    ensures (forall d :: Foot(contents, node, kind, cfg, d) ==
                           Foot(contents, node, kind, cur, d) + ConfigDelta(kind, p, cur).At(d)) <==>
            (forall d :: EditUncharged(contents, node, p, cur, d) == 0)
  {
    forall d
      ensures Foot(contents, node, kind, cfg, d) ==
              Foot(contents, node, kind, cur, d) + ConfigDelta(kind, p, cur).At(d) <==>
              EditUncharged(contents, node, p, cur, d) == 0
    {
      EditResidual(contents, node, kind, p, cur, cfg, d);
      EditInFull(contents, node, p, cur, cfg, d);
    }
  }

  /** No disk parameter attaches a volume or names a drive that is there. */
  predicate OnlyNewDrives(p: Config, cur: Config) {
    && DrivesOf(p).Keys !! DrivesOf(cur).Keys
    && forall k <- DrivesOf(p) :: !Attaches(OrderOf(p[k]), DiskSpecOf(p[k]))
  }

  lemma OnlyNewUncharged(contents: Contents, node: string, p: Config, cur: Config, d: Dim)
    requires OnlyNewDrives(p, cur)
    ensures EditUncharged(contents, node, p, cur, d) == 0
  {
    if d.Disk? {
      SumZero(AttachedMap(contents, node, AllOrders(p), DrivesOf(p), d.storage));
      SumZero(OrderMap(Overwriting(p, cur), d.storage));
      SumZero(DriveMap(contents, node, Overwritten(p, cur), d.storage));
    }
  }

  // ---------------------------------------------------------------- literal merges

  lemma DrivesMerge(base: Config, over: Config)
    ensures DrivesOf(Merge(base, over)) == DrivesOf(base) + DrivesOf(over)
  {}

  lemma AddedDrives(before: Drives, written: Drives)
    ensures Rewritten(before, written.Keys, before + written) && OnlyDrives(before + written, written.Keys) == written
  {}

  /** Merging any parameters literally: a storage changes by what they weigh as written, less what
      they are written over. */
  lemma MergeBytes(contents: Contents, node: string, p: Config, cur: Config, st: string)
    ensures DriveBytes(contents, node, DrivesOf(Merge(cur, p)), st) ==
            DriveBytes(contents, node, DrivesOf(cur), st) + DriveBytes(contents, node, DrivesOf(p), st)
            - DriveBytes(contents, node, Overwritten(p, cur), st)
  {
    DrivesMerge(cur, p);
    AddedBytes(contents, node, DrivesOf(cur), DrivesOf(p), st);
  }

  lemma AddedBytes(contents: Contents, node: string, before: Drives, written: Drives, st: string)
    ensures DriveBytes(contents, node, before + written, st) ==
            DriveBytes(contents, node, before, st) + DriveBytes(contents, node, written, st)
            - DriveBytes(contents, node, OnlyDrives(before, written.Keys), st)
  {
    AddedDrives(before, written);
    RewrittenBytes(contents, node, before, written.Keys, before + written, st);
  }

  /** For the literal merge of any parameters whatever, the delta bounds the growth exactly when, per
      storage, the parameters weigh no more than the fresh orders and the drives written over. */
  lemma MergeDeltaSound(contents: Contents, node: string, kind: string, p: Config, cur: Config)
    ensures (forall d :: Bounds(ConfigDelta(kind, p, cur), contents, node, kind, cur, Merge(cur, p), d)) <==>
            (forall st :: DriveBytes(contents, node, DrivesOf(p), st) <=
                            Ordered(FreshOrders(p, cur), st) + DriveBytes(contents, node, Overwritten(p, cur), st))
  {
    forall st { MergedAt(contents, node, kind, p, cur, st); }
    forall d: Dim | !d.Disk? ensures Bounds(ConfigDelta(kind, p, cur), contents, node, kind, cur, Merge(cur, p), d) {
      CoresAndMemoryExact(kind, p, cur);
    }
  }

  lemma MergedAt(contents: Contents, node: string, kind: string, p: Config, cur: Config, st: string)
    ensures Bounds(ConfigDelta(kind, p, cur), contents, node, kind, cur, Merge(cur, p), Disk(st)) <==>
            DriveBytes(contents, node, DrivesOf(p), st) <=
            Ordered(FreshOrders(p, cur), st) + DriveBytes(contents, node, Overwritten(p, cur), st)
  {
    FreshCharge(kind, p, cur, st);
    MergeBytes(contents, node, p, cur, st);
    BoundsOn(ConfigDelta(kind, p, cur), contents, node, kind, cur, Merge(cur, p), st);
  }

  lemma FreshCharge(kind: string, p: Config, cur: Config, st: string)
    ensures ConfigDelta(kind, p, cur).At(Disk(st)) == Ordered(FreshOrders(p, cur), st)
  {
    OrderedAt(FreshOrders(p, cur), st);
  }

  lemma BoundsOn(delta: Delta, contents: Contents, node: string, kind: string, cur: Config, cfg: Config, st: string)
    ensures Bounds(delta, contents, node, kind, cur, cfg, Disk(st)) <==>
            DriveBytes(contents, node, DrivesOf(cfg), st) <=
            DriveBytes(contents, node, DrivesOf(cur), st) + delta.At(Disk(st))
  {}

  /** The same for a guest created with literally these parameters. */
  lemma CreatedLiterally(contents: Contents, node: string, kind: string, p: Config)
    ensures (forall d :: Foot(contents, node, kind, p, d) <= CreateDelta(kind, p).At(d)) <==>
            (forall st :: DriveBytes(contents, node, DrivesOf(p), st) <= Ordered(AllOrders(p), st))
  {
    forall st { CreatedLiterallyAt(contents, node, kind, p, st); }
    forall d: Dim | !d.Disk? ensures Foot(contents, node, kind, p, d) == CreateDelta(kind, p).At(d) {}
  }

  lemma CreatedLiterallyAt(contents: Contents, node: string, kind: string, p: Config, st: string)
    ensures Foot(contents, node, kind, p, Disk(st)) <= CreateDelta(kind, p).At(Disk(st)) <==>
            DriveBytes(contents, node, DrivesOf(p), st) <= Ordered(AllOrders(p), st)
  {
    OrderedAt(AllOrders(p), st);
  }

  /** Parameters that order nothing by count: CD-ROMs, no storage, a stated size, or a volume by name. */
  predicate Literal(p: Config) {
    forall k <- DrivesOf(p) :: OrderOf(p[k]).bytes == DiskSpecOf(p[k]).size
  }

  /** Merging such parameters literally is a landing, and in full. */
  lemma MergeLands(contents: Contents, node: string, p: Config, cur: Config)
    requires Literal(p)
    ensures EditLands(contents, node, p, cur, Merge(cur, p))
    ensures Made(p, Merge(cur, p)) == DrivesOf(p) && InFull(contents, node, p, DrivesOf(p))
  {
    var after := DrivesOf(Merge(cur, p));
    assert Made(p, Merge(cur, p)) == DrivesOf(p);
    forall k | k in DrivesOf(p)
      ensures Materialised(contents, node, OrderOf(p[k]), DiskSpecOf(p[k]), DrivesOf(p)[k])
      ensures Counts(OrderOf(p[k])) ==>
                Weight(contents, node, DrivesOf(p)[k]) == AskedBytes(contents, node, OrderOf(p[k]), DiskSpecOf(p[k]))
    {
      LiteralWeight(contents, node, p[k]);
    }
  }

  lemma LiteralWeight(contents: Contents, node: string, v: string)
    requires OrderOf(v).bytes == DiskSpecOf(v).size
    ensures Materialised(contents, node, OrderOf(v), DiskSpecOf(v), DiskSpecOf(v))
    ensures Counts(OrderOf(v)) ==>
              Weight(contents, node, DiskSpecOf(v)) == AskedBytes(contents, node, OrderOf(v), DiskSpecOf(v))
  {
    ParsersAgree(v);
  }

  // ---------------------------------------------------------------- telescoping

  /** A sequence of edits, each landing on the config that the one before it left. */
  predicate EditRun(contents: Contents, node: string, cfgs: seq<Config>, edits: seq<Config>) {
    && |cfgs| == |edits| + 1
    && forall i :: 0 <= i < |edits| ==> EditLands(contents, node, edits[i], cfgs[i], cfgs[i + 1])
  }

  lemma EditRunTail(contents: Contents, node: string, cfgs: seq<Config>, edits: seq<Config>)
    requires EditRun(contents, node, cfgs, edits) && edits != []
    ensures EditRun(contents, node, cfgs[1..], edits[1..])
  {
    forall i | 0 <= i < |edits[1..]| ensures EditLands(contents, node, edits[1..][i], cfgs[1..][i], cfgs[1..][i + 1]) {
      assert edits[1..][i] == edits[i + 1] && cfgs[1..][i] == cfgs[i + 1] && cfgs[1..][i + 1] == cfgs[i + 2];
    }
  }

  ghost function DeltaTotal(kind: string, cfgs: seq<Config>, edits: seq<Config>, d: Dim): int
    requires |cfgs| == |edits| + 1
  {
    if edits == [] then 0
    else ConfigDelta(kind, edits[0], cfgs[0]).At(d) + DeltaTotal(kind, cfgs[1..], edits[1..], d)
  }

  /** What the edits departed from their deltas by, all together. */
  ghost function DepartureTotal(contents: Contents, node: string, cfgs: seq<Config>, edits: seq<Config>, d: Dim): int
    requires |cfgs| == |edits| + 1
  {
    if edits == [] then 0
    else
      EditUncharged(contents, node, edits[0], cfgs[0], d) - EditShortfall(contents, node, edits[0], cfgs[1], d)
      + DepartureTotal(contents, node, cfgs[1..], edits[1..], d)
  }

  /** Any sequence of edits telescopes: the final footprint is the first one plus the deltas plus
      what each edit departed from its own. */
  lemma {:induction false} EditsTelescope(contents: Contents, node: string, kind: string,
                                          cfgs: seq<Config>, edits: seq<Config>, d: Dim)
    requires EditRun(contents, node, cfgs, edits)
    ensures Foot(contents, node, kind, cfgs[|edits|], d) ==
            Foot(contents, node, kind, cfgs[0], d) + DeltaTotal(kind, cfgs, edits, d)
            + DepartureTotal(contents, node, cfgs, edits, d)
  {
    if edits != [] {
      EditResidual(contents, node, kind, edits[0], cfgs[0], cfgs[1], d);
      EditRunTail(contents, node, cfgs, edits);
      EditsTelescope(contents, node, kind, cfgs[1..], edits[1..], d);
    }
  }

  lemma {:induction false} NoDeparture(contents: Contents, node: string, cfgs: seq<Config>, edits: seq<Config>, d: Dim)
    requires EditRun(contents, node, cfgs, edits)
    requires d.Disk? ==> forall i :: 0 <= i < |edits| ==>
               OnlyNewDrives(edits[i], cfgs[i]) && InFull(contents, node, edits[i], Made(edits[i], cfgs[i + 1]))
    ensures DepartureTotal(contents, node, cfgs, edits, d) == 0
  {
    if edits != [] {
      if d.Disk? {
        OnlyNewUncharged(contents, node, edits[0], cfgs[0], d);
        EditInFull(contents, node, edits[0], cfgs[0], cfgs[1], d);
      }
      EditRunTail(contents, node, cfgs, edits);
      forall i | d.Disk? && 0 <= i < |edits[1..]|
        ensures OnlyNewDrives(edits[1..][i], cfgs[1..][i])
        ensures InFull(contents, node, edits[1..][i], Made(edits[1..][i], cfgs[1..][i + 1]))
      {
        assert edits[1..][i] == edits[i + 1] && cfgs[1..][i] == cfgs[i + 1] && cfgs[1..][i + 1] == cfgs[i + 2];
      }
      NoDeparture(contents, node, cfgs[1..], edits[1..], d);
    }
  }

  /** The deltas of any sequence of edits add up to the final cores and memory minus the first ones,
      and to the same for bytes when the drives written are new and made in full. */
  lemma DeltasTelescope(contents: Contents, node: string, kind: string, cfgs: seq<Config>, edits: seq<Config>, d: Dim)
    requires EditRun(contents, node, cfgs, edits)
    requires d.Disk? ==> forall i :: 0 <= i < |edits| ==>
               OnlyNewDrives(edits[i], cfgs[i]) && InFull(contents, node, edits[i], Made(edits[i], cfgs[i + 1]))
    ensures DeltaTotal(kind, cfgs, edits, d) ==
            Foot(contents, node, kind, cfgs[|edits|], d) - Foot(contents, node, kind, cfgs[0], d)
  {
    EditsTelescope(contents, node, kind, cfgs, edits, d);
    NoDeparture(contents, node, cfgs, edits, d);
  }

  // ---------------------------------------------------------------- resize and move

  lemma DriveReplaced(contents: Contents, node: string, drives: Drives, k: string, spec: DiskSpec, st: string)
    ensures DriveBytes(contents, node, drives[k := spec], st) ==
            DriveBytes(contents, node, drives, st) + DriveTerm(contents, node, spec, st)
            - if k in drives then DriveTerm(contents, node, drives[k], st) else 0
  {
    SumChange(DriveMap(contents, node, drives, st), DriveMap(contents, node, drives[k := spec], st), k);
  }

  predicate IsRelative(size: string) {
    CutPrefix(size, "+").Some?
  }

  /** The size a drive has after a resize request: grown by "+n", or set to "n". */
  function NewSize(contents: Contents, node: string, size: string, spec: DiskSpec): Option<int> {
    match CutPrefix(size, "+")
    case Some(rest) =>
      (match ParseSize(rest) case Some(n) => Some(Weight(contents, node, spec) + n) case None => None)
    case None => ParseSize(size)
  }

  predicate ResizeLands(contents: Contents, node: string, p: Config, cur: Config, cfg: Config) {
    var disk, drives := Field(p, "disk"), DrivesOf(cur);
    && SameResources(cur, cfg)
    && disk in drives && Counted(drives[disk])
    && NewSize(contents, node, Field(p, "size"), drives[disk]).Some?
    && DrivesOf(cfg) ==
         var size := NewSize(contents, node, Field(p, "size"), drives[disk]).value;
         drives[disk := drives[disk].(size := size, hasSize := true)]
  }

  /** The only entry of a resize delta is the growth of the named drive on its storage. */
  lemma ResizeDeltaAt(p: Config, cur: Config, d: Dim)
    requires Field(p, "disk") in DrivesOf(cur)
    ensures var spec, size := DrivesOf(cur)[Field(p, "disk")], Field(p, "size");
            ResizeDelta(p, cur).At(d) ==
            if !(d.Disk? && spec.storage != "" && d.storage == spec.storage) then 0
            else if IsRelative(size) then
              var n := ParseSize(size[1..]); if n.Some? then n.value else 0
            else
              var n := ParseSize(size); if n.Some? && spec.hasSize then Increase(n.value, spec.size) else 0
  {
    assert ParseSize("").None?;
  }

  /** What a resize grows the drive by, beyond its delta. */
  function ResizeUncharged(contents: Contents, node: string, p: Config, cur: Config, d: Dim): int
    requires Field(p, "disk") in DrivesOf(cur)
    requires NewSize(contents, node, Field(p, "size"), DrivesOf(cur)[Field(p, "disk")]).Some?
  {
    var spec, size := DrivesOf(cur)[Field(p, "disk")], Field(p, "size");
    var goal := NewSize(contents, node, size, spec).value;
    if d != Disk(spec.storage) || IsRelative(size) then 0
    else if spec.hasSize then -Increase(spec.size, goal)
    else goal - Weight(contents, node, spec)
  }

  /** How far a landed resize departs from its delta: not at all when it grows a sized drive or is relative. */
  lemma ResizeResidual(contents: Contents, node: string, kind: string, p: Config, cur: Config, cfg: Config, d: Dim)
    requires ResizeLands(contents, node, p, cur, cfg)
    ensures Foot(contents, node, kind, cfg, d) ==
            Foot(contents, node, kind, cur, d) + ResizeDelta(p, cur).At(d) + ResizeUncharged(contents, node, p, cur, d)
  {
    match d
    case Disk(st) =>
      ResizedBytes(contents, node, p, cur, cfg, st);
      ResizeSplits(contents, node, p, cur, st);
    case _ =>
      ResizeDeltaAt(p, cur, d);
      ResourcesAgree(kind, cur, cfg);
  }

  /** The growth of the named drive is what the delta counts, and the rest. */
  lemma ResizeSplits(contents: Contents, node: string, p: Config, cur: Config, st: string)
    requires Field(p, "disk") in DrivesOf(cur) && Counted(DrivesOf(cur)[Field(p, "disk")])
    requires NewSize(contents, node, Field(p, "size"), DrivesOf(cur)[Field(p, "disk")]).Some?
    ensures var spec := DrivesOf(cur)[Field(p, "disk")];
            (if st == spec.storage
             then NewSize(contents, node, Field(p, "size"), spec).value - Weight(contents, node, spec) else 0) ==
            ResizeDelta(p, cur).At(Disk(st)) + ResizeUncharged(contents, node, p, cur, Disk(st))
  {
    ResizeDeltaAt(p, cur, Disk(st));
  }

  lemma ResizedBytes(contents: Contents, node: string, p: Config, cur: Config, cfg: Config, st: string)
    requires ResizeLands(contents, node, p, cur, cfg)
    ensures var spec := DrivesOf(cur)[Field(p, "disk")];
            DriveBytes(contents, node, DrivesOf(cfg), st) ==
            DriveBytes(contents, node, DrivesOf(cur), st) +
            if st == spec.storage
            then NewSize(contents, node, Field(p, "size"), spec).value - Weight(contents, node, spec) else 0
  {
    var spec := DrivesOf(cur)[Field(p, "disk")];
    var goal := NewSize(contents, node, Field(p, "size"), spec).value;
    DriveReplaced(contents, node, DrivesOf(cur), Field(p, "disk"), spec.(size := goal, hasSize := true), st);
  }

  lemma ResizeBound(contents: Contents, node: string, kind: string, p: Config, cur: Config, cfg: Config, d: Dim)
    requires ResizeLands(contents, node, p, cur, cfg)
    ensures var spec, size := DrivesOf(cur)[Field(p, "disk")], Field(p, "size");
            Bounds(ResizeDelta(p, cur), contents, node, kind, cur, cfg, d) <==>
            (d == Disk(spec.storage) ==>
               spec.hasSize || IsRelative(size) ||
               NewSize(contents, node, size, spec).value <= Weight(contents, node, spec))
  {
    ResizeResidual(contents, node, kind, p, cur, cfg, d);
  }

  /** A resize delta bounds the growth exactly when the drive states its size, or the request is
      relative, or the absolute size asked for is no more than the drive already weighs. */
  lemma ResizeDeltaSound(contents: Contents, node: string, kind: string, p: Config, cur: Config, cfg: Config)
    requires ResizeLands(contents, node, p, cur, cfg)
    ensures var spec, size := DrivesOf(cur)[Field(p, "disk")], Field(p, "size");
            (forall d :: Bounds(ResizeDelta(p, cur), contents, node, kind, cur, cfg, d)) <==>
            spec.hasSize || IsRelative(size) ||
            NewSize(contents, node, size, spec).value <= Weight(contents, node, spec)
  {
    forall d { ResizeBound(contents, node, kind, p, cur, cfg, d); }
    ResizeBound(contents, node, kind, p, cur, cfg, Disk(DrivesOf(cur)[Field(p, "disk")].storage));
  }

  /** A moved drive names a new volume on the target storage, with the size it had. The volume it
      leaves behind is deleted, or kept under an `unused` key that states no size. */
  datatype Leftover = Deleted | KeptAs(key: string)

  function LeftoverSpec(spec: DiskSpec): DiskSpec {
    DiskSpec(spec.storage, 0, false, false, spec.volid)
  }

  /** The drives after a move. */
  function MovedDrives(drives: Drives, key: string, target: string, newVolid: string, left: Leftover): Drives
    requires key in drives
  {
    var moved := drives[key := drives[key].(storage := target, volid := newVolid)];
    match left case Deleted => moved case KeptAs(k) => moved[k := LeftoverSpec(drives[key])]
  }

  predicate MoveLands(p: Config, cur: Config, cfg: Config, newVolid: string, left: Leftover) {
    var key, target, drives := MoveKey(p), Field(p, "storage"), DrivesOf(cur);
    && SameResources(cur, cfg)
    && key in drives && Counted(drives[key]) && target != ""
    && (left.KeptAs? ==> left.key !in drives)
    && DrivesOf(cfg) == MovedDrives(drives, key, target, newVolid, left)
  }

  /** What the volume left behind still weighs. */
  function LeftoverBytes(contents: Contents, node: string, spec: DiskSpec, left: Leftover): int {
    if left.Deleted? then 0 else Lookup(contents, node, Ref(spec.storage, spec.volid))
  }

  /** What the moved drive weighs on the target: what it states, or what the new volume is listed at. */
  function MovedWeight(contents: Contents, node: string, spec: DiskSpec, target: string, newVolid: string): int {
    if spec.hasSize then spec.size else Lookup(contents, node, Ref(target, newVolid))
  }

  lemma MoveDeltaAt(p: Config, cur: Config, d: Dim)
    requires MoveKey(p) in DrivesOf(cur) && Field(p, "storage") != ""
    ensures MoveDelta(p, cur).At(d) ==
            var spec, target := DrivesOf(cur)[MoveKey(p)], Field(p, "storage");
            if d == Disk(target) && spec.storage != target && spec.hasSize then spec.size else 0
  {}

  lemma MovedBytes(contents: Contents, node: string, drives: Drives, key: string, target: string, newVolid: string,
                   left: Leftover, st: string)
    requires key in drives && Counted(drives[key]) && target != ""
    requires left.KeptAs? ==> left.key !in drives
    ensures var spec := drives[key];
            DriveBytes(contents, node, MovedDrives(drives, key, target, newVolid, left), st) ==
            DriveBytes(contents, node, drives, st)
            + (if st == target then MovedWeight(contents, node, spec, target, newVolid) else 0)
            + (if st == spec.storage
               then LeftoverBytes(contents, node, spec, left) - Weight(contents, node, spec) else 0)
  {
    var gone := drives[key].(storage := target, volid := newVolid);
    DriveReplaced(contents, node, drives, key, gone, st);
    if left.KeptAs? {
      DriveReplaced(contents, node, drives[key := gone], left.key, LeftoverSpec(drives[key]), st);
    }
  }

  /** What a move adds to a dimension beyond its delta: an unsized drive on the target, and what is
      left on the source, less what the drive weighed there. */
  function MoveUncharged(contents: Contents, node: string, p: Config, cur: Config, newVolid: string, left: Leftover,
                         d: Dim): int
    requires MoveKey(p) in DrivesOf(cur)
  {
    var spec, target := DrivesOf(cur)[MoveKey(p)], Field(p, "storage");
    (if d != Disk(target) || (spec.hasSize && spec.storage != target) then 0
     else MovedWeight(contents, node, spec, target, newVolid)) +
    if d != Disk(spec.storage) then 0 else LeftoverBytes(contents, node, spec, left) - Weight(contents, node, spec)
  }

  /** How far a landed move departs from its delta, for sized and unsized drives. */
  lemma MoveResidual(contents: Contents, node: string, kind: string, p: Config, cur: Config, cfg: Config,
                     newVolid: string, left: Leftover, d: Dim)
    requires MoveLands(p, cur, cfg, newVolid, left)
    ensures Foot(contents, node, kind, cfg, d) ==
            Foot(contents, node, kind, cur, d) + MoveDelta(p, cur).At(d)
            + MoveUncharged(contents, node, p, cur, newVolid, left, d)
  {
    var key, target, drives := MoveKey(p), Field(p, "storage"), DrivesOf(cur);
    MoveDeltaAt(p, cur, d);
    match d
    case Disk(st) => MovedBytes(contents, node, drives, key, target, newVolid, left, st);
    case _ => ResourcesAgree(kind, cur, cfg);
  }

  /** Where a move delta is a bound. Within one storage, the moved drive and what is left must weigh
      no more than the drive did. Between storages, the drive must state its size, or weigh nothing
      on the target, and what is left must weigh no more than the drive did. */
  predicate MoveCharged(contents: Contents, node: string, p: Config, cur: Config, newVolid: string, left: Leftover)
    requires MoveKey(p) in DrivesOf(cur)
  {
    var spec, target := DrivesOf(cur)[MoveKey(p)], Field(p, "storage");
    var moved := MovedWeight(contents, node, spec, target, newVolid);
    var remains := LeftoverBytes(contents, node, spec, left);
    if spec.storage == target then moved + remains <= Weight(contents, node, spec)
    else (spec.hasSize || moved <= 0) && remains <= Weight(contents, node, spec)
  }

  lemma MoveChargedAt(contents: Contents, node: string, p: Config, cur: Config, newVolid: string, left: Leftover,
      d: Dim)
    requires MoveKey(p) in DrivesOf(cur) && MoveCharged(contents, node, p, cur, newVolid, left)
    ensures MoveUncharged(contents, node, p, cur, newVolid, left, d) <= 0
  {}

  /** A move delta bounds the growth exactly when the move is charged for. */
  lemma MoveDeltaSound(contents: Contents, node: string, kind: string, p: Config, cur: Config, cfg: Config,
                       newVolid: string, left: Leftover)
    requires MoveLands(p, cur, cfg, newVolid, left)
    ensures (forall d :: Bounds(MoveDelta(p, cur), contents, node, kind, cur, cfg, d)) <==>
            MoveCharged(contents, node, p, cur, newVolid, left)
  {
    forall d
      ensures Bounds(MoveDelta(p, cur), contents, node, kind, cur, cfg, d) <==>
              MoveUncharged(contents, node, p, cur, newVolid, left, d) <= 0
    {
      MoveResidual(contents, node, kind, p, cur, cfg, newVolid, left, d);
    }
    if MoveCharged(contents, node, p, cur, newVolid, left) {
      forall d { MoveChargedAt(contents, node, p, cur, newVolid, left, d); }
    } else {
      var source, target := Disk(DrivesOf(cur)[MoveKey(p)].storage), Disk(Field(p, "storage"));
      assert MoveUncharged(contents, node, p, cur, newVolid, left, source) > 0
        || MoveUncharged(contents, node, p, cur, newVolid, left, target) > 0;
    }
  }

  // ---------------------------------------------------------------- rollback

  predicate RollbackLands(snap: Config, cfg: Config) {
    SameResources(snap, cfg) && DrivesOf(cfg) == DrivesOf(snap)
  }

  ghost function RollbackDelta(kind: string, snap: Config, cur: Config): Delta {
    IncreaseDelta(ConfigUsage(kind, snap), ConfigUsage(kind, cur))
  }

  lemma IncreaseAt(target: Usage, current: Usage, d: Dim)
    requires forall st :: Get(current.diskBytes, st) >= 0
    ensures IncreaseDelta(target, current).At(d) == if d == Instances then 0 else Increase(target.At(d), current.At(d))
  {}

  /** What a storage gains from unsized volumes in a rollback, beyond what its sized drives give up. */
  ghost function Resurfaced(contents: Contents, node: string, snap: Drives, cur: Drives, d: Dim): int {
    match d
    case Disk(st) =>
      Unsized(contents, node, snap, st) - Unsized(contents, node, cur, st) - Increase(Sized(cur, st), Sized(snap, st))
    case _ => 0
  }

  /** How far a rollback departs from its delta: cores and memory are charged their increase and
      nothing for a decrease; a storage departs by what resurfaces. */
  lemma RollbackResidual(contents: Contents, node: string, kind: string, snap: Config, cur: Config, cfg: Config, d: Dim)
    requires RollbackLands(snap, cfg)
    requires forall st :: Sized(DrivesOf(cur), st) >= 0
    ensures Foot(contents, node, kind, cfg, d) ==
            Foot(contents, node, kind, cur, d) + RollbackDelta(kind, snap, cur).At(d) +
            if d.Disk? then Resurfaced(contents, node, DrivesOf(snap), DrivesOf(cur), d)
            else -Increase(Foot(contents, node, kind, cur, d), Foot(contents, node, kind, cfg, d))
  {
    var target, current := ConfigUsage(kind, snap), ConfigUsage(kind, cur);
    forall st ensures Get(current.diskBytes, st) >= 0 { assert current.At(Disk(st)) == Sized(DrivesOf(cur), st); }
    IncreaseAt(target, current, d);
    match d
    case Disk(st) =>
      BytesSplit(contents, node, DrivesOf(snap), st);
      BytesSplit(contents, node, DrivesOf(cur), st);
    case _ => ResourcesAgree(kind, snap, cfg);
  }

  lemma RollbackBound(contents: Contents, node: string, kind: string, snap: Config, cur: Config, cfg: Config, d: Dim)
    requires RollbackLands(snap, cfg)
    requires forall st :: Sized(DrivesOf(cur), st) >= 0
    ensures Bounds(RollbackDelta(kind, snap, cur), contents, node, kind, cur, cfg, d) <==>
            Resurfaced(contents, node, DrivesOf(snap), DrivesOf(cur), d) <= 0
  {
    RollbackResidual(contents, node, kind, snap, cur, cfg, d);
  }

  /** A rollback delta bounds the growth exactly when the unsized volumes that the snapshot brings
      back weigh no more, per storage, than the current ones plus what the sized drives give up. */
  lemma RollbackDeltaSound(contents: Contents, node: string, kind: string, snap: Config, cur: Config, cfg: Config)
    requires RollbackLands(snap, cfg)
    requires forall st :: Sized(DrivesOf(cur), st) >= 0
    ensures (forall d :: Bounds(RollbackDelta(kind, snap, cur), contents, node, kind, cur, cfg, d)) <==>
            (forall d :: Resurfaced(contents, node, DrivesOf(snap), DrivesOf(cur), d) <= 0)
  {
    forall d { RollbackBound(contents, node, kind, snap, cur, cfg, d); }
  }

  // ---------------------------------------------------------------- clone and restore

  /** Where a copied drive lands: on the `storage` asked for, if any. */
  function CopyStorage(target: string, src: DiskSpec): string {
    if target == "" then src.storage else target
  }

  /** A drive copied from `src`: volumes that state no size are not copied. */
  predicate Copied(target: string, src: DiskSpec, got: DiskSpec) {
    Counted(got) ==>
      && Counted(src) && src.hasSize && got.hasSize && got.size == src.size
      && got.storage == CopyStorage(target, src)
  }

  predicate CopiedDrives(target: string, src: Drives, got: Drives) {
    got.Keys <= src.Keys && forall k <- got :: Copied(target, src[k], got[k])
  }

  predicate CopyLands(target: string, src: Config, cfg: Config) {
    SameResources(src, cfg) && CopiedDrives(target, DrivesOf(src), DrivesOf(cfg))
  }

  /** Every drive weighs something non-negative on its own storage. */
  predicate NonNegativeDrives(contents: Contents, node: string, drives: Drives) {
    forall k <- drives :: Weight(contents, node, drives[k]) >= 0
  }

  function WeightMap(contents: Contents, node: string, drives: Drives): map<string, int> {
    map k | k in drives :: Weight(contents, node, drives[k])
  }

  lemma WithoutDrive(contents: Contents, node: string, drives: Drives, k: string, st: string)
    requires k in drives
    ensures DriveBytes(contents, node, drives - {k}, st) ==
            DriveBytes(contents, node, drives, st) - DriveTerm(contents, node, drives[k], st)
  {
    SumChange(DriveMap(contents, node, drives, st), DriveMap(contents, node, drives - {k}, st), k);
  }

  /** Summing the totals per storage is summing over the drives. */
  lemma {:induction false} StoragesExchange(contents: Contents, node: string, drives: Drives, disks: map<string, int>)
    requires forall st :: Get(disks, st) == DriveBytes(contents, node, drives, st)
    ensures Sum(disks) == Sum(WeightMap(contents, node, drives))
    decreases |drives|
  {
    if drives == map[] {
      forall st ensures Get(disks, st) == 0 { SumZero(DriveMap(contents, node, drives, st)); }
      SumZero(disks);
    } else {
      var k :| k in drives;
      var fewer := drives - {k};
      assert fewer.Keys == drives.Keys - {k} && |fewer| < |drives|;
      var spec := drives[k];
      var less := disks[spec.storage := Get(disks, spec.storage) - Weight(contents, node, spec)];
      forall st ensures Get(less, st) == DriveBytes(contents, node, fewer, st) {
        assert Get(disks, st) == DriveBytes(contents, node, drives, st);
        WithoutDrive(contents, node, drives, k, st);
      }
      StoragesExchange(contents, node, fewer, less);
      SumChange(disks, less, spec.storage);
      SumChange(WeightMap(contents, node, drives), WeightMap(contents, node, fewer), k);
    }
  }

  /** The bytes of a copy on one storage, whatever listings it is measured with. */
  lemma CopiedBytes(contents: Contents, node: string, src: Drives, target: string, got: Drives,
                    contents': Contents, node': string, st: string)
    requires CopiedDrives(target, src, got) && NonNegativeDrives(contents, node, src)
    ensures target == "" ==> DriveBytes(contents', node', got, st) <= DriveBytes(contents, node, src, st)
    ensures target != "" ==> DriveBytes(contents', node', got, st) <=
                             if st == target then Sum(WeightMap(contents, node, src)) else 0
  {
    if target == "" {
      SumMono(DriveMap(contents', node', got, st), DriveMap(contents, node, src, st));
    } else if st == target {
      SumMono(DriveMap(contents', node', got, st), WeightMap(contents, node, src));
    } else {
      SumZero(DriveMap(contents', node', got, st));
    }
  }

  /** The footprint of a clone is at most its delta, whether or not it is redirected to one storage. */
  lemma CloneDeltaSound(contents: Contents, node: string, kind: string, src: Config, u: Usage, p: Config,
                        contents': Contents, node': string, cfg: Config, d: Dim)
    requires forall d :: u.At(d) == Foot(contents, node, kind, src, d)
    requires CopyLands(Field(p, "storage"), src, cfg) && NonNegativeDrives(contents, node, DrivesOf(src))
    ensures Foot(contents', node', kind, cfg, d) <= CloneDelta(u, p).At(d)
  {
    var target := Field(p, "storage");
    assert u.At(d) == Foot(contents, node, kind, src, d);
    match d
    case Disk(st) =>
      forall st ensures Get(u.diskBytes, st) == DriveBytes(contents, node, DrivesOf(src), st) {
        assert u.At(Disk(st)) == Foot(contents, node, kind, src, Disk(st));
      }
      StoragesExchange(contents, node, DrivesOf(src), u.diskBytes);
      CopiedBytes(contents, node, DrivesOf(src), target, DrivesOf(cfg), contents', node', st);
    case _ => ResourcesAgree(kind, src, cfg);
  }

  /** Every drive that counts was copied. */
  predicate FullCopy(src: Drives, got: Drives) {
    forall k <- src :: Counted(src[k]) ==> k in got && Counted(got[k])
  }

  lemma FullCopyBytes(contents: Contents, node: string, src: Drives, target: string, got: Drives,
                      contents': Contents, node': string, st: string)
    requires CopiedDrives(target, src, got) && FullCopy(src, got)
    ensures DriveBytes(contents', node', got, st) ==
            if target == "" then DriveBytes(contents, node, src, st)
            else if st == target then Sum(WeightMap(contents, node, src)) else 0
  {
    if target == "" {
      SumEqual(DriveMap(contents', node', got, st), DriveMap(contents, node, src, st));
    } else if st == target {
      SumEqual(DriveMap(contents', node', got, st), WeightMap(contents, node, src));
    } else {
      SumZero(DriveMap(contents', node', got, st));
    }
  }

  /** A clone that copies everything weighs exactly its delta. */
  lemma CloneDeltaExact(contents: Contents, node: string, kind: string, src: Config, u: Usage, p: Config,
                        contents': Contents, node': string, cfg: Config, d: Dim)
    requires forall d :: u.At(d) == Foot(contents, node, kind, src, d)
    requires CopyLands(Field(p, "storage"), src, cfg) && FullCopy(DrivesOf(src), DrivesOf(cfg))
    ensures Foot(contents', node', kind, cfg, d) == CloneDelta(u, p).At(d)
  {
    var target := Field(p, "storage");
    assert u.At(d) == Foot(contents, node, kind, src, d);
    match d
    case Disk(st) =>
      forall st ensures Get(u.diskBytes, st) == DriveBytes(contents, node, DrivesOf(src), st) {
        assert u.At(Disk(st)) == Foot(contents, node, kind, src, Disk(st));
      }
      StoragesExchange(contents, node, DrivesOf(src), u.diskBytes);
      FullCopyBytes(contents, node, DrivesOf(src), target, DrivesOf(cfg), contents', node', st);
    case _ => ResourcesAgree(kind, src, cfg);
  }

  ghost function RestoreDelta(kind: string, archived: Config): Delta {
    UsageToDelta(ConfigUsage(kind, archived))
  }

  /** Only what an archived config states by itself comes back; the listings say nothing about it. */
  lemma RestoreDeltaSound(kind: string, archived: Config, contents: Contents, node: string, cfg: Config, d: Dim)
    requires CopyLands("", archived, cfg) && NonNegativeDrives(map[], "", DrivesOf(archived))
    ensures Foot(contents, node, kind, cfg, d) <= RestoreDelta(kind, archived).At(d)
  {
    match d
    case Disk(st) =>
      var drives := DrivesOf(archived);
      CopiedBytes(map[], "", drives, "", DrivesOf(cfg), contents, node, st);
      BytesSplit(map[], "", drives, st);
      SumZero(UnsizedMap(map[], "", drives, st));
      assert ConfigUsage(kind, archived).At(d) == Sized(drives, st);
    case _ => ResourcesAgree(kind, archived, cfg);
  }

  /** A restore to the archive's own storages that brings back everything weighs exactly its delta. */
  lemma RestoreDeltaExact(kind: string, archived: Config, contents: Contents, node: string, cfg: Config, d: Dim)
    requires CopyLands("", archived, cfg) && FullCopy(DrivesOf(archived), DrivesOf(cfg))
    ensures Foot(contents, node, kind, cfg, d) == RestoreDelta(kind, archived).At(d)
  {
    match d
    case Disk(st) =>
      var drives := DrivesOf(archived);
      FullCopyBytes(map[], "", drives, "", DrivesOf(cfg), contents, node, st);
      BytesSplit(map[], "", drives, st);
      SumZero(UnsizedMap(map[], "", drives, st));
      assert ConfigUsage(kind, archived).At(d) == Sized(drives, st);
    case _ => ResourcesAgree(kind, archived, cfg);
  }

  /** Every sized drive with something on it was copied. */
  predicate CopiedInFull(src: Drives, got: Drives) {
    forall k <- src :: Weight(map[], "", src[k]) > 0 ==> k in got && Counted(got[k])
  }

  /** The drives of `src` fit on `target` alone exactly when nothing is stated anywhere else. */
  lemma NothingElsewhere(src: Drives, target: string)
    requires NonNegativeDrives(map[], "", src)
    ensures Sum(WeightMap(map[], "", src)) <= Sized(src, target) <==>
            (forall k <- src :: src[k].storage == target || Weight(map[], "", src[k]) == 0)
  {
    var all := WeightMap(map[], "", src);
    var elsewhere := map k | k in src :: if src[k].storage == target then 0 else all[k];
    SumAdd(SizedMap(src, target), elsewhere, all);
    if k :| k in src && elsewhere[k] != 0 {
      SumChange(elsewhere, elsewhere[k := 0], k);
      SumNonNegative(elsewhere[k := 0]);
    } else {
      SumZero(elsewhere);
    }
  }

  lemma RedirectedBytes(src: Drives, target: string, got: Drives, contents: Contents, node: string, st: string)
    requires target != "" && CopiedDrives(target, src, got) && CopiedInFull(src, got)
    requires NonNegativeDrives(map[], "", src)
    ensures DriveBytes(contents, node, got, st) == if st == target then Sum(WeightMap(map[], "", src)) else 0
  {
    if st == target {
      SumEqual(DriveMap(contents, node, got, st), WeightMap(map[], "", src));
    } else {
      SumZero(DriveMap(contents, node, got, st));
    }
  }

  lemma RedirectedBound(kind: string, archived: Config, target: string, contents: Contents, node: string, cfg: Config,
      d: Dim)
    requires target != "" && CopyLands(target, archived, cfg) && CopiedInFull(DrivesOf(archived), DrivesOf(cfg))
    requires NonNegativeDrives(map[], "", DrivesOf(archived))
    ensures Foot(contents, node, kind, cfg, d) <= RestoreDelta(kind, archived).At(d) <==>
            (d == Disk(target) ==> Sum(WeightMap(map[], "", DrivesOf(archived))) <= Sized(DrivesOf(archived), target))
  {
    var src := DrivesOf(archived);
    match d
    case Disk(st) =>
      RedirectedBytes(src, target, DrivesOf(cfg), contents, node, st);
      SumNonNegative(SizedMap(src, st));
      assert ConfigUsage(kind, archived).At(d) == Sized(src, st);
    case _ => ResourcesAgree(kind, archived, cfg);
  }

  /** A restore that is redirected to one storage with all its sized drives is bounded by its delta
      exactly when the archive holds nothing anywhere else. */
  lemma RestoreRedirected(kind: string, archived: Config, target: string, contents: Contents, node: string, cfg: Config)
    requires target != "" && CopyLands(target, archived, cfg) && CopiedInFull(DrivesOf(archived), DrivesOf(cfg))
    requires NonNegativeDrives(map[], "", DrivesOf(archived))
    ensures var src := DrivesOf(archived);
            (forall d :: Foot(contents, node, kind, cfg, d) <= RestoreDelta(kind, archived).At(d)) <==>
            (forall k <- src :: src[k].storage == target || Weight(map[], "", src[k]) == 0)
  {
    NothingElsewhere(DrivesOf(archived), target);
    forall d { RedirectedBound(kind, archived, target, contents, node, cfg, d); }
    RedirectedBound(kind, archived, target, contents, node, cfg, Disk(target));
  }
}
