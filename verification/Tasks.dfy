/** Guests, and the tasks by which the upstream applies admitted writes to them. */
module Tasks {
  import opened Wrappers
  import opened GoStrings
  import opened MapSums
  import opened Accounting
  import opened Engine
  import opened Deltas
  import opened Landing
  import opened Quota
  import opened Admission

  datatype Guest = Guest(node: string, kind: string, pool: string, cfg: Config)

  ghost function GuestFoot(contents: Contents, g: Guest, d: Dim): int {
    Foot(contents, g.node, g.kind, g.cfg, d)
  }

  /** Quantities of a guest are non-negative, whatever the listings say. */
  ghost predicate WellSized(g: Guest) {
    forall contents, d :: NonNegativeContents(contents) ==> GuestFoot(contents, g, d) >= 0
  }

  // ---------------------------------------------------------------- lighter guests

  /** A number left as it was, or lowered to no less than zero. */
  predicate Lowered(a: int, b: int) {
    a == b || 0 <= a <= b
  }

  function Sockets(kind: string, cfg: Config): int {
    if kind == "qemu" then AtoiDef(Field(cfg, "sockets"), 1) else 1
  }

  function CoresEach(kind: string, cfg: Config): int {
    AtoiDef(Field(cfg, "cores"), if kind == "qemu" then 1 else 0)
  }

  /** Drives taken away, none of a negative size, and the others as they were. */
  predicate Dropped(a: Drives, b: Drives) {
    && (forall k <- a :: k in b && a[k] == b[k])
    && (forall k <- b :: k in a || !b[k].hasSize || b[k].size >= 0)
  }

  predicate LighterConfig(kind: string, a: Config, b: Config) {
    && Lowered(Sockets(kind, a), Sockets(kind, b)) && Lowered(CoresEach(kind, a), CoresEach(kind, b))
    && Lowered(MemoryOf(a), MemoryOf(b)) && Dropped(DrivesOf(a), DrivesOf(b))
  }

  /** What others may do to the guest of a pending write without spoiling what its delta covers: lower
      its settings one by one and take drives away. Anything that the accounting does not read may
      change freely. */
  predicate Lighter(a: Guest, b: Guest) {
    a.node == b.node && a.kind == b.kind && a.pool == b.pool && LighterConfig(a.kind, a.cfg, b.cfg)
  }

  lemma CoresProduct(kind: string, cfg: Config)
    ensures TotalCores(kind, cfg) == Sockets(kind, cfg) * CoresEach(kind, cfg)
  {}

  /** A product of lowered factors is at most the old product, or zero if that was negative. */
  lemma LoweredProduct(a: int, b: int, x: int, y: int)
    requires Lowered(a, x) && Lowered(b, y)
    ensures a * b <= x * y || a * b <= 0
  {
    if 0 <= a <= x && 0 <= b <= y {
      assert a * b <= x * b <= x * y;
    } else if a == x && 0 <= b <= y {
      if x >= 0 { assert x * b <= x * y; } else { assert x * b <= 0; }
    } else if b == y && 0 <= a <= x {
      if y >= 0 { assert a * y <= x * y; } else { assert a * y <= 0; }
    }
  }

  lemma DroppedBytes(contents: Contents, node: string, a: Drives, b: Drives, st: string)
    requires NonNegativeContents(contents) && Dropped(a, b)
    ensures DriveBytes(contents, node, a, st) <= DriveBytes(contents, node, b, st)
  {
    SumMono(DriveMap(contents, node, a, st), DriveMap(contents, node, b, st));
  }

  /** A lighter guest weighs no more. */
  lemma LighterFoot(contents: Contents, a: Guest, b: Guest, d: Dim)
    requires NonNegativeContents(contents) && Lighter(a, b) && GuestFoot(contents, b, d) >= 0
    ensures GuestFoot(contents, a, d) <= GuestFoot(contents, b, d)
  {
    match d
    case Disk(st) => DroppedBytes(contents, a.node, DrivesOf(a.cfg), DrivesOf(b.cfg), st);
    case Cores =>
      CoresProduct(a.kind, a.cfg);
      CoresProduct(b.kind, b.cfg);
      LoweredProduct(Sockets(a.kind, a.cfg), CoresEach(a.kind, a.cfg),
                     Sockets(b.kind, b.cfg), CoresEach(b.kind, b.cfg));
    case _ =>
  }

  // ---------------------------------------------------------------- smaller guests

  /** A guest replaced by one of the same pool that weighs no more under any listings. */
  ghost predicate Shrunk(a: Guest, b: Guest) {
    a.pool == b.pool &&
    forall contents, d | NonNegativeContents(contents) :: GuestFoot(contents, a, d) <= GuestFoot(contents, b, d)
  }

  lemma ShrunkTransitive(a: Guest, b: Guest, c: Guest)
    requires Shrunk(a, b) && Shrunk(b, c)
    ensures Shrunk(a, c)
  {
    forall contents, d | NonNegativeContents(contents) ensures GuestFoot(contents, a, d) <= GuestFoot(contents, c, d) {
      assert GuestFoot(contents, a, d) <= GuestFoot(contents, b, d);
    }
  }

  lemma LighterShrunk(a: Guest, b: Guest)
    requires Lighter(a, b) && WellSized(b)
    ensures Shrunk(a, b)
  {
    forall contents, d | NonNegativeContents(contents) ensures GuestFoot(contents, a, d) <= GuestFoot(contents, b, d) {
      LighterFoot(contents, a, b, d);
    }
  }

  function ListingAt(contents: Contents, at: (string, string)): map<string, int> {
    if at in contents then contents[at] else map[]
  }

  /** Where a line that starts at `x` and next is at `y` gets in `n` steps. */
  function Line(x: int, y: int, n: nat): int {
    if n == 0 then x else Line(x, y, n - 1) + y - x
  }

  lemma {:induction false} LineSign(x: int, y: int, n: nat)
    requires 0 <= x <= y
    ensures Line(x, y, n) >= 0
  {
    if n > 0 { LineSign(x, y, n - 1); }
  }

  lemma {:induction false} LineStands(x: int, n: nat)
    ensures Line(x, x, n) == x
  {
    if n > 0 { LineStands(x, n - 1); }
  }

  lemma {:induction false} RisesFaster(x: int, x': int, y: int, y': int, n: nat)
    requires x' - x > y' - y
    ensures Line(x, x', n) - Line(y, y', n) >= x - y + n
  {
    if n > 0 { RisesFaster(x, x', y, y', n - 1); }
  }

  /** A line that is still below another far enough out does not rise faster. */
  lemma StaysBelow(x: int, x': int, y: int, y': int, n: nat)
    requires Line(x, x', n) <= Line(y, y', n) && n > y - x
    ensures x' - x <= y' - y
  {
    if x' - x > y' - y { RisesFaster(x, x', y, y', n); }
  }

  /** Listings that go on from `small` as to `large`, `n` times over. */
  function Further(small: Contents, large: Contents, n: nat): Contents {
    map at | at in small.Keys + large.Keys ::
      map v | v in ListingAt(small, at).Keys + ListingAt(large, at).Keys ::
        Line(Get(ListingAt(small, at), v), Get(ListingAt(large, at), v), n)
  }

  lemma FurtherLookup(small: Contents, large: Contents, n: nat, node: string, ref: Ref)
    ensures Lookup(Further(small, large, n), node, ref) == Line(Lookup(small, node, ref), Lookup(large, node, ref), n)
  {
    LineStands(0, n);
  }

  lemma FurtherTerm(small: Contents, large: Contents, n: nat, node: string, spec: DiskSpec, st: string)
    requires n > 0
    ensures DriveTerm(Further(small, large, n), node, spec, st) + DriveTerm(small, node, spec, st) ==
            DriveTerm(Further(small, large, n - 1), node, spec, st) + DriveTerm(large, node, spec, st)
  {
    FurtherLookup(small, large, n, node, Ref(spec.storage, spec.volid));
    FurtherLookup(small, large, n - 1, node, Ref(spec.storage, spec.volid));
  }

  /** What drives weigh is linear in the listings. */
  lemma {:induction false} FurtherBytes(small: Contents, large: Contents, n: nat, node: string, drives: Drives,
                                        st: string)
    ensures DriveBytes(Further(small, large, n), node, drives, st) ==
            Line(DriveBytes(small, node, drives, st), DriveBytes(large, node, drives, st), n)
  {
    if n == 0 {
      NoFurther(small, large, node, drives, st);
    } else {
      FurtherBytes(small, large, n - 1, node, drives, st);
      OneFurther(small, large, n, node, drives, st);
    }
  }

  lemma NoFurther(small: Contents, large: Contents, node: string, drives: Drives, st: string)
    ensures DriveBytes(Further(small, large, 0), node, drives, st) == DriveBytes(small, node, drives, st)
  {
    forall k | k in drives { FurtherLookup(small, large, 0, node, Ref(drives[k].storage, drives[k].volid)); }
    SumEqual(DriveMap(Further(small, large, 0), node, drives, st), DriveMap(small, node, drives, st));
  }

  lemma OneFurther(small: Contents, large: Contents, n: nat, node: string, drives: Drives, st: string)
    requires n > 0
    ensures DriveBytes(Further(small, large, n), node, drives, st) + DriveBytes(small, node, drives, st) ==
            DriveBytes(Further(small, large, n - 1), node, drives, st) + DriveBytes(large, node, drives, st)
  {
    var a, b := DriveMap(Further(small, large, n), node, drives, st), DriveMap(small, node, drives, st);
    var c, d := DriveMap(Further(small, large, n - 1), node, drives, st), DriveMap(large, node, drives, st);
    var both := map k | k in drives :: a[k] + b[k];
    forall k | k in drives ensures a[k] + b[k] == c[k] + d[k] { FurtherTerm(small, large, n, node, drives[k], st); }
    SumAdd(a, b, both);
    SumAdd(c, d, both);
  }

  lemma FurtherFoot(small: Contents, large: Contents, n: nat, g: Guest, d: Dim)
    ensures GuestFoot(Further(small, large, n), g, d) == Line(GuestFoot(small, g, d), GuestFoot(large, g, d), n)
  {
    if d.Disk? { FurtherBytes(small, large, n, g.node, DrivesOf(g.cfg), d.storage); }
    else { LineStands(GuestFoot(small, g, d), n); }
  }

  lemma FurtherNonNegative(small: Contents, large: Contents, n: nat)
    requires NonNegativeContents(small) && SmallerListings(small, large)
    ensures NonNegativeContents(Further(small, large, n))
  {
    forall node, ref ensures Lookup(Further(small, large, n), node, ref) >= 0 {
      FurtherLookup(small, large, n, node, ref);
      assert 0 <= Lookup(small, node, ref) <= Lookup(large, node, ref);
      LineSign(Lookup(small, node, ref), Lookup(large, node, ref), n);
    }
  }

  lemma FurtherGap(small: Contents, large: Contents, n: nat, a: Guest, b: Guest, d: Dim)
    requires Shrunk(a, b) && NonNegativeContents(small) && SmallerListings(small, large)
    ensures Line(GuestFoot(small, a, d), GuestFoot(large, a, d), n) <=
            Line(GuestFoot(small, b, d), GuestFoot(large, b, d), n)
  {
    FurtherFoot(small, large, n, a, d);
    FurtherFoot(small, large, n, b, d);
    FurtherNonNegative(small, large, n);
    assert GuestFoot(Further(small, large, n), a, d) <= GuestFoot(Further(small, large, n), b, d);
  }

  lemma ShrunkFoot(contents: Contents, a: Guest, b: Guest, d: Dim)
    requires Shrunk(a, b) && NonNegativeContents(contents)
    ensures GuestFoot(contents, a, d) <= GuestFoot(contents, b, d)
  {}

  /** What was taken off a guest weighs no more under smaller listings: it is linear in the listings,
      and would otherwise come to weigh less than nothing under larger and larger ones. */
  lemma TakenOffLater(small: Contents, large: Contents, a: Guest, b: Guest, d: Dim)
    requires Shrunk(a, b) && NonNegativeContents(small) && SmallerListings(small, large)
    ensures GuestFoot(small, b, d) - GuestFoot(small, a, d) <= GuestFoot(large, b, d) - GuestFoot(large, a, d)
  {
    ShrunkFoot(small, a, b, d);
    var n: nat := GuestFoot(small, b, d) - GuestFoot(small, a, d) + 1;
    FurtherGap(small, large, n, a, b, d);
    StaysBelow(GuestFoot(small, a, d), GuestFoot(large, a, d), GuestFoot(small, b, d), GuestFoot(large, b, d), n);
  }

  // ---------------------------------------------------------------- writes on their way

  /** An admitted write on its way to the guest `vmid`. If it changes one, `pre` is that guest as the
      decision read it, and `start` as it was when the write was admitted; `from` is the config that a
      clone, restore or rollback copies, read on `fromNode`. */
  datatype Task = Task(
    req: int, user: string, pool: string, write: Write, pre: Option<Guest>, start: Option<Guest>,
    from: Config, fromNode: string, delta: Delta)

  function Positive(n: int): int {
    if n > 0 then n else 0
  }

  /** The increase a write was checked for, in one dimension. */
  function Growth(t: Task, d: Dim): int {
    Positive(t.delta.At(d))
  }

  ghost function StartFoot(contents: Contents, t: Task, d: Dim): int {
    if t.start.Some? then GuestFoot(contents, t.start.value, d) else 0
  }

  ghost function PreFoot(contents: Contents, t: Task, d: Dim): int {
    if t.pre.Some? then GuestFoot(contents, t.pre.value, d) else 0
  }

  /** How a write may leave its guest, which is `base` when the write is applied: what each endpoint
      does, on the inputs for which the delta lemmas show the delta to bound the growth. Those
      conditions speak of the guest decided on; what is done is done to the guest as it is. */
  ghost predicate Lands(contents: Contents, t: Task, base: Option<Guest>, g: Guest) {
    && g.pool == t.pool && !t.write.Alloc? && g.kind == t.write.kind && base.Some? == t.pre.Some?
    && (base.Some? ==> g.node == base.value.node && g.kind == base.value.kind)
    && match t.write
       case Create(_, _, p) => if IsRestore(p) then CopyLands("", t.from, g.cfg) else CreateCharged(contents, p, g)
       case Clone(_, _, _, p) => CopyLands(Field(p, "storage"), t.from, g.cfg)
       case Edit(_, _, _, p) => base.Some? && EditCharged(contents, p, t.pre.value, base.value, g)
       case Resize(_, _, _, p) => base.Some? && ResizeCharged(contents, p, base.value, g)
       case Move(_, _, _, p) => base.Some? && MovesCharged(contents, p, base.value, g)
       case Rollback(_, _, _, _) => base.Some? && RollbackCharged(contents, t.from, t.pre.value, g)
       case Alloc(_, _, _) => false
  }

  ghost predicate CreateCharged(contents: Contents, p: Config, g: Guest) {
    CreateLands(contents, g.node, p, g.cfg) && forall st :: Attached(contents, g.node, p, st) <= 0
  }

  ghost predicate EditCharged(contents: Contents, p: Config, pre: Guest, base: Guest, g: Guest) {
    && EditLands(contents, base.node, p, base.cfg, g.cfg)
    && forall d :: EditUncharged(contents, pre.node, p, pre.cfg, d) <= 0
  }

  ghost predicate ResizeCharged(contents: Contents, p: Config, base: Guest, g: Guest) {
    && ResizeLands(contents, base.node, p, base.cfg, g.cfg)
    && var spec, size := DrivesOf(base.cfg)[Field(p, "disk")], Field(p, "size");
       spec.hasSize || IsRelative(size)
       || NewSize(contents, base.node, size, spec).value <= Weight(contents, base.node, spec)
  }

  ghost predicate MovesCharged(contents: Contents, p: Config, base: Guest, g: Guest) {
    exists newVolid, left ::
      MoveLands(p, base.cfg, g.cfg, newVolid, left) && MoveCharged(contents, base.node, p, base.cfg, newVolid, left)
  }

  ghost predicate RollbackCharged(contents: Contents, snap: Config, pre: Guest, g: Guest) {
    && RollbackLands(snap, g.cfg)
    && (forall st :: Sized(DrivesOf(pre.cfg), st) >= 0)
    && (forall d :: Resurfaced(contents, pre.node, DrivesOf(snap), DrivesOf(pre.cfg), d) <= 0)
  }

  /** What the accounting reads of a decision said about the guest, the copied config and the pool. */
  ghost predicate Truthful(contents: Contents, w: Write, r: Reads, pre: Option<Guest>, from: Config, fromNode: string) {
    match w
    case Create(_, kind, p) =>
      r.archive.Some? ==> r.archive.value == from && NonNegativeDrives(map[], "", DrivesOf(from))
    case Clone(_, kind, _, _) =>
      r.source.Some? ==>
        && (forall d :: r.source.value.At(d) == Foot(contents, fromNode, kind, from, d))
        && NonNegativeDrives(contents, fromNode, DrivesOf(from))
    case Rollback(_, _, _, _) =>
      && (r.config.Some? ==> pre.Some? && r.config.value == pre.value.cfg)
      && (r.snapshot.Some? ==> r.snapshot.value == from)
    case Alloc(_, _, _) => true
    case _ => r.config.Some? ==> pre.Some? && r.config.value == pre.value.cfg
  }

  /** The guest that a pending write finds: none for a new one, and otherwise the guest it was
      decided on, or a lighter one. */
  predicate Found(t: Task, base: Option<Guest>) {
    base.Some? == t.pre.Some? && (base.Some? ==> Lighter(base.value, t.pre.value))
  }

  /** However and whenever the write is applied, the guest ends up no heavier than it was decided on
      plus the increase checked for; and on the very guest decided on, plus the delta. */
  ghost predicate Covered(t: Task) {
    forall contents, base, g, d | NonNegativeContents(contents) && Found(t, base) && Lands(contents, t, base, g) ::
      && GuestFoot(contents, g, d) <= PreFoot(contents, t, d) + Growth(t, d)
      && (base == t.pre ==> GuestFoot(contents, g, d) <= PreFoot(contents, t, d) + t.delta.At(d))
  }

  lemma CreatedCovers(decided: Contents, r: Reads, t: Task, contents: Contents, g: Guest, d: Dim)
    requires Truthful(decided, t.write, r, t.pre, t.from, t.fromNode) && DeltaOf(t.write, r) == Some(t.delta)
    requires t.pre.None? && MakesGuest(t.write) && Lands(contents, t, None, g)
    ensures GuestFoot(contents, g, d) <= t.delta.At(d)
  {
    if t.write.Clone? {
      CloneDeltaSound(decided, t.fromNode, t.write.kind, t.from, r.source.value, t.write.params,
                      contents, g.node, g.cfg, d);
    } else if IsRestore(t.write.params) {
      RestoreDeltaSound(t.write.kind, t.from, contents, g.node, g.cfg, d);
    } else {
      CreateResidual(contents, g.node, t.write.kind, t.write.params, g.cfg, d);
      if d.Disk? { ShortfallSign(contents, g.node, t.write.params, DrivesOf(g.cfg), d.storage); }
    }
  }

  /** Merging the same parameters into a lighter config gives no more cores and memory, or none. */
  lemma LighterMerge(kind: string, p: Config, a: Config, b: Config)
    requires LighterConfig(kind, a, b)
    ensures TotalCores(kind, Merge(a, p)) <= TotalCores(kind, Merge(b, p)) || TotalCores(kind, Merge(a, p)) <= 0
    ensures MemoryOf(Merge(a, p)) <= MemoryOf(Merge(b, p))
  {
    var a', b' := Merge(a, p), Merge(b, p);
    MergedField(a, p, "sockets"); MergedField(b, p, "sockets");
    MergedField(a, p, "cores"); MergedField(b, p, "cores");
    MergedField(a, p, "memory"); MergedField(b, p, "memory");
    CoresProduct(kind, a');
    CoresProduct(kind, b');
    LoweredProduct(Sockets(kind, a'), CoresEach(kind, a'), Sockets(kind, b'), CoresEach(kind, b'));
  }

  lemma MergedField(a: Config, p: Config, key: string)
    ensures Field(Merge(a, p), key) == if key in p then p[key] else Field(a, key)
  {}

  lemma EditedLighter(contents: Contents, p: Config, pre: Guest, base: Guest, g: Guest, st: string)
    requires NonNegativeContents(contents) && Lighter(base, pre) && EditLands(contents, base.node, p, base.cfg, g.cfg)
    ensures DriveBytes(contents, base.node, DrivesOf(g.cfg), st) <=
            DriveBytes(contents, base.node, DrivesOf(pre.cfg), st)
            + ConfigDelta(pre.kind, p, pre.cfg).At(Disk(st)) + EditUncharged(contents, base.node, p, pre.cfg, Disk(st))
  {
    RewrittenLighter(contents, base.node, DrivesOf(pre.cfg), DrivesOf(base.cfg), DrivesOf(p).Keys, DrivesOf(g.cfg), st);
    MadeBytes(contents, base.node, p, Made(p, g.cfg), st);
    ShortfallSign(contents, base.node, p, Made(p, g.cfg), st);
    EditDiskDelta(pre.kind, p, pre.cfg, st);
  }

  /** Writing over some drives of a lighter guest leaves no more than writing over the same drives. */
  lemma RewrittenLighter(contents: Contents, node: string, decided: Drives, found: Drives, keys: set<string>,
      after: Drives, st: string)
    requires NonNegativeContents(contents) && Dropped(found, decided) && Rewritten(found, keys, after)
    ensures DriveBytes(contents, node, after, st) <=
            DriveBytes(contents, node, decided, st) - DriveBytes(contents, node, OnlyDrives(decided, keys), st)
            + DriveBytes(contents, node, OnlyDrives(after, keys), st)
  {
    SplitBytes(contents, node, decided, keys, st);
    SplitBytes(contents, node, after, keys, st);
    assert after - keys == found - keys;
    DroppedBytes(contents, node, found - keys, decided - keys, st);
  }

  lemma EditCovers(contents: Contents, kind: string, p: Config, pre: Guest, base: Guest, g: Guest, d: Dim)
    requires NonNegativeContents(contents) && Lighter(base, pre) && GuestFoot(contents, pre, d) >= 0
    requires EditCharged(contents, p, pre, base, g) && g.node == base.node && kind == g.kind == pre.kind
    ensures var delta := ConfigDelta(kind, p, pre.cfg).At(d);
            || GuestFoot(contents, g, d) <= GuestFoot(contents, pre, d) + delta
            || GuestFoot(contents, g, d) <= 0
  {
    match d
    case Disk(st) =>
      EditedLighter(contents, p, pre, base, g, st);
      assert EditUncharged(contents, pre.node, p, pre.cfg, d) <= 0;
    case _ =>
      ResourcesAgree(kind, Merge(base.cfg, p), g.cfg);
      LighterMerge(kind, p, base.cfg, pre.cfg);
      CoresAndMemoryExact(kind, p, pre.cfg);
  }

  /** Resize and move look at one drive, which a lighter guest has as it was. */
  lemma ChangeCovers(contents: Contents, t: Task, base: Guest, g: Guest, d: Dim)
    requires NonNegativeContents(contents) && t.pre.Some? && Lighter(base, t.pre.value) && PreFoot(contents, t, d) >= 0
    requires t.write.Resize? || t.write.Move?
    requires t.delta == (if t.write.Resize? then ResizeDelta(t.write.params, t.pre.value.cfg)
                         else MoveDelta(t.write.params, t.pre.value.cfg))
    requires Lands(contents, t, Some(base), g)
    ensures GuestFoot(contents, g, d) <= PreFoot(contents, t, d) + t.delta.At(d)
  {
    var p, pre := t.write.params, t.pre.value;
    LighterFoot(contents, base, pre, d);
    if t.write.Resize? {
      ResizeBound(contents, g.node, t.write.kind, p, base.cfg, g.cfg, d);
      ResizeDeltaAt(p, base.cfg, d);
      ResizeDeltaAt(p, pre.cfg, d);
    } else {
      var newVolid, left :|
        MoveLands(p, base.cfg, g.cfg, newVolid, left) && MoveCharged(contents, base.node, p, base.cfg, newVolid, left);
      MoveResidual(contents, g.node, t.write.kind, p, base.cfg, g.cfg, newVolid, left, d);
      MoveChargedAt(contents, g.node, p, base.cfg, newVolid, left, d);
      MoveDeltaAt(p, base.cfg, d);
      MoveDeltaAt(p, pre.cfg, d);
    }
  }

  /** The deltas of all the actions, put together: the delta that a decision computed from truthful
      reads covers every landing, also with listings that changed in between and on a guest that
      others made lighter in between. */
  lemma DecidedDeltaCovers(decided: Contents, r: Reads, t: Task, contents: Contents, base: Option<Guest>, g: Guest,
      d: Dim)
    requires Truthful(decided, t.write, r, t.pre, t.from, t.fromNode) && DeltaOf(t.write, r) == Some(t.delta)
    requires t.pre.None? <==> MakesGuest(t.write)
    requires NonNegativeContents(contents) && PreFoot(contents, t, d) >= 0
    requires Found(t, base) && Lands(contents, t, base, g)
    ensures GuestFoot(contents, g, d) <= PreFoot(contents, t, d) + Growth(t, d)
    ensures base == t.pre ==> GuestFoot(contents, g, d) <= PreFoot(contents, t, d) + t.delta.At(d)
  {
    if MakesGuest(t.write) {
      CreatedCovers(decided, r, t, contents, g, d);
    } else if t.write.Edit? {
      EditCovers(contents, t.write.kind, t.write.params, t.pre.value, base.value, g, d);
      if base == t.pre { EditExactBase(contents, t.write.kind, t.write.params, t.pre.value, g, d); }
    } else if t.write.Rollback? {
      RollbackBound(contents, g.node, t.write.kind, t.from, t.pre.value.cfg, g.cfg, d);
    } else {
      ChangeCovers(contents, t, base.value, g, d);
    }
  }

  lemma EditExactBase(contents: Contents, kind: string, p: Config, pre: Guest, g: Guest, d: Dim)
    requires EditCharged(contents, p, pre, pre, g) && g.node == pre.node && kind == g.kind == pre.kind
    ensures GuestFoot(contents, g, d) <= GuestFoot(contents, pre, d) + ConfigDelta(kind, p, pre.cfg).At(d)
  {
    EditResidual(contents, pre.node, kind, p, pre.cfg, g.cfg, d);
    if d.Disk? { ShortfallSign(contents, pre.node, p, Made(p, g.cfg), d.storage); }
    assert EditUncharged(contents, pre.node, p, pre.cfg, d) <= 0;
  }

  // ---------------------------------------------------------------- overshooting

  /** By how much a write left its guest heavier than it was when the write was admitted plus the
      increase checked for. */
  ghost function Overshoot(contents: Contents, t: Task, g: Guest, d: Dim): int {
    Positive(GuestFoot(contents, g, d) - StartFoot(contents, t, d) - Growth(t, d))
  }

  /** Under these listings and all smaller ones, the write overshoots by no more than `x`. */
  ghost predicate OverBy(contents: Contents, t: Task, g: Guest, d: Dim, x: nat) {
    forall contents' | NonNegativeContents(contents') && SmallerListings(contents', contents) ::
      Overshoot(contents', t, g, d) <= x
  }

  /** And by no less. */
  ghost predicate OverByJust(contents: Contents, t: Task, g: Guest, d: Dim, x: nat) {
    OverBy(contents, t, g, d, x) && (x == 0 || !OverBy(contents, t, g, d, x - 1))
  }

  /** The most that a write may overshoot by while listings shrink. */
  ghost function FirmOver(contents: Contents, t: Task, g: Guest, d: Dim): nat {
    if x: nat :| OverByJust(contents, t, g, d, x) then x else 0
  }

  /** It is the least such number. */
  lemma {:induction false} FirmOverIsLeast(contents: Contents, t: Task, g: Guest, d: Dim, x: nat)
    requires OverBy(contents, t, g, d, x)
    ensures OverBy(contents, t, g, d, FirmOver(contents, t, g, d)) && FirmOver(contents, t, g, d) <= x
  {
    if x > 0 && OverBy(contents, t, g, d, x - 1) {
      FirmOverIsLeast(contents, t, g, d, x - 1);
    } else {
      assert OverByJust(contents, t, g, d, x);
      OverByMore(contents, t, g, d, x, FirmOver(contents, t, g, d) - 1);
    }
  }

  lemma OverByMore(contents: Contents, t: Task, g: Guest, d: Dim, x: nat, y: int)
    requires OverBy(contents, t, g, d, x)
    ensures y >= x ==> OverBy(contents, t, g, d, y)
  {}

  /** A guest of a pool overshoots by no more than it weighs. */
  lemma OverBounded(contents: Contents, t: Task, g: Guest, d: Dim)
    requires NonNegativeContents(contents) && WellSized(g) && (t.start.Some? ==> WellSized(t.start.value))
    ensures OverBy(contents, t, g, d, FirmOver(contents, t, g, d))
    ensures Overshoot(contents, t, g, d) <= FirmOver(contents, t, g, d)
  {
    var x: nat := GuestFoot(contents, g, d);
    forall contents' | NonNegativeContents(contents') && SmallerListings(contents', contents)
      ensures Overshoot(contents', t, g, d) <= x
    {
      FootMono(contents', contents, g.node, g.kind, g.cfg, d);
      assert StartFoot(contents', t, d) >= 0;
    }
    FirmOverIsLeast(contents, t, g, d, x);
  }

  /** What the decision read was not heavier than the guest was when the write was admitted. */
  ghost predicate ReadHeld(t: Task) {
    t.pre.Some? && t.start.Some? ==> Shrunk(t.pre.value, t.start.value)
  }

  /** How much lighter the guest was when the write was admitted than as the decision read it. */
  ghost function Stale(contents: Contents, t: Task, d: Dim): int {
    Positive(PreFoot(contents, t, d) - StartFoot(contents, t, d))
  }

  /** A write whose landing its delta bounds overshoots by no more than what was taken off its guest
      between the read and the admission. */
  lemma OvershootIsStale(contents: Contents, t: Task, base: Option<Guest>, g: Guest, d: Dim)
    requires Covered(t) && Found(t, base) && NonNegativeContents(contents) && Lands(contents, t, base, g)
    ensures Overshoot(contents, t, g, d) <= Stale(contents, t, d)
  {
    assert GuestFoot(contents, g, d) <= PreFoot(contents, t, d) + Growth(t, d);
  }

  lemma HeldIsNotStale(contents: Contents, t: Task, d: Dim)
    requires ReadHeld(t) && t.pre.Some? == t.start.Some? && NonNegativeContents(contents)
    ensures Stale(contents, t, d) == 0
  {
    if t.pre.Some? { ShrunkFoot(contents, t.pre.value, t.start.value, d); }
  }

  /** A write whose delta bounds the landing under all smaller listings as well never overshoots, if
      what the decision read still held when it was admitted. */
  lemma FirmWhen(contents: Contents, t: Task, base: Option<Guest>, g: Guest, d: Dim)
    requires Covered(t) && Found(t, base) && ReadHeld(t) && t.pre.Some? == t.start.Some?
    requires forall contents' | NonNegativeContents(contents') && SmallerListings(contents', contents) ::
               Lands(contents', t, base, g)
    ensures FirmOver(contents, t, g, d) == 0
  {
    forall contents' | NonNegativeContents(contents') && SmallerListings(contents', contents)
      ensures Overshoot(contents', t, g, d) <= 0
    {
      OvershootIsStale(contents', t, base, g, d);
      HeldIsNotStale(contents', t, d);
    }
    FirmOverIsLeast(contents, t, g, d, 0);
  }

  /** So it is for a new guest whose landing the delta bounds under the listings as they are. */
  lemma NewGuestIsFirm(contents: Contents, t: Task, g: Guest, d: Dim)
    requires Covered(t) && t.pre.None? && t.start.None? && NonNegativeContents(contents)
    requires Lands(contents, t, None, g)
    ensures FirmOver(contents, t, g, d) == 0
  {
    forall contents' | NonNegativeContents(contents') && SmallerListings(contents', contents)
      ensures Overshoot(contents', t, g, d) <= 0
    {
      FootMono(contents', contents, g.node, g.kind, g.cfg, d);
      assert GuestFoot(contents, g, d) <= PreFoot(contents, t, d) + Growth(t, d);
    }
    FirmOverIsLeast(contents, t, g, d, 0);
  }
}
