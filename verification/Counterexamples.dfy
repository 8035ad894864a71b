/** Concrete inputs on which a delta, an override or a comparison falls short. The exact conditions
    are proved where each one is modelled. */
module Counterexamples {
  import opened Wrappers
  import opened GoStrings
  import opened MapSums
  import opened Accounting
  import opened Engine
  import opened Deltas
  import opened Landing
  import opened Quota
  import opened Admission
  import opened DiskSpecs
  import opened Tasks
  import opened Alarm

  /** "storage:volume" with a size in bytes. */
  function SizedText(storage: string, volume: string, bytes: nat): string {
    PrintSpec(storage, volume, [], Size(bytes, None), [])
  }

  lemma SizedParses(storage: string, volume: string, bytes: nat)
    requires VolumeName(storage, volume) && bytes <= MAX_INT64
    ensures DiskSpecOf(SizedText(storage, volume, bytes)) ==
            DiskSpec(storage, bytes, true, false, VolidOf(storage, volume))
  {
    ParsePrintedSpec(storage, volume, [], Size(bytes, None), []);
  }

  /** A volume that states no size. */
  lemma UnsizedParses(storage: string, volume: string)
    requires VolumeName(storage, volume)
    ensures DiskSpecOf(VolidOf(storage, volume)) == DiskSpec(storage, 0, false, false, VolidOf(storage, volume))
  {
    var v := VolidOf(storage, volume);
    SplitHead(v, ',', "");
    VolumeParsed(storage, volume, v);
    assert Options(v) == [];
  }

  lemma OneDrive(contents: Contents, node: string, k: string, spec: DiskSpec, st: string)
    ensures DriveBytes(contents, node, map[k := spec], st) == DriveTerm(contents, node, spec, st)
  {
    assert DriveMap(contents, node, map[k := spec], st) == map[k := DriveTerm(contents, node, spec, st)];
    SumSingle(k, DriveTerm(contents, node, spec, st));
  }

  lemma OneDisk(k: string, v: string)
    requires IsDiskKey(k)
    ensures DrivesOf(map[k := v]) == map[k := DiskSpecOf(v)]
  {}

  /** Two configs of one disk entry each. */
  lemma OneDiskFoot(contents: Contents, node: string, kind: string, k: string, v: string, st: string)
    requires IsDiskKey(k)
    ensures Foot(contents, node, kind, map[k := v], Disk(st)) == DriveTerm(contents, node, DiskSpecOf(v), st)
  {
    OneDisk(k, v);
    OneDrive(contents, node, k, DiskSpecOf(v), st);
  }

  /** Writing a larger drive over a smaller one is admitted as no increase, and is one. */
  lemma OverwritingEscapes(node: string, kind: string, k: string, st: string, small: nat, large: nat)
    requires IsDiskKey(k) && VolumeName(st, "a") && VolumeName(st, "b") && 0 < small < large <= MAX_INT64
    ensures var cur, p := map[k := SizedText(st, "a", small)], map[k := SizedText(st, "b", large)];
            && EditLands(map[], node, p, cur, Merge(cur, p))
            && ConfigDelta(kind, p, cur).At(Disk(st)) == 0
            && Foot(map[], node, kind, cur, Disk(st)) == small
            && Foot(map[], node, kind, Merge(cur, p), Disk(st)) == large
  {
    var v, w := SizedText(st, "a", small), SizedText(st, "b", large);
    SizedParses(st, "a", small);
    SizedParses(st, "b", large);
    WriteOver(map[], node, kind, k, st, v, w);
  }

  lemma WriteOver(contents: Contents, node: string, kind: string, k: string, st: string, v: string, w: string)
    requires IsDiskKey(k) && DiskSpecOf(w).hasSize && DiskSpecOf(w).size != 0
    ensures var cur, p := map[k := v], map[k := w];
            && EditLands(contents, node, p, cur, Merge(cur, p)) && Merge(cur, p) == p
            && ConfigDelta(kind, p, cur).At(Disk(st)) == 0
            && Foot(contents, node, kind, cur, Disk(st)) == DriveTerm(contents, node, DiskSpecOf(v), st)
            && Foot(contents, node, kind, p, Disk(st)) == DriveTerm(contents, node, DiskSpecOf(w), st)
  {
    var cur, p := map[k := v], map[k := w];
    OneDisk(k, v);
    OneDisk(k, w);
    ParsersAgree(w);
    assert Merge(cur, p) == p;
    MergeLands(contents, node, p, cur);
    EditDiskDelta(kind, p, cur, st);
    SumZero(OrderMap(AllOrders(p) - DrivesOf(cur).Keys, st));
    OneDiskFoot(contents, node, kind, k, v, st);
    OneDiskFoot(contents, node, kind, k, w, st);
  }

  lemma NoCount(storage: string)
    requires VolumeName(storage, "a")
    ensures CountBytes(VolidOf(storage, "a")) == 0
  {
    var v := VolidOf(storage, "a");
    SplitHead(v, ',', "");
    TrimmedStays(v);
    CutHead(storage, ':', "a");
    TrimmedStays("a");
    assert !AllDigits("a") by { assert !('0' <= "a"[0] <= '9'); }
  }

  /** Attaching an existing volume, to a guest or to a new one, is admitted as no increase, and is one. */
  lemma AttachingEscapes(node: string, kind: string, k: string, st: string, n: nat)
    requires IsDiskKey(k) && VolumeName(st, "a") && n > 0
    ensures var contents := map[(node, st) := map[VolidOf(st, "a") := n]];
            var p := map[k := VolidOf(st, "a")];
            && EditLands(contents, node, p, map[], Merge(map[], p)) && ConfigDelta(kind, p, map[]).At(Disk(st)) == 0
            && Foot(contents, node, kind, map[], Disk(st)) == 0
            && Foot(contents, node, kind, Merge(map[], p), Disk(st)) == n
            && CreateDelta(kind, p).At(Disk(st)) == 0
  {
    var contents := map[(node, st) := map[VolidOf(st, "a") := n]];
    var v := VolidOf(st, "a");
    var p: Config, none: Config := map[k := v], map[];
    UnsizedParses(st, "a");
    NoCount(st);
    ParsersAgree(v);
    OneDisk(k, v);
    assert Merge(none, p) == p;
    MergeLands(contents, node, p, none);
    OneDiskFoot(contents, node, kind, k, v, st);
    assert DriveMap(contents, node, DrivesOf(none), st) == map[];
    SumZero(DriveMap(contents, node, DrivesOf(none), st));
    AttachOrders(kind, k, v, st);
  }

  lemma AttachOrders(kind: string, k: string, v: string, st: string)
    requires OrderOf(v).bytes == 0
    ensures ConfigDelta(kind, map[k := v], map[]).At(Disk(st)) == 0 && CreateDelta(kind, map[k := v]).At(Disk(st)) == 0
  {
    var orders := FreshOrders(map[k := v], map[]);
    OrderedAt(orders, st);
    SumZero(OrderMap(orders, st));
  }

  /** Setting a drive that states no size to an absolute size is admitted as no increase, and is one. */
  lemma UnsizedResizeEscapes(node: string, kind: string, p: Config, k: string, st: string, n: nat)
    requires IsDiskKey(k) && VolumeName(st, "a") && 0 < n <= MAX_INT64
    requires Field(p, "disk") == k && Field(p, "size") == PrintSize(Size(n, None))
    ensures var cur, cfg := map[k := VolidOf(st, "a")], map[k := SizedText(st, "a", n)];
            && ResizeLands(map[], node, p, cur, cfg)
            && !Bounds(ResizeDelta(p, cur), map[], node, kind, cur, cfg, Disk(st))
  {
    UnsizedParses(st, "a");
    SizedParses(st, "a", n);
    ParseSizePrinted(Size(n, None));
    NotRelative(n);
    UnsizedResize(node, kind, p, k, st, n, VolidOf(st, "a"), SizedText(st, "a", n));
  }

  lemma NotRelative(n: nat)
    ensures !IsRelative(PrintSize(Size(n, None)))
  {
    PrintNatValue(n);
    assert PrintSize(Size(n, None)) == PrintNat(n);
    assert '0' <= PrintNat(n)[0];
  }

  lemma UnsizedResize(node: string, kind: string, p: Config, k: string, st: string, n: nat, v: string, w: string)
    requires IsDiskKey(k) && Field(p, "disk") == k && st != "" && n > 0
    requires !IsRelative(Field(p, "size")) && ParseSize(Field(p, "size")) == Some(n)
    requires !DiskSpecOf(v).hasSize && Counted(DiskSpecOf(v)) && DiskSpecOf(v).storage == st
    requires DiskSpecOf(w) == DiskSpecOf(v).(size := n, hasSize := true)
    ensures ResizeLands(map[], node, p, map[k := v], map[k := w])
    ensures !Bounds(ResizeDelta(p, map[k := v]), map[], node, kind, map[k := v], map[k := w], Disk(st))
  {
    OneDisk(k, v);
    OneDisk(k, w);
    NoResource(k);
    UnsizedResizeLands(node, p, k, n, v, w);
    ResizeBound(map[], node, kind, p, map[k := v], map[k := w], Disk(st));
  }

  lemma UnsizedResizeLands(node: string, p: Config, k: string, n: nat, v: string, w: string)
    requires IsDiskKey(k) && Field(p, "disk") == k
    requires !IsRelative(Field(p, "size")) && ParseSize(Field(p, "size")) == Some(n)
    requires Counted(DiskSpecOf(v)) && DiskSpecOf(w) == DiskSpecOf(v).(size := n, hasSize := true)
    ensures ResizeLands(map[], node, p, map[k := v], map[k := w])
  {
    OneDisk(k, v);
    OneDisk(k, w);
    NoResource(k);
    assert DrivesOf(map[k := w]) == DrivesOf(map[k := v])[k := DiskSpecOf(w)];
  }

  /** Moving a drive within its storage and keeping the old volume is admitted as no increase, and is one. */
  lemma MoveInPlaceEscapes(node: string, kind: string, p: Config, k: string, spare: string, st: string, n: nat)
    requires IsDiskKey(k) && IsDiskKey(spare) && k != spare && VolumeName(st, "a") && VolumeName(st, "b")
    requires 0 < n <= MAX_INT64 && MoveKey(p) == k && Field(p, "storage") == st
    ensures var contents := map[(node, st) := map[VolidOf(st, "a") := n]];
            var cur := map[k := SizedText(st, "a", n)];
            var cfg := map[k := SizedText(st, "b", n), spare := VolidOf(st, "a")];
            && MoveLands(p, cur, cfg, VolidOf(st, "b"), KeptAs(spare))
            && !Bounds(MoveDelta(p, cur), contents, node, kind, cur, cfg, Disk(st))
  {
    SizedParses(st, "a", n);
    SizedParses(st, "b", n);
    UnsizedParses(st, "a");
    MoveInPlace(node, kind, p, k, spare, st, n,
                SizedText(st, "a", n), SizedText(st, "b", n), VolidOf(st, "a"), VolidOf(st, "b"));
  }

  lemma MoveInPlace(node: string, kind: string, p: Config, k: string, spare: string, st: string, n: nat,
                    v: string, w: string, left: string, made: string)
    requires IsDiskKey(k) && IsDiskKey(spare) && k != spare && st != "" && n > 0
    requires MoveKey(p) == k && Field(p, "storage") == st
    requires DiskSpecOf(v) == DiskSpec(st, n, true, false, left)
    requires DiskSpecOf(w) == DiskSpec(st, n, true, false, made)
    requires DiskSpecOf(left) == DiskSpec(st, 0, false, false, left)
    ensures MoveLands(p, map[k := v], map[k := w, spare := left], made, KeptAs(spare))
    ensures !Bounds(MoveDelta(p, map[k := v]), map[(node, st) := map[left := n]], node, kind,
                    map[k := v], map[k := w, spare := left], Disk(st))
  {
    var cur, cfg := map[k := v], map[k := w, spare := left];
    OneDisk(k, v);
    MoveInPlaceLands(p, k, spare, st, n, v, w, left, made);
    MoveResidual(map[(node, st) := map[left := n]], node, kind, p, cur, cfg, made, KeptAs(spare), Disk(st));
  }

  lemma MoveInPlaceLands(p: Config, k: string, spare: string, st: string, n: nat,
                         v: string, w: string, left: string, made: string)
    requires IsDiskKey(k) && IsDiskKey(spare) && k != spare && st != ""
    requires MoveKey(p) == k && Field(p, "storage") == st
    requires DiskSpecOf(v) == DiskSpec(st, n, true, false, left)
    requires DiskSpecOf(w) == DiskSpec(st, n, true, false, made)
    requires DiskSpecOf(left) == DiskSpec(st, 0, false, false, left)
    ensures MoveLands(p, map[k := v], map[k := w, spare := left], made, KeptAs(spare))
  {
    var cur, cfg := map[k := v], map[k := w, spare := left];
    OneDisk(k, v);
    TwoDisks(k, w, spare, left);
    MovedOne(k, DiskSpecOf(v), st, made, spare);
    ResourceFree(k, spare, v, w, left);
  }

  lemma TwoDisks(k: string, v: string, l: string, w: string)
    requires IsDiskKey(k) && IsDiskKey(l) && k != l
    ensures DrivesOf(map[k := v, l := w]) == map[k := DiskSpecOf(v), l := DiskSpecOf(w)]
  {}

  lemma MovedOne(k: string, spec: DiskSpec, st: string, made: string, spare: string)
    requires k != spare
    ensures MovedDrives(map[k := spec], k, st, made, KeptAs(spare)) ==
            map[k := spec.(storage := st, volid := made), spare := LeftoverSpec(spec)]
  {}

  lemma ResourceFree(k: string, spare: string, v: string, w: string, left: string)
    requires IsDiskKey(k) && IsDiskKey(spare)
    ensures SameResources(map[k := v], map[k := w, spare := left])
  {
    NoResource(k);
    NoResource(spare);
  }

  lemma NoResource(k: string)
    requires IsDiskKey(k)
    ensures k != "sockets" && k != "cores" && k != "memory"
  {
    DiskKeyEnds(k);
    assert "sockets"[6] == 's' && "cores"[4] == 's' && "memory"[5] == 'y';
    assert "memory"[0] == 'm' && "rootfs"[0] == 'r';
  }

  /** Every disk key but one ends in a digit. */
  lemma DiskKeyEnds(k: string)
    ensures IsDiskKey(k) ==> k != "" && (k == "rootfs" || '0' <= k[|k| - 1] <= '9')
  {
    forall bus | Indexed(k, bus) ensures k != "" && '0' <= k[|k| - 1] <= '9' {
      assert k[|bus|..][|k| - |bus| - 1] == k[|k| - 1];
    }
  }

  /** Moving a drive that states no size to another storage is admitted as no increase, and is one. */
  lemma UnsizedMoveEscapes(node: string, kind: string, p: Config, k: string, st: string, target: string, n: nat)
    requires IsDiskKey(k) && VolumeName(st, "a") && VolumeName(target, "b") && st != target && n > 0
    requires MoveKey(p) == k && Field(p, "storage") == target
    ensures var contents := map[(node, target) := map[VolidOf(target, "b") := n]];
            var cur, cfg := map[k := VolidOf(st, "a")], map[k := VolidOf(target, "b")];
            && MoveLands(p, cur, cfg, VolidOf(target, "b"), Deleted)
            && MoveDelta(p, cur).At(Disk(target)) == 0
            && !Bounds(MoveDelta(p, cur), contents, node, kind, cur, cfg, Disk(target))
  {
    UnsizedParses(st, "a");
    UnsizedParses(target, "b");
    UnsizedMove(node, kind, p, k, target, n, VolidOf(st, "a"), VolidOf(target, "b"));
  }

  lemma UnsizedMove(node: string, kind: string, p: Config, k: string, target: string, n: nat, v: string, w: string)
    requires IsDiskKey(k) && MoveKey(p) == k && Field(p, "storage") == target && target != "" && n > 0
    requires Counted(DiskSpecOf(v)) && !DiskSpecOf(v).hasSize && DiskSpecOf(v).storage != target
    requires DiskSpecOf(w) == DiskSpecOf(v).(storage := target, volid := w)
    ensures MoveLands(p, map[k := v], map[k := w], w, Deleted) && MoveDelta(p, map[k := v]).At(Disk(target)) == 0
    ensures !Bounds(MoveDelta(p, map[k := v]), map[(node, target) := map[w := n]], node, kind,
                    map[k := v], map[k := w], Disk(target))
  {
    var cur, cfg := map[k := v], map[k := w];
    OneDisk(k, v);
    OneDisk(k, w);
    NoResource(k);
    MoveDeltaAt(p, cur, Disk(target));
    MoveResidual(map[(node, target) := map[w := n]], node, kind, p, cur, cfg, w, Deleted, Disk(target));
  }

  /** Rolling back to a volume that states no size is admitted as no increase, and is one. */
  lemma UnsizedRollbackEscapes(node: string, kind: string, k: string, st: string, n: nat)
    requires IsDiskKey(k) && VolumeName(st, "a") && n > 0
    ensures var contents := map[(node, st) := map[VolidOf(st, "a") := n]];
            var snap := map[k := VolidOf(st, "a")];
            && RollbackLands(snap, snap)
            && !Bounds(RollbackDelta(kind, snap, map[]), contents, node, kind, map[], snap, Disk(st))
  {
    var contents := map[(node, st) := map[VolidOf(st, "a") := n]];
    var snap := map[k := VolidOf(st, "a")];
    UnsizedParses(st, "a");
    OneDisk(k, VolidOf(st, "a"));
    var spec := DiskSpecOf(VolidOf(st, "a"));
    var snapDrives: Drives := map[k := spec];
    var none: Drives := map[];
    assert DrivesOf(map[]) == none;
    OneDrive(contents, node, k, spec, st);
    BytesSplit(contents, node, snapDrives, st);
    SumZero(SizedMap(snapDrives, st));
    SumZero(UnsizedMap(contents, node, none, st));
    forall s ensures Sized(none, s) >= 0 { SumZero(SizedMap(none, s)); }
    RollbackBound(contents, node, kind, snap, map[], snap, Disk(st));
  }

  /** An archive of one storage, restored onto another, is admitted as no increase there, and is one. */
  lemma RedirectedRestoreEscapes(node: string, kind: string, k: string, st: string, target: string, n: nat)
    requires IsDiskKey(k) && VolumeName(st, "a") && VolumeName(target, "b") && st != target && 0 < n <= MAX_INT64
    ensures var archived, cfg := map[k := SizedText(st, "a", n)], map[k := SizedText(target, "b", n)];
            && CopyLands(target, archived, cfg)
            && Foot(map[], node, kind, cfg, Disk(target)) == n && RestoreDelta(kind, archived).At(Disk(target)) == 0
  {
    SizedParses(st, "a", n);
    SizedParses(target, "b", n);
    RedirectedRestore(node, kind, k, target, SizedText(st, "a", n), SizedText(target, "b", n));
  }

  lemma RedirectedRestore(node: string, kind: string, k: string, target: string, v: string, w: string)
    requires IsDiskKey(k) && Counted(DiskSpecOf(v)) && DiskSpecOf(v).hasSize && DiskSpecOf(v).storage != target
    requires target != "" && DiskSpecOf(w).storage == target && !DiskSpecOf(w).cdrom && DiskSpecOf(w).hasSize
    requires DiskSpecOf(w).size == DiskSpecOf(v).size
    ensures CopyLands(target, map[k := v], map[k := w])
    ensures Foot(map[], node, kind, map[k := w], Disk(target)) == DiskSpecOf(w).size
    ensures RestoreDelta(kind, map[k := v]).At(Disk(target)) == 0
  {
    var archived := map[k := v];
    OneDisk(k, v);
    OneDisk(k, w);
    NoResource(k);
    OneDiskFoot(map[], node, kind, k, w, target);
    SumZero(SizedMap(DrivesOf(archived), target));
    assert ConfigUsage(kind, archived).At(Disk(target)) == Sized(DrivesOf(archived), target);
  }

  /** A node override of 2 cores over a base of 1 admits 2 cores on that node. */
  lemma OverrideWidens()
    ensures var over := NodeOverride(Some(2), None, None, None);
            var q := UserQuota("p", 1, 0, 0, map[], map["n" := over]);
            var used, delta := Usage(0, 0, 0, map[]), NO_DELTA.(cores := 2);
            ValidRecord(Some(q)) && Fits(q, "n", used, delta) && !Fits(q, "", used, delta)
  {
    var over := NodeOverride(Some(2), None, None, None);
    var q := UserQuota("p", 1, 0, 0, map[], map["n" := over]);
    assert !FitsAt(Limit(q, "", Cores), 0, 2);
  }

  /** Listings of two different storages share a cache slot. */
  lemma SlashCollides()
    ensures CacheKey("a", "b/c") == CacheKey("a/b", "c")
  {
    assert "a" + "/" + "b/c" == "a/b" + "/" + "c";
  }

  /** A config that lost an empty entry and gained another reads as unchanged. */
  lemma EmptyEntryUnseen()
    ensures var a, b: Config := map["x" := ""], map["y" := "z"]; a != b && SameConfig(a, b)
  {
    assert "x"[0] != "y"[0];
    assert "y" !in map["x" := ""];
    assert Field(map["y" := "z"], "x") == "";
  }

  /** The edit that writes the drive `w` over the drive `v`. */
  ghost function Rewrite(node: string, kind: string, k: string, v: string, w: string): Task {
    var g := Some(Guest(node, kind, "p", map[k := v]));
    Task(0, "u", "p", Write.Edit(node, kind, 0, map[k := w]), g, g, map[], "",
         ConfigDelta(kind, map[k := w], map[k := v]))
  }

  /** A write whose landing is as checked may come to overshoot later. An unsized drive is replaced by
      one that states the same size: the usage is `n` before and after the edit, and its delta is
      nothing; but a scan that reads the config before it and the listing after the old volume is
      gone misses `n` bytes, and that is what the write counts for. */
  lemma ScanMissesRewrite(node: string, kind: string, k: string, st: string, n: nat)
    requires IsDiskKey(k) && VolumeName(st, "a") && VolumeName(st, "b") && 0 < n <= MAX_INT64
    ensures var v, w := VolidOf(st, "a"), SizedText(st, "b", n);
            var contents, t := map[(node, st) := map[v := n]], Rewrite(node, kind, k, v, w);
            var g := Guest(node, kind, "p", map[k := w]);
            && Lands(contents, t, t.pre, g) && t.delta.At(Disk(st)) == 0
            && GuestFoot(contents, t.pre.value, Disk(st)) == n == GuestFoot(contents, g, Disk(st))
            && GuestFoot(map[], t.pre.value, Disk(st)) == 0
            && Overshoot(contents, t, g, Disk(st)) == 0 && FirmOver(contents, t, g, Disk(st)) == n
  {
    var v, w := VolidOf(st, "a"), SizedText(st, "b", n);
    var contents, g := map[(node, st) := map[v := n]], Guest(node, kind, "p", map[k := w]);
    UnsizedParses(st, "a");
    SizedParses(st, "b", n);
    RewriteLands(contents, node, kind, k, st, n, v, w);
    RewriteMisses(contents, node, kind, k, st, n, v, w, Rewrite(node, kind, k, v, w), g);
  }

  lemma OneListing(at: (string, string), v: string, n: nat)
    ensures NonNegativeContents(map[at := map[v := n]])
  {}

  lemma RewriteMisses(contents: Contents, node: string, kind: string, k: string, st: string, n: nat,
                      v: string, w: string, t: Task, g: Guest)
    requires IsDiskKey(k) && 0 < n && contents == map[(node, st) := map[v := n]]
    requires DiskSpecOf(v) == DiskSpec(st, 0, false, false, v)
    requires DiskSpecOf(w) == DiskSpec(st, n, true, false, DiskSpecOf(w).volid)
    requires t == Rewrite(node, kind, k, v, w) && g == Guest(node, kind, "p", map[k := w])
    ensures t.delta.At(Disk(st)) == 0
    ensures GuestFoot(contents, t.pre.value, Disk(st)) == n == GuestFoot(contents, g, Disk(st))
    ensures GuestFoot(map[], t.pre.value, Disk(st)) == 0
    ensures Overshoot(contents, t, g, Disk(st)) == 0 && FirmOver(contents, t, g, Disk(st)) == n
  {
    RewriteFoots(contents, node, kind, k, st, n, v, w);
    OneDiskSized(t.pre.value, k, v);
    OneListing((node, st), v, n);
    RewriteOver(contents, t, g, k, st, n);
  }

  lemma RewriteFoots(contents: Contents, node: string, kind: string, k: string, st: string, n: nat,
                     v: string, w: string)
    requires IsDiskKey(k) && 0 < n && contents == map[(node, st) := map[v := n]]
    requires DiskSpecOf(v) == DiskSpec(st, 0, false, false, v)
    requires DiskSpecOf(w) == DiskSpec(st, n, true, false, DiskSpecOf(w).volid)
    ensures Foot(contents, node, kind, map[k := v], Disk(st)) == n
    ensures Foot(map[], node, kind, map[k := v], Disk(st)) == 0
    ensures forall contents' :: Foot(contents', node, kind, map[k := w], Disk(st)) == n
    ensures ConfigDelta(kind, map[k := w], map[k := v]).At(Disk(st)) == 0
  {
    WriteOver(contents, node, kind, k, st, v, w);
    OneDiskFoot(map[], node, kind, k, v, st);
    forall contents' ensures Foot(contents', node, kind, map[k := w], Disk(st)) == n {
      OneDiskFoot(contents', node, kind, k, w, st);
    }
  }

  lemma RewriteLands(contents: Contents, node: string, kind: string, k: string, st: string, n: nat,
                     v: string, w: string)
    requires IsDiskKey(k) && 0 < n && contents == map[(node, st) := map[v := n]]
    requires DiskSpecOf(v) == DiskSpec(st, 0, false, false, v)
    requires DiskSpecOf(w) == DiskSpec(st, n, true, false, DiskSpecOf(w).volid)
    ensures var t := Rewrite(node, kind, k, v, w); Lands(contents, t, t.pre, Guest(node, kind, "p", map[k := w]))
  {
    WriteOver(contents, node, kind, k, st, v, w);
    forall d ensures EditUncharged(contents, node, map[k := w], map[k := v], d) <= 0 {
      RewriteChargedAt(contents, node, kind, k, st, n, v, w, d);
    }
  }

  lemma RewriteChargedAt(contents: Contents, node: string, kind: string, k: string, st: string, n: nat,
                         v: string, w: string, d: Dim)
    requires IsDiskKey(k) && 0 < n && contents == map[(node, st) := map[v := n]]
    requires DiskSpecOf(v) == DiskSpec(st, 0, false, false, v)
    requires DiskSpecOf(w) == DiskSpec(st, n, true, false, DiskSpecOf(w).volid)
    ensures EditUncharged(contents, node, map[k := w], map[k := v], d) <= 0
  {
    if d.Disk? { RewriteCharged(contents, node, kind, k, st, n, v, w, d.storage); }
  }

  lemma RewriteCharged(contents: Contents, node: string, kind: string, k: string, st: string, n: nat,
                       v: string, w: string, at: string)
    requires IsDiskKey(k) && 0 < n && contents == map[(node, st) := map[v := n]]
    requires DiskSpecOf(v) == DiskSpec(st, 0, false, false, v)
    requires DiskSpecOf(w) == DiskSpec(st, n, true, false, DiskSpecOf(w).volid)
    ensures EditUncharged(contents, node, map[k := w], map[k := v], Disk(at)) <= 0
  {
    var p, cur := map[k := w], map[k := v];
    WriteOver(contents, node, kind, k, at, v, w);
    ParsersAgree(w);
    OneDisk(k, w);
    MergeLands(contents, node, p, cur);
    SameBytes(contents, node, kind, p, cur, Disk(at));
  }

  lemma SameBytes(contents: Contents, node: string, kind: string, p: Config, cur: Config, d: Dim)
    requires EditLands(contents, node, p, cur, p) && InFull(contents, node, p, Made(p, p))
    requires Foot(contents, node, kind, p, d) <= Foot(contents, node, kind, cur, d) + ConfigDelta(kind, p, cur).At(d)
    ensures EditUncharged(contents, node, p, cur, d) <= 0
  {
    EditResidual(contents, node, kind, p, cur, p, d);
    EditInFull(contents, node, p, cur, p, d);
  }

  lemma RewriteOver(contents: Contents, t: Task, g: Guest, k: string, st: string, n: nat)
    requires NonNegativeContents(contents) && t.start.Some? && WellSized(t.start.value) && t.delta.At(Disk(st)) == 0
    requires forall contents' :: GuestFoot(contents', g, Disk(st)) == n
    requires GuestFoot(map[], t.start.value, Disk(st)) == 0
    ensures FirmOver(contents, t, g, Disk(st)) == n
  {
    forall contents' | NonNegativeContents(contents') ensures Overshoot(contents', t, g, Disk(st)) <= n {
      assert GuestFoot(contents', t.start.value, Disk(st)) >= 0;
    }
    FirmOverIsLeast(contents, t, g, Disk(st), n);
    var none: Contents := map[];
    assert NonNegativeContents(none) && SmallerListings(none, contents);
    assert Overshoot(none, t, g, Disk(st)) == n;
  }

  /** A guest of one unsized drive weighs no less than nothing. */
  lemma OneDiskSized(g: Guest, k: string, v: string)
    requires IsDiskKey(k) && g.cfg == map[k := v] && DiskSpecOf(v).size == 0
    ensures WellSized(g)
  {
    NoResource(k);
    forall contents, d | NonNegativeContents(contents) ensures GuestFoot(contents, g, d) >= 0 {
      if d.Disk? { OneDiskFoot(contents, g.node, g.kind, k, v, d.storage); }
    }
  }

  lemma DigitReads(n: nat, def: int)
    requires n < 10
    ensures AtoiDef(PrintNat(n), def) == n
  {
    ParsePrint(n);
    DigitChar(PrintNat(n)[0]);
    TrimmedStays(PrintNat(n));
  }

  lemma Rebalanced(base: Config, pre: Config, p: Config)
    requires Sockets("qemu", pre) == 2 && CoresEach("qemu", pre) == 4
    requires Sockets("qemu", base) == 1 && CoresEach("qemu", base) == 5
    requires Sockets("qemu", Merge(pre, p)) == 4 && CoresEach("qemu", Merge(pre, p)) == 4
    requires Sockets("qemu", Merge(base, p)) == 4 && CoresEach("qemu", Merge(base, p)) == 5
    ensures TotalCores("qemu", base) < TotalCores("qemu", pre)
    ensures TotalCores("qemu", Merge(base, p)) > TotalCores("qemu", pre) + ConfigDelta("qemu", p, pre).cores
    ensures !LighterConfig("qemu", base, pre)
  {
    CoresAndMemoryExact("qemu", p, pre);
  }

  function TwoFields(sockets: string, cores: string): Config {
    map["sockets" := sockets, "cores" := cores]
  }

  lemma TwoFieldsRead(sockets: string, cores: string)
    ensures Sockets("qemu", TwoFields(sockets, cores)) == AtoiDef(sockets, 1)
    ensures CoresEach("qemu", TwoFields(sockets, cores)) == AtoiDef(cores, 1)
    ensures forall s :: Merge(TwoFields(sockets, cores), map["sockets" := s]) == TwoFields(s, cores)
  {
    assert "sockets" != "cores" by { assert "sockets"[0] != "cores"[0]; }
  }

  /** Two sockets of four cores, made one socket of five behind the proxy's back, are fewer cores;
      but the edit to four sockets that was admitted for eight more makes twenty of them. Shrinking
      the footprint is not enough while a write is pending: each setting must be lowered. */
  lemma RebalancingEscapes()
    ensures var pre, base := TwoFields(PrintNat(2), PrintNat(4)), TwoFields(PrintNat(1), PrintNat(5));
            var p := map["sockets" := PrintNat(4)];
            && TotalCores("qemu", base) < TotalCores("qemu", pre)
            && TotalCores("qemu", Merge(base, p)) > TotalCores("qemu", pre) + ConfigDelta("qemu", p, pre).cores
            && !LighterConfig("qemu", base, pre)
  {
    DigitReads(1, 1); DigitReads(2, 1); DigitReads(4, 1); DigitReads(5, 1);
    var pre, base := TwoFields(PrintNat(2), PrintNat(4)), TwoFields(PrintNat(1), PrintNat(5));
    TwoFieldsRead(PrintNat(2), PrintNat(4));
    TwoFieldsRead(PrintNat(1), PrintNat(5));
    TwoFieldsRead(PrintNat(4), PrintNat(4));
    TwoFieldsRead(PrintNat(4), PrintNat(5));
    Rebalanced(base, pre, map["sockets" := PrintNat(4)]);
  }

  lemma NothingFits(q: UserQuota, u: Usage, delta: Delta)
    requires delta.cores == delta.memoryMiB == delta.instances == 0 &&
             forall st <- delta.diskBytes :: delta.diskBytes[st] == 0
    ensures Fits(q, "", u, delta)
  {
    forall d ensures FitsAt(Limit(q, "", d), u.At(d), delta.At(d)) { assert delta.At(d) == 0; }
  }

  /** An increase with an empty entry for a storage that is not listed is admitted, and raises the alarm. */
  lemma EmptyEntryAlarms(st: string, q: UserQuota)
    requires ValidRecord(Some(q)) && st !in q.diskGiB
    ensures var u, delta := Usage(0, 0, 0, map[]), NO_DELTA.(diskBytes := map[st := 0]);
            !Over(u, q) && Fits(q, "", u, delta) && Over(Raised(u, delta), q)
  {
    var u, delta := Usage(0, 0, 0, map[]), NO_DELTA.(diskBytes := map[st := 0]);
    NothingFits(q, u, delta);
    assert st in Raised(u, delta).diskBytes;
  }

  /** One byte below the range on which they agree, the two round-ups differ. */
  lemma RoundUpsDiffer()
    ensures RoundUpGiB(1 - 2 * GIB) == -1 && CeilGiB(1 - 2 * GIB) == 0
  {}
}
