/** Footprints of guests, after internal/usage/usage.go. */
module Accounting {
  import opened Wrappers
  import opened GoStrings
  import opened MapSums

  type Config = map<string, string>

  /** Sizes of stored volumes, by (node, storage) and then volume id. */
  type Contents = map<(string, string), map<string, int>>

  /** The dimensions a quota bounds. */
  datatype Dim = Cores | Memory | Instances | Disk(storage: string)

  datatype Usage = Usage(cores: int, memoryMiB: int, instances: int, diskBytes: map<string, int>) {
    /** One dimension of a usage; a storage that is not listed reads as zero. */
    function At(d: Dim): int {
      match d
      case Cores => cores
      case Memory => memoryMiB
      case Instances => instances
      case Disk(st) => Get(diskBytes, st)
    }
  }

  const GIB: int := 0x4000_0000

  /** Integer division of Go: truncation toward zero. */
  function TruncDiv(a: int, b: int): int
    requires b > 0
  {
    if a >= 0 then a / b else -(-a / b)
  }

  /** One entry of `DiskGiB`. */
  function RoundUpGiB(bytes: int): int {
    TruncDiv(bytes + GIB - 1, GIB)
  }

  // ---------------------------------------------------------------- disk specs

  datatype DiskSpec = DiskSpec(storage: string, size: int, hasSize: bool, cdrom: bool, volid: string)

  const NO_DISK := DiskSpec("", 0, false, false, "")

  /** `ParseSize` on integer sizes: binary suffixes, or a plain byte count. */
  function ParseSize(text: string): Option<int> {
    var s := TrimSpace(text);
    if s == "" then None
    else
      var mult := SuffixMultiple(s[|s| - 1]);
      var digits := if HasSuffix(s[|s| - 1]) then s[..|s| - 1] else s;
      match ParseInt(digits) case Some(n) => Some(n * mult) case None => None
  }

  predicate HasSuffix(c: char) {
    c in "kKmMgGtTpP"
  }

  function SuffixMultiple(c: char): int {
    if c in "kK" then 0x400
    else if c in "mM" then 0x10_0000
    else if c in "gG" then 0x4000_0000
    else if c in "tT" then 0x100_0000_0000
    else if c in "pP" then 0x4_0000_0000_0000
    else 1
  }

  /** The options of a disk spec: every comma field after the first, trimmed. */
  function Options(v: string): seq<string> {
    var fields := Split(v, ',');
    seq(|fields| - 1, i requires 0 <= i < |fields| - 1 => TrimSpace(fields[i + 1]))
  }

  function SizeOption(f: string): Option<int> {
    match CutPrefix(f, "size=") case Some(s) => ParseSize(s) case None => None
  }

  /** The last readable `size=` among the options wins. */
  function LastSize(opts: seq<string>): Option<int> {
    if opts == [] then None
    else match SizeOption(opts[|opts| - 1])
      case Some(n) => Some(n)
      case None => LastSize(opts[..|opts| - 1])
  }

  /** The volume id of a disk spec and the storage it names, when it names one. */
  function VolumeOf(v: string): Option<(string, string)> {
    var first := TrimSpace(Split(v, ',')[0]);
    if first == "" || first == "none" then None
    else match Cut(first, ':')
      case None => None
      case Some(p) => if p.0 == "" then None else Some((p.0, first))
  }

  /** What a disk spec says. */
  function DiskSpecOf(v: string): (spec: DiskSpec)
    ensures spec.storage == "" <==> spec.volid == ""
    ensures spec.storage == "" ==> spec == NO_DISK
  {
    match VolumeOf(v)
    case None => NO_DISK
    case Some(vol) =>
      var size := LastSize(Options(v));
      DiskSpec(vol.0, if size.Some? then size.value else 0, size.Some?,
               "media=cdrom" in Options(v), vol.1)
  }

  /** The loop over the option fields, as in `ParseDisk` and `parseCreateDisk`: a later readable
      size replaces an earlier one. */
  method ScanOptions(v: string) returns (size: Option<int>, cdrom: bool)
    ensures size == LastSize(Options(v))
    ensures cdrom <==> "media=cdrom" in Options(v)
  {
    var fields := Split(v, ',');
    size, cdrom := None, false;
    ghost var opts := Options(v);
    for i := 1 to |fields|
      invariant cdrom <==> "media=cdrom" in opts[..i - 1]
      invariant size == LastSize(opts[..i - 1])
    {
      var f := TrimSpace(fields[i]);
      assert opts[..i] == opts[..i - 1] + [f] && opts[..i][..i - 1] == opts[..i - 1];
      if f == "media=cdrom" { cdrom := true; }
      var cut := CutPrefix(f, "size=");
      if cut.Some? {
        var n := ParseSize(cut.value);
        if n.Some? { size := n; }
      }
    }
    assert opts[..|fields| - 1] == opts;
  }

  method ParseDisk(v: string) returns (spec: DiskSpec)
    ensures spec == DiskSpecOf(v)
  {
    var first := TrimSpace(Split(v, ',')[0]);
    if first == "" || first == "none" { return NO_DISK; }
    var cut := Cut(first, ':');
    if cut.None? || cut.value.0 == "" { return NO_DISK; }
    var size, cdrom := ScanOptions(v);
    return DiskSpec(cut.value.0, if size.Some? then size.value else 0, size.Some?, cdrom, first);
  }

  /** A key such as `scsi3`: a bus name followed by digits only. */
  predicate Indexed(k: string, bus: string) {
    bus <= k && AllDigits(k[|bus|..])
  }

  predicate IsDiskKey(k: string) {
    || k == "rootfs" || k == "efidisk0" || k == "tpmstate0"
    || Indexed(k, "scsi") || Indexed(k, "virtio") || Indexed(k, "sata")
    || Indexed(k, "ide") || Indexed(k, "mp") || Indexed(k, "unused")
  }

  // ---------------------------------------------------------------- one guest

  /** The drives of a guest: its disk keys with their parsed specs. */
  type Drives = map<string, DiskSpec>

  function DrivesOf(cfg: Config): Drives {
    map k | k in cfg && IsDiskKey(k) :: DiskSpecOf(cfg[k])
  }

  datatype Ref = Ref(storage: string, volid: string)

  datatype Resources = Resources(cores: int, memoryMiB: int, disks: map<string, int>, unused: seq<Ref>)

  function Field(cfg: Config, key: string): string {
    if key in cfg then cfg[key] else ""
  }

  function TotalCores(kind: string, cfg: Config): int {
    if kind == "qemu" then AtoiDef(Field(cfg, "sockets"), 1) * AtoiDef(Field(cfg, "cores"), 1)
    else AtoiDef(Field(cfg, "cores"), 0)
  }

  function MemoryOf(cfg: Config): int {
    AtoiDef(Field(cfg, "memory"), 512)
  }

  /** A drive that accounting counts: not a CD-ROM, and on a named storage. */
  predicate Counted(spec: DiskSpec) {
    !spec.cdrom && spec.storage != ""
  }

  function Lookup(contents: Contents, node: string, ref: Ref): int {
    if (node, ref.storage) in contents then Get(contents[(node, ref.storage)], ref.volid) else 0
  }

  /** Bytes on `st` that a drive states itself. */
  function SizedTerm(spec: DiskSpec, st: string): int {
    if Counted(spec) && spec.hasSize && spec.storage == st then spec.size else 0
  }

  /** Bytes on `st` of a drive whose size only the storage listing knows. */
  function UnsizedTerm(contents: Contents, node: string, spec: DiskSpec, st: string): int {
    if Counted(spec) && !spec.hasSize && spec.storage == st
    then Lookup(contents, node, Ref(spec.storage, spec.volid)) else 0
  }

  /** Bytes on `st` of one drive. */
  function DriveTerm(contents: Contents, node: string, spec: DiskSpec, st: string): int {
    SizedTerm(spec, st) + UnsizedTerm(contents, node, spec, st)
  }

  function SizedMap(drives: Drives, st: string): map<string, int> {
    map k | k in drives :: SizedTerm(drives[k], st)
  }

  function UnsizedMap(contents: Contents, node: string, drives: Drives, st: string): map<string, int> {
    map k | k in drives :: UnsizedTerm(contents, node, drives[k], st)
  }

  function DriveMap(contents: Contents, node: string, drives: Drives, st: string): map<string, int> {
    map k | k in drives :: DriveTerm(contents, node, drives[k], st)
  }

  ghost function Sized(drives: Drives, st: string): int {
    Sum(SizedMap(drives, st))
  }

  ghost function Unsized(contents: Contents, node: string, drives: Drives, st: string): int {
    Sum(UnsizedMap(contents, node, drives, st))
  }

  ghost function DriveBytes(contents: Contents, node: string, drives: Drives, st: string): int {
    Sum(DriveMap(contents, node, drives, st))
  }

  /** The footprint of one guest, one dimension at a time: the plain definition that
      the scan, the deltas and the protocol are all measured against. */
  ghost function Foot(contents: Contents, node: string, kind: string, cfg: Config, d: Dim): int {
    match d
    case Cores => TotalCores(kind, cfg)
    case Memory => MemoryOf(cfg)
    case Instances => 1
    case Disk(st) => DriveBytes(contents, node, DrivesOf(cfg), st)
  }

  lemma BytesSplit(contents: Contents, node: string, drives: Drives, st: string)
    ensures DriveBytes(contents, node, drives, st) == Sized(drives, st) + Unsized(contents, node, drives, st)
  {
    SumAdd(SizedMap(drives, st), UnsizedMap(contents, node, drives, st), DriveMap(contents, node, drives, st));
  }

  /** The storages on which some counted drive states its size. */
  function SizedStorages(drives: Drives): set<string> {
    set k | k in drives && Counted(drives[k]) && drives[k].hasSize :: drives[k].storage
  }

  ghost function SizedDisks(drives: Drives): map<string, int> {
    map st | st in SizedStorages(drives) :: Sized(drives, st)
  }

  lemma SizedElsewhere(drives: Drives, st: string)
    requires st !in SizedStorages(drives)
    ensures Sized(drives, st) == 0
  {
    SumZero(SizedMap(drives, st));
  }

  /** `ConfigUsage`: the footprint that the config states by itself. */
  ghost function ConfigUsage(kind: string, cfg: Config): (u: Usage)
    ensures forall st :: u.At(Disk(st)) == Sized(DrivesOf(cfg), st)
  {
    var drives := DrivesOf(cfg);
    assert forall st :: Get(SizedDisks(drives), st) == Sized(drives, st) by {
      forall st | st !in SizedStorages(drives) ensures Sized(drives, st) == 0 { SizedElsewhere(drives, st); }
    }
    Usage(TotalCores(kind, cfg), MemoryOf(cfg), 1, SizedDisks(drives))
  }

  // ---------------------------------------------------------------- ranging over the config

  /** What a list of unsized volumes weighs on `st` under given listings. */
  function RefBytes(contents: Contents, node: string, refs: seq<Ref>, st: string): int {
    if refs == [] then 0
    else
      var last := refs[|refs| - 1];
      RefBytes(contents, node, refs[..|refs| - 1], st) +
      (if last.storage == st then Lookup(contents, node, last) else 0)
  }

  lemma RefAppend(contents: Contents, node: string, refs: seq<Ref>, ref: Ref, st: string)
    ensures RefBytes(contents, node, refs + [ref], st) ==
            RefBytes(contents, node, refs, st) + if ref.storage == st then Lookup(contents, node, ref) else 0
  {
    assert (refs + [ref])[..|refs|] == refs;
  }

  /** The totals per storage after the drives of `done`. */
  ghost predicate SizedTallied(done: Drives, disks: map<string, int>) {
    disks.Keys == SizedStorages(done) && forall st :: Get(disks, st) == Sized(done, st)
  }

  /** The unsized references weigh what the unsized drives of `done` weigh, whatever the
      listings turn out to say. */
  ghost predicate UnsizedTallied(done: Drives, refs: seq<Ref>) {
    forall contents, node, st :: RefBytes(contents, node, refs, st) == Unsized(contents, node, done, st)
  }

  lemma TallySized(done: Drives, disks: map<string, int>, k: string, spec: DiskSpec, disks': map<string, int>)
    requires k !in done && SizedTallied(done, disks)
    requires disks' == if Counted(spec) && spec.hasSize
                       then disks[spec.storage := Get(disks, spec.storage) + spec.size] else disks
    ensures SizedTallied(done[k := spec], disks')
  {
    var more := done[k := spec];
    assert SizedStorages(more) == disks'.Keys by {
      assert forall j <- done :: more[j] == done[j];
      if Counted(spec) && spec.hasSize { assert more[k].storage == spec.storage; }
    }
    forall st ensures Get(disks', st) == Sized(more, st) {
      SumChange(SizedMap(done, st), SizedMap(more, st), k);
      assert Get(disks, st) == Sized(done, st);
    }
  }

  lemma TallyUnsized(done: Drives, refs: seq<Ref>, k: string, spec: DiskSpec, refs': seq<Ref>)
    requires k !in done && UnsizedTallied(done, refs)
    requires refs' == if Counted(spec) && !spec.hasSize then refs + [Ref(spec.storage, spec.volid)] else refs
    ensures UnsizedTallied(done[k := spec], refs')
  {
    forall contents, node, st
      ensures RefBytes(contents, node, refs', st) == Unsized(contents, node, done[k := spec], st)
    {
      SumChange(UnsizedMap(contents, node, done, st), UnsizedMap(contents, node, done[k := spec], st), k);
      RefAppend(contents, node, refs, Ref(spec.storage, spec.volid), st);
      assert RefBytes(contents, node, refs, st) == Unsized(contents, node, done, st);
    }
  }

  /** One disk entry of the loop in `GuestResources`. */
  method TallyDrive(ghost done: Drives, disks: map<string, int>, unused: seq<Ref>, ghost k: string, spec: DiskSpec)
    returns (disks': map<string, int>, unused': seq<Ref>)
    requires spec.storage != "" ==> spec.volid != ""
    requires k !in done && SizedTallied(done, disks) && UnsizedTallied(done, unused)
    ensures SizedTallied(done[k := spec], disks') && UnsizedTallied(done[k := spec], unused')
  {
    disks', unused' := disks, unused;
    if Counted(spec) {
      if spec.hasSize {
        disks' := disks[spec.storage := Get(disks, spec.storage) + spec.size];
      } else if spec.volid != "" {
        unused' := unused + [Ref(spec.storage, spec.volid)];
      }
    }
    TallySized(done, disks, k, spec, disks');
    TallyUnsized(done, unused, k, spec, unused');
  }

  /** The loop of `GuestResources`, for every order in which the config map is ranged over. */
  method TallyDrives(cfg: Config) returns (disks: map<string, int>, unused: seq<Ref>)
    ensures SizedTallied(DrivesOf(cfg), disks) && UnsizedTallied(DrivesOf(cfg), unused)
  {
    disks, unused := map[], [];
    var todo := cfg.Keys;
    ghost var all := DrivesOf(cfg);
    ghost var done: Drives := map[];
    while todo != {}
      invariant todo <= cfg.Keys
      invariant done.Keys == all.Keys - todo && forall k <- done :: done[k] == all[k]
      invariant SizedTallied(done, disks) && UnsizedTallied(done, unused)
      decreases todo
    {
      var k :| k in todo;
      todo := todo - {k};
      if IsDiskKey(k) {
        var spec := ParseDisk(cfg[k]);
        disks, unused := TallyDrive(done, disks, unused, k, spec);
        done := done[k := spec];
      }
    }
    assert done == all;
  }

  method GuestResources(kind: string, cfg: Config) returns (r: Resources)
    ensures r.cores == TotalCores(kind, cfg) && r.memoryMiB == MemoryOf(cfg)
    ensures r.disks == SizedDisks(DrivesOf(cfg))
    ensures UnsizedTallied(DrivesOf(cfg), r.unused)
  {
    var disks, unused := TallyDrives(cfg);
    ghost var drives := DrivesOf(cfg);
    forall st | st in disks ensures disks[st] == Sized(drives, st) { assert Get(disks, st) == Sized(drives, st); }
    return Resources(TotalCores(kind, cfg), MemoryOf(cfg), disks, unused);
  }
}
