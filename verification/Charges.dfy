/** What requests are charged, in the terms in which they and the guests they concern are described. */
module Charges {
  import opened Wrappers
  import opened GoStrings
  import opened MapSums
  import opened Accounting
  import opened Deltas
  import opened Landing
  import opened Quota
  import opened Admission
  import opened DiskSpecs
  import opened Machines

  // ---------------------------------------------------------------- create and edit

  /** A disk parameter: a new drive of so many GiB, or a drive spelled out. */
  datatype Wish =
    | NewDrive(storage: string, gib: nat, opts: seq<string>)
    | Given(drive: Drive)

  /** A spelled-out drive states a size, or names a volume that does not read as a count. */
  predicate Asks(w: Wish) {
    match w
    case NewDrive(storage, gib, opts) => StorageName(storage) && gib <= MAX_INT64 && PlainOptions(opts)
    case Given(d) =>
      && Writes(d)
      && (d.Sized? ==> d.size.count > 0)
      && (d.Unsized? ==> ParseInt(TrimSpace(d.volume)).None?)
  }

  function WishText(w: Wish): string {
    match w
    case NewDrive(storage, gib, opts) => PrintOrder(storage, gib, opts)
    case Given(d) => Text(d)
  }

  /** Bytes charged for it on a storage. */
  function Charged(w: Wish, st: string): int {
    match w
    case NewDrive(storage, gib, _) => if storage == st then gib * 0x4000_0000 else 0
    case Given(d) => StatedWeight(d, st)
  }

  lemma PositiveBytes(s: Size)
    requires s.count > 0
    ensures BytesOf(s) > 0
  {
    var n := match s.suffix case Some(c) => UnitOf(c) case None => 0;
    PowerPositive(n);
  }

  lemma {:induction false} PowerPositive(n: nat)
    ensures Power1024(n) > 0
  {
    if n > 0 { PowerPositive(n - 1); }
  }

  lemma ChargedOrder(w: Wish, st: string)
    requires Asks(w)
    ensures OrderTerm(OrderOf(WishText(w)), st) == Charged(w, st)
  {
    match w
    case NewDrive(storage, gib, opts) =>
      ParsePrintedOrder(storage, gib, opts);
      assert Power1024(3) == 0x4000_0000;
    case Given(d) => ChargedDrive(d, st);
  }

  lemma ChargedDrive(d: Drive, st: string)
    requires Asks(Given(d))
    ensures OrderTerm(OrderOf(Text(d)), st) == StatedWeight(d, st)
  {
    match d
    case Sized(storage, volume, before, size, after) =>
      ParsePrintedSpec(storage, volume, before, size, after);
      PositiveBytes(size);
      ParsersAgree(Text(d));
    case Unsized(storage, volume, opts) => AttachedOrder(storage, volume, opts);
    case CdRom(storage, volume, before, after) => CdRomSpec(storage, volume, before, after);
    case NoMedium(opts) =>
      SpecFields("none", opts);
      NoVolume(Text(d));
  }

  /** A volume that is attached is ordered for nothing. */
  lemma AttachedOrder(storage: string, volume: string, opts: seq<string>)
    requires Asks(Given(Unsized(storage, volume, opts)))
    ensures OrderOf(Text(Unsized(storage, volume, opts))).bytes == 0
  {
    var v, volid := Text(Unsized(storage, volume, opts)), VolidOf(storage, volume);
    UnsizedSpec(storage, volume, opts);
    ParsersAgree(v);
    TrimmedStays(volid);
    CutHead(storage, ':', volume);
    assert CountBytes(v) == 0;
  }

  datatype Request = Request(settings: Settings, wishes: map<string, Wish>, other: Config)

  function WishTexts(wishes: map<string, Wish>): map<string, string> {
    map k | k in wishes :: WishText(wishes[k])
  }

  function Params(r: Request): Config {
    Print(r.settings, WishTexts(r.wishes), r.other)
  }

  ghost predicate Spoken(r: Request) {
    Printable(r.settings, WishTexts(r.wishes), r.other) && forall k <- r.wishes :: Asks(r.wishes[k])
  }

  function ChargedMap(wishes: map<string, Wish>, taken: set<string>, st: string): map<string, int> {
    map k | k in wishes && k !in taken :: Charged(wishes[k], st)
  }

  lemma ChargedOrders(r: Request, cur: Config, taken: set<string>, st: string)
    requires Spoken(r) && forall k <- r.wishes :: k in cur <==> k in taken
    ensures Get(OrderedDisks(FreshOrders(Params(r), cur)), st) == Sum(ChargedMap(r.wishes, taken, st))
  {
    var orders := FreshOrders(Params(r), cur);
    OrderedAt(orders, st);
    forall k ensures Get(OrderMap(orders, st), k) == Get(ChargedMap(r.wishes, taken, st), k) {
      PrintedEntry(r.settings, WishTexts(r.wishes), r.other, k);
      if k in r.wishes { ChargedOrder(r.wishes[k], st); }
    }
    SumEqual(OrderMap(orders, st), ChargedMap(r.wishes, taken, st));
  }

  /** A create request is charged the cores and memory it states, or their defaults, one instance, and
      per storage the new drives' GiB and the sizes spelled out. */
  lemma CreateCharges(kind: string, r: Request, d: Dim)
    requires Spoken(r)
    ensures CreateDelta(kind, Params(r)).At(d) ==
            match d
            case Cores => CoresOf(kind, r.settings)
            case Memory => Or(r.settings.memory, 512)
            case Instances => 1
            case Disk(st) => Sum(ChargedMap(r.wishes, {}, st))
  {
    PrintedResources(kind, r.settings, WishTexts(r.wishes), r.other);
    if d.Disk? { ChargedOrders(r, map[], {}, d.storage); }
  }

  /** The settings of a guest once a request has overridden what it states. */
  function Updated(base: Settings, more: Settings): Settings {
    Settings(if more.sockets.Some? then more.sockets else base.sockets,
             if more.cores.Some? then more.cores else base.cores,
             if more.memory.Some? then more.memory else base.memory)
  }

  lemma MergedField(r: Request, m: Machine, key: string, mine: Option<nat>, base: Option<nat>)
    requires Spoken(r) && Described(m)
    requires || (key, mine, base) == ("sockets", r.settings.sockets, m.settings.sockets)
             || (key, mine, base) == ("cores", r.settings.cores, m.settings.cores)
             || (key, mine, base) == ("memory", r.settings.memory, m.settings.memory)
    ensures key in Params(r) <==> mine.Some?
    ensures var now := if mine.Some? then mine else base;
            Field(Merge(ConfigText(m), Params(r)), key) == if now.Some? then PrintNat(now.value) else ""
  {
    PrintedField(r.settings, WishTexts(r.wishes), r.other, key, mine);
    PrintedField(m.settings, Texts(m.drives), m.other, key, base);
  }

  lemma MergedCores(kind: string, r: Request, m: Machine)
    requires Spoken(r) && Described(m)
    ensures TotalCores(kind, Merge(ConfigText(m), Params(r))) == CoresOf(kind, Updated(m.settings, r.settings))
  {
    var now := Updated(m.settings, r.settings);
    MergedField(r, m, "sockets", r.settings.sockets, m.settings.sockets);
    MergedField(r, m, "cores", r.settings.cores, m.settings.cores);
    NumberRead(now.sockets, 1);
    NumberRead(now.cores, if kind == "qemu" then 1 else 0);
  }

  lemma EditedMemory(r: Request, m: Machine)
    requires Spoken(r) && Described(m)
    ensures "memory" in Params(r) <==> r.settings.memory.Some?
    ensures r.settings.memory.Some? ==> AtoiDef(Params(r)["memory"], 512) == r.settings.memory.value
    ensures AtoiDef(Field(ConfigText(m), "memory"), 512) == Or(m.settings.memory, 512)
  {
    PrintedField(r.settings, WishTexts(r.wishes), r.other, "memory", r.settings.memory);
    PrintedField(m.settings, Texts(m.drives), m.other, "memory", m.settings.memory);
    NumberRead(r.settings.memory, 512);
    NumberRead(m.settings.memory, 512);
  }

  lemma KeysTaken(r: Request, m: Machine, k: string)
    requires Spoken(r) && Described(m) && k in r.wishes
    ensures k in ConfigText(m) <==> k in m.drives
  {
    TextsAreDrives(r.settings, WishTexts(r.wishes), r.other);
    PrintedEntry(m.settings, Texts(m.drives), m.other, k);
  }

  /** An edit is charged what its settings change, and per storage the drives under keys that the guest
      does not have. */
  lemma EditCharges(kind: string, r: Request, m: Machine, d: Dim)
    requires Spoken(r) && Described(m)
    ensures ConfigDelta(kind, Params(r), ConfigText(m)).At(d) ==
            var now := Updated(m.settings, r.settings);
            match d
            case Cores => CoresOf(kind, now) - CoresOf(kind, m.settings)
            case Memory => Or(now.memory, 512) - Or(m.settings.memory, 512)
            case Instances => 0
            case Disk(st) => Sum(ChargedMap(r.wishes, m.drives.Keys, st))
  {
    match d
    case Cores =>
      MergedCores(kind, r, m);
      MergedField(r, m, "sockets", r.settings.sockets, m.settings.sockets);
      MergedField(r, m, "cores", r.settings.cores, m.settings.cores);
      PrintedResources(kind, m.settings, Texts(m.drives), m.other);
    case Memory => EditedMemory(r, m);
    case Instances =>
    case Disk(st) =>
      forall k | k in r.wishes ensures k in ConfigText(m) <==> k in m.drives { KeysTaken(r, m, k); }
      ChargedOrders(r, ConfigText(m), m.drives.Keys, st);
  }

  // ---------------------------------------------------------------- resize and move

  /** A drive with a volume, that is no CD-ROM. */
  predicate HasVolume(d: Drive) {
    Writes(d) && (d.Sized? || d.Unsized?)
  }

  lemma DriveRead(m: Machine, k: string)
    requires Described(m) && k in m.drives && HasVolume(m.drives[k])
    ensures k != "" && Field(ConfigText(m), k) == Text(m.drives[k])
    ensures var spec, d := DiskSpecOf(Text(m.drives[k])), m.drives[k];
            spec.storage == d.storage != "" && spec.hasSize == d.Sized? && (d.Sized? ==> spec.size == BytesOf(d.size))
  {
    PrintedEntry(m.settings, Texts(m.drives), m.other, k);
    TextsAreDrives(m.settings, Texts(m.drives), m.other);
    assert !IsDiskKey("");
    match m.drives[k]
    case Sized(storage, volume, before, size, after) => ParsePrintedSpec(storage, volume, before, size, after);
    case Unsized(storage, volume, opts) => UnsizedSpec(storage, volume, opts);
  }

  function SizeText(s: Size, more: bool): string {
    if more then "+" + PrintSize(s) else PrintSize(s)
  }

  lemma SizeRead(s: Size, more: bool)
    requires Writable(s)
    ensures var text := SizeText(s, more);
            && text != "" && CutPrefix(text, "+") == (if more then Some(PrintSize(s)) else None)
            && ParseSize(PrintSize(s)) == Some(BytesOf(s))
  {
    ParseSizePrinted(s);
    PrintedSize(s);
    PrintNatValue(s.count);
    assert PrintSize(s)[0] == PrintNat(s.count)[0];
    if more { assert ("+" + PrintSize(s))[1..] == PrintSize(s); }
  }

  /** A resize is charged on the drive's storage: a relative one what it adds, an absolute one what it
      grows a drive that states its size by. */
  lemma ResizeCharges(m: Machine, k: string, p: Config, s: Size, more: bool, d: Dim)
    requires Described(m) && k in m.drives && HasVolume(m.drives[k]) && Writable(s)
    requires "disk" in p && "size" in p && p["disk"] == k && p["size"] == SizeText(s, more)
    ensures ResizeDelta(p, ConfigText(m)).At(d) ==
            var drive := m.drives[k];
            if d != Disk(drive.storage) then 0
            else if more then BytesOf(s)
            else if drive.Sized? then Increase(BytesOf(s), BytesOf(drive.size))
            else 0
  {
    DriveRead(m, k);
    SizeRead(s, more);
    ResizeOf(p, ConfigText(m), BytesOf(s), more, d);
  }

  lemma ResizeOf(p: Config, cur: Config, bytes: int, more: bool, d: Dim)
    requires "disk" in p && "size" in p && p["disk"] != "" && p["size"] != ""
    requires more ==> CutPrefix(p["size"], "+").Some? && ParseSize(CutPrefix(p["size"], "+").value) == Some(bytes)
    requires !more ==> CutPrefix(p["size"], "+").None? && ParseSize(p["size"]) == Some(bytes)
    ensures var spec := DiskSpecOf(Field(cur, p["disk"]));
            ResizeDelta(p, cur).At(d) ==
            if d != Disk(spec.storage) || spec.storage == "" then 0
            else if more then bytes
            else if spec.hasSize then Increase(bytes, spec.size)
            else 0
  {}

  /** A move is charged the drive's stated size on another storage, whichever of the two parameters
      names the drive. */
  lemma MoveCharges(m: Machine, k: string, p: Config, d: Dim)
    requires Described(m) && k in m.drives && HasVolume(m.drives[k])
    requires ("disk" in p && p["disk"] == k) || ("disk" !in p && "volume" in p && p["volume"] == k)
    requires "storage" in p && p["storage"] != ""
    ensures MoveDelta(p, ConfigText(m)).At(d) ==
            var drive := m.drives[k];
            if d == Disk(p["storage"]) && drive.storage != p["storage"] && drive.Sized? then BytesOf(drive.size) else 0
  {
    DriveRead(m, k);
  }

  /** A raw volume is charged its size on its storage. */
  lemma AllocCharges(storage: string, p: Config, s: Size, d: Dim)
    requires storage != "" && "size" in p && p["size"] == PrintSize(s) && Writable(s)
    ensures StorageAllocDelta(storage, p).At(d) == if d == Disk(storage) then BytesOf(s) else 0
  {
    ParseSizePrinted(s);
  }

  // ---------------------------------------------------------------- rollback, restore and clone

  /** What a guest states itself. */
  ghost function States(kind: string, m: Machine, d: Dim): int {
    match d
    case Cores => CoresOf(kind, m.settings)
    case Memory => Or(m.settings.memory, 512)
    case Instances => 1
    case Disk(st) => Sum(StatedMap(m.drives, st))
  }

  lemma StatedBytes(m: Machine, st: string)
    requires Described(m)
    ensures Accounting.Sized(DrivesOf(ConfigText(m)), st) == Sum(StatedMap(m.drives, st))
  {
    var drives := DrivesOf(ConfigText(m));
    PrintedDrives(m.settings, Texts(m.drives), m.other);
    forall k ensures Get(SizedMap(drives, st), k) == Get(StatedMap(m.drives, st), k) {
      if k in m.drives { PrintedDrive(map[], "", m.drives[k], st); }
    }
    SumEqual(SizedMap(drives, st), StatedMap(m.drives, st));
  }

  lemma StatedUsage(kind: string, m: Machine, d: Dim)
    requires Described(m)
    ensures ConfigUsage(kind, ConfigText(m)).At(d) == States(kind, m, d)
  {
    if d.Disk? { StatedBytes(m, d.storage); } else { PrintedResources(kind, m.settings, Texts(m.drives), m.other); }
  }

  lemma StatedNonNegative(kind: string, m: Machine, st: string)
    requires Described(m)
    ensures Get(ConfigUsage(kind, ConfigText(m)).diskBytes, st) >= 0
  {
    StatedUsage(kind, m, Disk(st));
    SumNonNegative(StatedMap(m.drives, st));
  }

  /** A rollback is charged what the snapshot states more than the guest does. */
  lemma RollbackCharges(kind: string, snap: Machine, cur: Machine, d: Dim)
    requires Described(snap) && Described(cur)
    ensures RollbackDelta(kind, ConfigText(snap), ConfigText(cur)).At(d) ==
            if d == Instances then 0 else Increase(States(kind, snap, d), States(kind, cur, d))
  {
    forall st ensures Get(ConfigUsage(kind, ConfigText(cur)).diskBytes, st) >= 0 { StatedNonNegative(kind, cur, st); }
    IncreaseAt(ConfigUsage(kind, ConfigText(snap)), ConfigUsage(kind, ConfigText(cur)), d);
    StatedUsage(kind, snap, d);
    StatedUsage(kind, cur, d);
  }

  /** A restore is charged what the archive states. */
  lemma RestoreCharges(kind: string, archived: Machine, d: Dim)
    requires Described(archived)
    ensures RestoreDelta(kind, ConfigText(archived)).At(d) == States(kind, archived, d)
  {
    StatedUsage(kind, archived, d);
  }

  /** A drive on whatever storage it is. */
  function WholeWeight(contents: Contents, node: string, d: Drive): int {
    if d.Sized? || d.Unsized? then DriveWeight(contents, node, d, d.storage) else 0
  }

  function WholeMap(contents: Contents, node: string, drives: map<string, Drive>): map<string, int> {
    map k | k in drives :: WholeWeight(contents, node, drives[k])
  }

  lemma WholeDrive(contents: Contents, node: string, d: Drive)
    requires Writes(d)
    ensures Weight(contents, node, DiskSpecOf(Text(d))) == WholeWeight(contents, node, d)
  {
    PrintedDrive(contents, node, d, DiskSpecOf(Text(d)).storage);
    match d
    case Sized(storage, volume, before, size, after) => ParsePrintedSpec(storage, volume, before, size, after);
    case Unsized(storage, volume, opts) => UnsizedSpec(storage, volume, opts);
    case _ =>
  }

  lemma WholeTotal(contents: Contents, node: string, kind: string, m: Machine, src: Usage)
    requires Described(m) && forall d :: src.At(d) == Takes(contents, node, kind, m, d)
    ensures Sum(src.diskBytes) == Sum(WholeMap(contents, node, m.drives))
  {
    var drives := DrivesOf(ConfigText(m));
    PrintedDrives(m.settings, Texts(m.drives), m.other);
    forall st ensures Get(src.diskBytes, st) == DriveBytes(contents, node, drives, st) {
      assert src.At(Disk(st)) == Takes(contents, node, kind, m, Disk(st));
      PrintedFoot(contents, node, kind, m, Disk(st));
    }
    StoragesExchange(contents, node, drives, src.diskBytes);
    forall k | k in m.drives { WholeDrive(contents, node, m.drives[k]); }
    SumEqual(WeightMap(contents, node, drives), WholeMap(contents, node, m.drives));
  }

  /** A clone is charged what its source takes up, drive by drive where they are, or all of them on the
      storage it names. */
  lemma CloneCharges(contents: Contents, node: string, kind: string, m: Machine, src: Usage, p: Config, d: Dim)
    requires Described(m) && forall d :: src.At(d) == Takes(contents, node, kind, m, d)
    ensures CloneDelta(src, p).At(d) ==
            match d
            case Disk(st) =>
              if "storage" !in p || p["storage"] == "" then Takes(contents, node, kind, m, d)
              else if st == p["storage"] then Sum(WholeMap(contents, node, m.drives)) else 0
            case _ => Takes(contents, node, kind, m, d)
  {
    assert src.At(d) == Takes(contents, node, kind, m, d);
    if d.Disk? { WholeTotal(contents, node, kind, m, src); }
  }
}
