/** Guests and requests as a person would describe them, printed as config entries and parameters: what
    accounting and the deltas make of the printed text, in the description's own terms. */
module Machines {
  import opened Wrappers
  import opened GoStrings
  import opened MapSums
  import opened Accounting
  import opened Engine
  import opened Deltas
  import opened Landing
  import opened DiskSpecs

  // ---------------------------------------------------------------- disk keys

  const SINGLE_KEYS := {"rootfs", "efidisk0", "tpmstate0"}
  const BUSES := {"scsi", "virtio", "sata", "ide", "mp", "unused"}

  predicate OnBus(k: string, bus: string, digits: string) {
    bus in BUSES && AllDigits(digits) && k == bus + digits
  }

  lemma IndexedIs(k: string, bus: string)
    ensures Indexed(k, bus) <==> exists digits :: AllDigits(digits) && k == bus + digits
  {
    if Indexed(k, bus) { assert k == bus + k[|bus|..]; }
    if digits :| AllDigits(digits) && k == bus + digits { assert k[..|bus|] == bus && k[|bus|..] == digits; }
  }

  lemma IndexedOnBus(k: string, bus: string)
    requires bus in BUSES
    ensures Indexed(k, bus) <==> exists digits :: OnBus(k, bus, digits)
  {
    IndexedIs(k, bus);
    if digits :| AllDigits(digits) && k == bus + digits { assert OnBus(k, bus, digits); }
    if digits :| OnBus(k, bus, digits) {}
  }

  lemma BusKey(k: string)
    ensures IsDiskKey(k) <==> k in SINGLE_KEYS || exists bus <- BUSES :: Indexed(k, bus)
  {
    if IsDiskKey(k) && k !in SINGLE_KEYS {
      assert Indexed(k, "scsi") || Indexed(k, "virtio") || Indexed(k, "sata")
             || Indexed(k, "ide") || Indexed(k, "mp") || Indexed(k, "unused");
    }
  }

  /** The disk keys are the three single ones, and the six buses with digits after them. */
  lemma DiskKeysExactly(k: string)
    ensures IsDiskKey(k) <==> k in SINGLE_KEYS || exists bus, digits :: OnBus(k, bus, digits)
  {
    BusKey(k);
    if bus :| bus in BUSES && Indexed(k, bus) { IndexedOnBus(k, bus); }
    if bus, digits :| OnBus(k, bus, digits) { IndexedOnBus(k, bus); }
  }

  /** Among them, every bus with a printed number. */
  lemma NumberedKey(bus: string, n: nat)
    requires bus in BUSES
    ensures IsDiskKey(bus + PrintNat(n))
  {
    PrintNatValue(n);
    assert OnBus(bus + PrintNat(n), bus, PrintNat(n));
    DiskKeysExactly(bus + PrintNat(n));
  }

  ghost predicate DriveKey(k: string) {
    k in SINGLE_KEYS || exists bus, n: nat :: NumberedOn(k, bus, n)
  }

  predicate NumberedOn(k: string, bus: string, n: nat) {
    bus in BUSES && k == bus + PrintNat(n)
  }

  lemma DriveKeyIsDiskKey(k: string)
    requires DriveKey(k)
    ensures IsDiskKey(k)
  {
    if bus, n: nat :| NumberedOn(k, bus, n) { NumberedKey(bus, n); }
  }

  // ---------------------------------------------------------------- settings

  datatype Settings = Settings(sockets: Option<nat>, cores: Option<nat>, memory: Option<nat>)

  predicate InRange(n: Option<nat>) {
    n.Some? ==> n.value <= MAX_INT64
  }

  function Or(n: Option<nat>, def: nat): nat {
    match n case Some(v) => v case None => def
  }

  /** A virtual machine has sockets of cores, one each unless stated; a container has cores, none
      unless stated. */
  function CoresOf(kind: string, s: Settings): nat {
    if kind == "qemu" then Or(s.sockets, 1) * Or(s.cores, 1) else Or(s.cores, 0)
  }

  function Setting(key: string, n: Option<nat>): Config {
    match n case Some(v) => map[key := PrintNat(v)] case None => map[]
  }

  function PrintSettings(s: Settings): Config {
    Setting("sockets", s.sockets) + Setting("cores", s.cores) + Setting("memory", s.memory)
  }

  /** Entries that say nothing about resources. */
  predicate Silent(other: Config) {
    forall k <- other :: !IsDiskKey(k) && k != "sockets" && k != "cores" && k != "memory"
  }

  function Print(s: Settings, texts: map<string, string>, other: Config): Config {
    other + PrintSettings(s) + texts
  }

  ghost predicate Printable(s: Settings, texts: map<string, string>, other: Config) {
    && InRange(s.sockets) && InRange(s.cores) && InRange(s.memory)
    && (forall k <- texts :: DriveKey(k))
    && Silent(other)
  }

  lemma SettingKeys()
    ensures !IsDiskKey("sockets") && !IsDiskKey("cores") && !IsDiskKey("memory")
  {
    assert "sockets"[1] == 'o' && "scsi"[1] == 'c' && "sata"[1] == 'a';
    assert "cores"[0] == 'c' && "memory"[1] == 'e' && "mp"[1] == 'p';
  }

  lemma TextsAreDrives(s: Settings, texts: map<string, string>, other: Config)
    requires Printable(s, texts, other)
    ensures forall k <- texts :: IsDiskKey(k)
    ensures "sockets" !in texts && "cores" !in texts && "memory" !in texts
  {
    forall k | k in texts ensures IsDiskKey(k) { DriveKeyIsDiskKey(k); }
    SettingKeys();
  }

  lemma PrintedField(s: Settings, texts: map<string, string>, other: Config, key: string, n: Option<nat>)
    requires Printable(s, texts, other)
    requires (key, n) == ("sockets", s.sockets) || (key, n) == ("cores", s.cores) || (key, n) == ("memory", s.memory)
    ensures key in Print(s, texts, other) <==> n.Some?
    ensures Field(Print(s, texts, other), key) == if n.Some? then PrintNat(n.value) else ""
  {
    TextsAreDrives(s, texts, other);
  }

  lemma NumberRead(n: Option<nat>, def: nat)
    requires InRange(n)
    ensures AtoiDef(if n.Some? then PrintNat(n.value) else "", def) == Or(n, def)
  {
    if n.Some? {
      PrintedCount(n.value);
      TrimmedStays(PrintNat(n.value));
      ParsePrint(n.value);
    }
  }

  /** What the printed settings are read as. */
  lemma PrintedResources(kind: string, s: Settings, texts: map<string, string>, other: Config)
    requires Printable(s, texts, other)
    ensures TotalCores(kind, Print(s, texts, other)) == CoresOf(kind, s)
    ensures MemoryOf(Print(s, texts, other)) == Or(s.memory, 512)
  {
    PrintedField(s, texts, other, "sockets", s.sockets);
    PrintedField(s, texts, other, "cores", s.cores);
    PrintedField(s, texts, other, "memory", s.memory);
    NumberRead(s.sockets, 1);
    NumberRead(s.cores, if kind == "qemu" then 1 else 0);
    NumberRead(s.memory, 512);
  }

  lemma PrintedEntry(s: Settings, texts: map<string, string>, other: Config, k: string)
    requires Printable(s, texts, other)
    ensures k in Print(s, texts, other) && IsDiskKey(k) <==> k in texts
    ensures k in texts ==> Print(s, texts, other)[k] == texts[k]
  {
    TextsAreDrives(s, texts, other);
    SettingKeys();
  }

  lemma EntriesAreDrives(cfg: Config, texts: map<string, string>)
    requires forall k :: k in cfg && IsDiskKey(k) <==> k in texts
    requires forall k <- texts :: cfg[k] == texts[k]
    ensures DrivesOf(cfg) == map k | k in texts :: DiskSpecOf(texts[k])
  {}

  lemma PrintedDrives(s: Settings, texts: map<string, string>, other: Config)
    requires Printable(s, texts, other)
    ensures DrivesOf(Print(s, texts, other)) == map k | k in texts :: DiskSpecOf(texts[k])
  {
    var cfg := Print(s, texts, other);
    forall k ensures k in cfg && IsDiskKey(k) <==> k in texts { PrintedEntry(s, texts, other, k); }
    forall k | k in texts ensures cfg[k] == texts[k] { PrintedEntry(s, texts, other, k); }
    EntriesAreDrives(cfg, texts);
  }

  // ---------------------------------------------------------------- drives

  datatype Drive =
    | Sized(storage: string, volume: string, before: seq<string>, size: Size, after: seq<string>)
    | Unsized(storage: string, volume: string, opts: seq<string>)
    | CdRom(storage: string, volume: string, before: seq<string>, after: seq<string>)
    | NoMedium(opts: seq<string>)

  predicate Writes(d: Drive) {
    match d
    case Sized(storage, volume, before, size, after) =>
      VolumeName(storage, volume) && DriveOptions(before) && Writable(size) && PlainOptions(after)
    case Unsized(storage, volume, opts) => VolumeName(storage, volume) && PlainOptions(opts)
    case CdRom(storage, volume, before, after) =>
      && VolumeName(storage, volume)
      && (forall o <- before :: OptionText(o)) && (forall o <- after :: OptionText(o))
    case NoMedium(opts) => forall o <- opts :: OptionText(o)
  }

  function Text(d: Drive): string {
    match d
    case Sized(storage, volume, before, size, after) => PrintSpec(storage, volume, before, size, after)
    case Unsized(storage, volume, opts) => Join([VolidOf(storage, volume)] + opts, ',')
    case CdRom(storage, volume, before, after) =>
      Join([VolidOf(storage, volume)] + (before + ["media=cdrom"] + after), ',')
    case NoMedium(opts) => Join(["none"] + opts, ',')
  }

  /** The size that the listing of the node's storage gives a volume, zero when it lists none. */
  function Listed(contents: Contents, node: string, storage: string, volid: string): int {
    if (node, storage) in contents && volid in contents[(node, storage)] then contents[(node, storage)][volid] else 0
  }

  /** Bytes of the drive on a storage. */
  function DriveWeight(contents: Contents, node: string, d: Drive, st: string): int {
    match d
    case Sized(storage, _, _, size, _) => if storage == st then BytesOf(size) else 0
    case Unsized(storage, volume, _) =>
      if storage == st then Listed(contents, node, st, VolidOf(storage, volume)) else 0
    case CdRom(_, _, _, _) => 0
    case NoMedium(_) => 0
  }

  /** Bytes that the drive states itself. */
  function StatedWeight(d: Drive, st: string): int {
    if d.Sized? && d.storage == st then BytesOf(d.size) else 0
  }

  lemma NoVolume(v: string)
    requires Split(v, ',')[0] == "none"
    ensures DiskSpecOf(v) == NO_DISK && OrderOf(v) == Order("", 0, false)
  {
    TrimmedStays("none");
  }

  lemma UnsizedSpec(storage: string, volume: string, opts: seq<string>)
    requires VolumeName(storage, volume) && PlainOptions(opts)
    ensures var v := Join([VolidOf(storage, volume)] + opts, ',');
            && DiskSpecOf(v) == DiskSpec(storage, 0, false, false, VolidOf(storage, volume))
            && VolumeOf(v) == Some((storage, VolidOf(storage, volume))) && Split(v, ',')[0] == VolidOf(storage, volume)
  {
    forall o | o in opts ensures OptionText(o) { assert PlainOption(o); }
    SpecFields(VolidOf(storage, volume), opts);
    VolumeParsed(storage, volume, Join([VolidOf(storage, volume)] + opts, ','));
    NoSize(opts);
  }

  lemma CdRomSpec(storage: string, volume: string, before: seq<string>, after: seq<string>)
    requires Writes(CdRom(storage, volume, before, after))
    ensures var v := Text(CdRom(storage, volume, before, after)); DiskSpecOf(v).cdrom && OrderOf(v).cdrom
  {
    var opts := before + ["media=cdrom"] + after;
    var v := Join([VolidOf(storage, volume)] + opts, ',');
    assert OptionText("media=cdrom");
    SpecFields(VolidOf(storage, volume), opts);
    VolumeParsed(storage, volume, v);
    assert opts[|before|] == "media=cdrom";
  }

  /** What a printed drive is read as, in bytes on a storage. */
  lemma PrintedDrive(contents: Contents, node: string, d: Drive, st: string)
    requires Writes(d)
    ensures DriveTerm(contents, node, DiskSpecOf(Text(d)), st) == DriveWeight(contents, node, d, st)
    ensures SizedTerm(DiskSpecOf(Text(d)), st) == StatedWeight(d, st)
  {
    match d
    case Sized(storage, volume, before, size, after) => ParsePrintedSpec(storage, volume, before, size, after);
    case Unsized(storage, volume, opts) => UnsizedSpec(storage, volume, opts);
    case CdRom(storage, volume, before, after) => CdRomSpec(storage, volume, before, after);
    case NoMedium(opts) =>
      SpecFields("none", opts);
      NoVolume(Text(d));
  }

  // ---------------------------------------------------------------- guests

  datatype Machine = Machine(settings: Settings, drives: map<string, Drive>, other: Config)

  function Texts(drives: map<string, Drive>): map<string, string> {
    map k | k in drives :: Text(drives[k])
  }

  function ConfigText(m: Machine): Config {
    Print(m.settings, Texts(m.drives), m.other)
  }

  ghost predicate Described(m: Machine) {
    Printable(m.settings, Texts(m.drives), m.other) && forall k <- m.drives :: Writes(m.drives[k])
  }

  function DriveWeights(contents: Contents, node: string, drives: map<string, Drive>, st: string): map<string, int> {
    map k | k in drives :: DriveWeight(contents, node, drives[k], st)
  }

  function StatedMap(drives: map<string, Drive>, st: string): map<string, int> {
    map k | k in drives :: StatedWeight(drives[k], st)
  }

  /** What a guest takes up, in the description's own terms. */
  ghost function Takes(contents: Contents, node: string, kind: string, m: Machine, d: Dim): int {
    match d
    case Cores => CoresOf(kind, m.settings)
    case Memory => Or(m.settings.memory, 512)
    case Instances => 1
    case Disk(st) => Sum(DriveWeights(contents, node, m.drives, st))
  }

  /** The footprint of a printed guest is what it takes up. */
  lemma PrintedFoot(contents: Contents, node: string, kind: string, m: Machine, d: Dim)
    requires Described(m)
    ensures Foot(contents, node, kind, ConfigText(m), d) == Takes(contents, node, kind, m, d)
  {
    PrintedResources(kind, m.settings, Texts(m.drives), m.other);
    PrintedDrives(m.settings, Texts(m.drives), m.other);
    if d.Disk? {
      forall k | k in m.drives { PrintedDrive(contents, node, m.drives[k], d.storage); }
      SumEqual(DriveMap(contents, node, DrivesOf(ConfigText(m)), d.storage),
               DriveWeights(contents, node, m.drives, d.storage));
    }
  }

  // ---------------------------------------------------------------- pools

  /** Every guest that the list names runs a described machine. */
  ghost predicate Runs(api: Api, ms: seq<Member>, machines: map<Member, Machine>) {
    forall m <- ms :: m.kind == "qemu" || m.kind == "lxc" ==>
      && m in machines && Described(machines[m]) && (m.node, m.kind, m.vmid) in api.configs
      && api.configs[(m.node, m.kind, m.vmid)] == ConfigText(machines[m])
  }

  /** What the guests of the list take up; its other members take up nothing. */
  ghost function AllTake(contents: Contents, ms: seq<Member>, machines: map<Member, Machine>, d: Dim): int {
    if ms == [] then 0
    else
      var m := ms[|ms| - 1];
      AllTake(contents, ms[..|ms| - 1], machines, d) +
      if (m.kind == "qemu" || m.kind == "lxc") && m in machines then Takes(contents, m.node, m.kind, machines[m], d)
      else 0
  }

  lemma {:induction false} PrintedTotal(contents: Contents, api: Api, ms: seq<Member>, machines: map<Member, Machine>,
                                        d: Dim)
    requires Runs(api, ms, machines)
    ensures ListTotal(contents, api, ms, d) == AllTake(contents, ms, machines, d)
  {
    if ms != [] {
      var m := ms[|ms| - 1];
      assert forall x <- ms[..|ms| - 1] :: x in ms;
      PrintedTotal(contents, api, ms[..|ms| - 1], machines, d);
      if m.kind == "qemu" || m.kind == "lxc" { PrintedFoot(contents, m.node, m.kind, machines[m], d); }
    }
  }

  lemma ReadableGuests(api: Api, pool: string)
    requires pool in api.members && forall m <- api.members[pool] :: IsGuest(m) ==> KeyOf(m) in api.configs
    ensures CanScan(api, pool) <==>
            && PoolMembersOf(pool) !in api.down
            && forall m <- api.members[pool] ::
                 m.kind == "qemu" || m.kind == "lxc" ==> ConfigOf(m.node, m.kind, m.vmid) !in api.down
  {}

  /** The usage of a pool of described machines: the scan succeeds exactly if the member list and the
      guests' configs can be read, and sums up what the guests take up, volumes of listings that cannot
      be read being taken for nothing. */
  method ScanMachines(api: Api, pool: string, ghost machines: map<Member, Machine>) returns (used: Option<Usage>)
    requires Sane(api) && pool in api.members && Runs(api, api.members[pool], machines)
    ensures used.Some? <==>
            && PoolMembersOf(pool) !in api.down
            && forall m <- api.members[pool] ::
                 m.kind == "qemu" || m.kind == "lxc" ==> ConfigOf(m.node, m.kind, m.vmid) !in api.down
    ensures used.Some? ==>
              forall d :: used.value.At(d) == AllTake(Visible(api), api.members[pool], machines, d)
  {
    var now, log;
    ghost var seen;
    var up := (t: nat) => api;
    used, now, log, seen := UserUsage(up, pool, 0);
    ReadableGuests(api, pool);
    forall d { PrintedTotal(Visible(api), api, api.members[pool], machines, d); }
  }
}
