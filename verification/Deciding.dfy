/** `decide` of internal/admission/admission.go, run: the deltas and the verdict computed by the
    loops of the program, proved to be the ones that the rest of the model reasons about. */
module Deciding {
  import opened Wrappers
  import opened GoStrings
  import opened MapSums
  import opened Accounting
  import opened Deltas
  import opened Landing
  import opened Quota
  import opened Admission

  /** `ConfigUsage` */
  method ComputeConfigUsage(kind: string, cfg: Config) returns (u: Usage)
    ensures u == ConfigUsage(kind, cfg)
  {
    var r := GuestResources(kind, cfg);
    return Usage(r.cores, r.memoryMiB, 1, r.disks);
  }

  method ComputeOrders(p: Config, cur: Config) returns (disks: map<string, int>)
    ensures disks == OrderedDisks(FreshOrders(p, cur))
  {
    disks := AddDiskParams(map[], p, cur);
    TalliedFromEmpty(FreshOrders(p, cur), disks);
  }

  /** `CreateDelta` */
  method ComputeCreateDelta(kind: string, p: Config) returns (delta: Delta)
    ensures delta == CreateDelta(kind, p)
  {
    var disks := ComputeOrders(p, map[]);
    return Delta(TotalCores(kind, p), MemoryOf(p), 1, disks);
  }

  /** `ConfigDelta` */
  method ComputeConfigDelta(kind: string, p: Config, cur: Config) returns (delta: Delta)
    ensures delta == ConfigDelta(kind, p, cur)
  {
    var disks := ComputeOrders(p, cur);
    var cores := if "sockets" in p || "cores" in p then TotalCores(kind, Merge(cur, p)) - TotalCores(kind, cur) else 0;
    var memory := if "memory" in p then AtoiDef(p["memory"], 512) - AtoiDef(Field(cur, "memory"), 512) else 0;
    return Delta(cores, memory, 0, disks);
  }

  /** `CloneDelta` */
  method ComputeCloneDelta(src: Usage, p: Config) returns (delta: Delta)
    ensures delta == CloneDelta(src, p)
  {
    delta := UsageToDelta(src).(instances := 1);
    var st := Field(p, "storage");
    if st != "" {
      var total := TotalBytes(delta.diskBytes);
      delta := delta.(diskBytes := map[st := total]);
    }
  }

  /** `IncreaseDelta` on the usages that two configs state. */
  method ComputeRollbackDelta(kind: string, snap: Config, cur: Config) returns (delta: Delta)
    ensures delta == RollbackDelta(kind, snap, cur)
  {
    var target := ComputeConfigUsage(kind, snap);
    var current := ComputeConfigUsage(kind, cur);
    var disks := IncreasedDisks(target, current);
    return Delta(Increase(target.cores, current.cores), Increase(target.memoryMiB, current.memoryMiB), 0, disks);
  }

  /** The part of `decide` before the check: no delta when a read it needs failed. */
  method ComputeDelta(w: Write, r: Reads) returns (delta: Option<Delta>)
    ensures delta == DeltaOf(w, r)
  {
    match w
    case Create(_, kind, p) =>
      if IsRestore(p) {
        if r.archive.None? { return None; }
        var u := ComputeConfigUsage(kind, r.archive.value);
        return Some(UsageToDelta(u));
      }
      var d := ComputeCreateDelta(kind, p);
      return Some(d);
    case Clone(_, _, _, p) =>
      if r.source.None? { return None; }
      var d := ComputeCloneDelta(r.source.value, p);
      return Some(d);
    case Edit(_, kind, _, p) =>
      if r.config.None? { return None; }
      var d := ComputeConfigDelta(kind, p, r.config.value);
      return Some(d);
    case Resize(_, _, _, p) =>
      if r.config.None? { return None; }
      return Some(ResizeDelta(p, r.config.value));
    case Move(_, _, _, p) =>
      if r.config.None? { return None; }
      return Some(MoveDelta(p, r.config.value));
    case Rollback(_, kind, _, _) =>
      if r.config.None? || r.snapshot.None? { return None; }
      var d := ComputeRollbackDelta(kind, r.snapshot.value, r.config.value);
      return Some(d);
    case Alloc(_, storage, p) =>
      return Some(StorageAllocDelta(storage, p));
  }

  /** `decide` with its finalizers: the verdict and the settle to wait for. */
  method RunDecide(failClosed: bool, w: Write, q: UserQuota, r: Reads) returns (dec: Decision)
    ensures dec == Decide(failClosed, w, q, r)
  {
    var delta := ComputeDelta(w, r);
    if delta.None? { return OnError(failClosed); }
    if !delta.value.Positive() { return Decision(true, NoSettle, 0); }
    if r.used.None? {
      dec := OnError(failClosed);
    } else {
      var v := CheckQuota(r.used.value, delta.value, q, w.node);
      dec := Decision(v.Admit?, NoSettle, 0);
    }
    if dec.allowed { dec := dec.(settle := SettleOf(w, q, r)); }
  }
}
