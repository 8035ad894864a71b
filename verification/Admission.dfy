/** The admission decision and its helpers, after internal/admission/admission.go. */
module Admission {
  import opened Wrappers
  import opened GoStrings
  import opened MapSums
  import opened Accounting
  import opened Deltas
  import opened Landing
  import opened Quota

  // ---------------------------------------------------------------- limits

  datatype Limits = Limits(cores: int, memoryMiB: int, instances: int, diskGiB: map<string, int>)

  function OrElse<T>(o: Option<T>, base: T): T {
    match o case Some(v) => v case None => base
  }

  /** `effectiveLimits`: a node override replaces the base limits it mentions. */
  function EffectiveLimits(q: UserQuota, node: string): Limits {
    if node == "" || node !in q.nodes then Limits(q.cores, q.memoryMiB, q.instances, q.diskGiB)
    else
      var o := q.nodes[node];
      Limits(OrElse(o.cores, q.cores), OrElse(o.memoryMiB, q.memoryMiB),
             OrElse(o.instances, q.instances), OrElse(o.diskGiB, q.diskGiB))
  }

  /** What a quota allows in one dimension, in bytes for a storage; nothing for an unlisted storage. */
  function Limit(q: UserQuota, node: string, d: Dim): Option<int> {
    var l := EffectiveLimits(q, node);
    match d
    case Cores => Some(l.cores)
    case Memory => Some(l.memoryMiB)
    case Instances => Some(l.instances)
    case Disk(st) => if st in l.diskGiB && l.diskGiB[st] >= 0 then Some(l.diskGiB[st] * GIB) else None
  }

  /** An increase fits when there is none, or the limit leaves room for it. */
  predicate FitsAt(limit: Option<int>, used: int, delta: int) {
    delta <= 0 || (limit.Some? && used + delta <= limit.value)
  }

  ghost predicate Fits(q: UserQuota, node: string, used: Usage, delta: Delta) {
    forall d :: FitsAt(Limit(q, node, d), used.At(d), delta.At(d))
  }

  function CeilGiB(b: int): int {
    if b <= 0 then 0 else (b + GIB - 1) / GIB
  }

  /** Rounding up to whole GiB is the adjoint of multiplying by 2^30, wherever that matters. */
  lemma CeilGiBAdjoint(b: int, limit: int)
    ensures CeilGiB(b) <= limit <==> 0 <= limit && b <= limit * GIB
  {}

  // ---------------------------------------------------------------- the record itself

  /** What the record says for the node, field by field; nothing where it does not list the node. */
  function OverrideAt(q: UserQuota, node: string): NodeOverride {
    if node != "" && node in q.nodes then q.nodes[node] else NodeOverride(None, None, None, None)
  }

  /** An increase leaves a quantity within what the override states, or within the base where it states nothing. */
  predicate Room(used: int, more: int, stated: Option<int>, base: int) {
    more > 0 ==> (stated.Some? ==> used + more <= stated.value) && (stated.None? ==> used + more <= base)
  }

  /** An increase on a storage needs an entry of the override's list, where it has one, or of the base's. */
  predicate RoomOn(used: int, more: int, stated: Option<map<string, int>>, base: map<string, int>, st: string) {
    more > 0 ==>
      && (stated.Some? ==> st in stated.value && InGiB(used + more, stated.value[st]))
      && (stated.None? ==> st in base && InGiB(used + more, base[st]))
  }

  predicate InGiB(bytes: int, gib: int) {
    gib >= 0 && bytes <= gib * 0x4000_0000
  }

  /** What the record allows, in its own fields. */
  predicate RecordAllows(q: UserQuota, node: string, used: Usage, delta: Delta) {
    var o := OverrideAt(q, node);
    && Room(used.cores, delta.cores, o.cores, q.cores)
    && Room(used.memoryMiB, delta.memoryMiB, o.memoryMiB, q.memoryMiB)
    && Room(used.instances, delta.instances, o.instances, q.instances)
    && forall st <- delta.diskBytes ::
         RoomOn(Get(used.diskBytes, st), delta.diskBytes[st], o.diskGiB, q.diskGiB, st)
  }

  lemma RecordAllowsAt(q: UserQuota, node: string, used: Usage, delta: Delta, st: string)
    ensures var o := OverrideAt(q, node);
            FitsAt(Limit(q, node, Disk(st)), used.At(Disk(st)), delta.At(Disk(st))) <==>
            RoomOn(Get(used.diskBytes, st), Get(delta.diskBytes, st), o.diskGiB, q.diskGiB, st)
  {}

  /** A delta fits the limits exactly when the record allows it. */
  lemma RecordDecides(q: UserQuota, node: string, used: Usage, delta: Delta)
    ensures Fits(q, node, used, delta) <==> RecordAllows(q, node, used, delta)
  {
    forall st { RecordAllowsAt(q, node, used, delta, st); }
    if Fits(q, node, used, delta) {
      assert FitsAt(Limit(q, node, Cores), used.At(Cores), delta.At(Cores));
      assert FitsAt(Limit(q, node, Memory), used.At(Memory), delta.At(Memory));
      assert FitsAt(Limit(q, node, Instances), used.At(Instances), delta.At(Instances));
      forall st | st in delta.diskBytes
        ensures RoomOn(Get(used.diskBytes, st), delta.diskBytes[st], OverrideAt(q, node).diskGiB, q.diskGiB, st)
      {
        assert FitsAt(Limit(q, node, Disk(st)), used.At(Disk(st)), delta.At(Disk(st)));
      }
    } else {
      var d :| !FitsAt(Limit(q, node, d), used.At(d), delta.At(d));
      if d.Disk? { RecordAllowsAt(q, node, used, delta, d.storage); }
    }
  }

  datatype Verdict = Admit | Refuse(over: Dim)

  /** `checkQuota`, for every order in which the delta's storages are ranged over: it admits exactly
      what the record allows, which is what fits, and the dimension it names otherwise does not. */
  method CheckQuota(used: Usage, delta: Delta, q: UserQuota, node: string) returns (v: Verdict)
    ensures v.Admit? <==> RecordAllows(q, node, used, delta)
    ensures v.Admit? <==> Fits(q, node, used, delta)
    ensures v.Refuse? ==> !FitsAt(Limit(q, node, v.over), used.At(v.over), delta.At(v.over))
  {
    RecordDecides(q, node, used, delta);
    var l := EffectiveLimits(q, node);
    if delta.cores > 0 && used.cores + delta.cores > l.cores {
      assert !FitsAt(Limit(q, node, Cores), used.At(Cores), delta.At(Cores));
      return Refuse(Cores);
    }
    if delta.memoryMiB > 0 && used.memoryMiB + delta.memoryMiB > l.memoryMiB {
      assert !FitsAt(Limit(q, node, Memory), used.At(Memory), delta.At(Memory));
      return Refuse(Memory);
    }
    if delta.instances > 0 && used.instances + delta.instances > l.instances {
      assert !FitsAt(Limit(q, node, Instances), used.At(Instances), delta.At(Instances));
      return Refuse(Instances);
    }
    var todo := delta.diskBytes.Keys;
    while todo != {}
      invariant todo <= delta.diskBytes.Keys
      invariant forall st <- delta.diskBytes.Keys - todo ::
                  FitsAt(Limit(q, node, Disk(st)), used.At(Disk(st)), delta.At(Disk(st)))
      decreases todo
    {
      var st :| st in todo;
      todo := todo - {st};
      var db := delta.diskBytes[st];
      if db > 0 {
        var bytes := Get(used.diskBytes, st) + db;
        assert bytes == used.At(Disk(st)) + delta.At(Disk(st));
        if st !in l.diskGiB { return Refuse(Disk(st)); }
        CeilGiBAdjoint(bytes, l.diskGiB[st]);
        if CeilGiB(bytes) > l.diskGiB[st] { return Refuse(Disk(st)); }
      }
    }
    forall d ensures FitsAt(Limit(q, node, d), used.At(d), delta.At(d)) {
      if d.Disk? && d.storage in delta.diskBytes {
        assert d.storage in delta.diskBytes.Keys - todo;
        assert d == Disk(d.storage);
      }
    }
    return Admit;
  }

  /** Lower usage, a lower delta or a higher limit never turn an acceptance into a refusal. */
  predicate NoHigher(a: Option<int>, b: Option<int>) {
    a.Some? ==> b.Some? && a.value <= b.value
  }

  lemma FitsMonotone(q: UserQuota, node: string, used: Usage, delta: Delta,
                     q': UserQuota, node': string, used': Usage, delta': Delta)
    requires Fits(q, node, used, delta)
    requires forall d :: used'.At(d) <= used.At(d)
    requires forall d :: delta'.At(d) <= delta.At(d)
    requires forall d :: NoHigher(Limit(q, node, d), Limit(q', node', d))
    ensures Fits(q', node', used', delta')
  {
    forall d ensures FitsAt(Limit(q', node', d), used'.At(d), delta'.At(d)) {
      assert FitsAt(Limit(q, node, d), used.At(d), delta.At(d));
      assert NoHigher(Limit(q, node, d), Limit(q', node', d));
    }
  }

  /** Overrides that only narrow: in no dimension does a node allow more than the base. */
  ghost predicate Narrows(q: UserQuota) {
    forall node, d :: NoHigher(Limit(q, node, d), Limit(q, "", d))
  }

  /** Overrides narrow exactly when no node ever accepts what the base limits refuse. */
  lemma NarrowsExactly(q: UserQuota)
    ensures Narrows(q) <==>
            (forall node, used, delta :: Fits(q, node, used, delta) ==> Fits(q, "", used, delta))
  {
    if Narrows(q) {
      forall node, used, delta | Fits(q, node, used, delta) ensures Fits(q, "", used, delta) {
        FitsMonotone(q, node, used, delta, q, "", used, delta);
      }
    } else {
      var node, d :| !NoHigher(Limit(q, node, d), Limit(q, "", d));
      var used, delta := OneUnitBelow(Limit(q, node, d).value, d);
      assert Fits(q, node, used, delta);
      assert !FitsAt(Limit(q, "", d), used.At(d), delta.At(d));
    }
  }

  lemma OneUnitBelow(limit: int, d: Dim) returns (used: Usage, delta: Delta)
    ensures used.At(d) == limit - 1 && delta.At(d) == 1
    ensures forall e :: e != d ==> delta.At(e) == 0
  {
    used, delta := Usage(0, 0, 0, map[]), NO_DELTA;
    match d
    case Cores => used, delta := used.(cores := limit - 1), delta.(cores := 1);
    case Memory => used, delta := used.(memoryMiB := limit - 1), delta.(memoryMiB := 1);
    case Instances => used, delta := used.(instances := limit - 1), delta.(instances := 1);
    case Disk(st) => used, delta := used.(diskBytes := map[st := limit - 1]), delta.(diskBytes := map[st := 1]);
  }

  // ---------------------------------------------------------------- decisions

  /** The enforced writes, with what the path and the body say. */
  datatype Write =
    | Create(node: string, kind: string, params: Config)
    | Clone(node: string, kind: string, source: int, params: Config)
    | Edit(node: string, kind: string, vmid: int, params: Config)
    | Resize(node: string, kind: string, vmid: int, params: Config)
    | Move(node: string, kind: string, vmid: int, params: Config)
    | Rollback(node: string, kind: string, vmid: int, snapshot: string)
    | Alloc(node: string, storage: string, params: Config)

  /** Writes that make a new guest. */
  predicate MakesGuest(w: Write) {
    w.Create? || w.Clone?
  }

  /** What the accounting reads of one decision returned; `None` is a failed read. */
  datatype Reads = Reads(
    config: Option<Config>,      // the guest's current config
    source: Option<Usage>,       // the clone source's footprint
    snapshot: Option<Config>,    // the config stored in the snapshot
    archive: Option<Config>,     // the config embedded in the backup
    used: Option<Usage>)         // the pool's usage

  function ToLower(s: string): string {
    seq(|s|, i requires 0 <= i < |s| => if 'A' <= s[i] <= 'Z' then (s[i] as int + 32) as char else s[i])
  }

  predicate IsRestore(p: Config) {
    "archive" in p || ToLower(Field(p, "restore")) == "1" || ToLower(Field(p, "restore")) == "true"
  }

  function StorageAllocDelta(storage: string, p: Config): Delta {
    if storage == "" then NO_DELTA
    else match ParseSize(Field(p, "size"))
      case Some(n) => if n > 0 then NO_DELTA.(diskBytes := map[storage := n]) else NO_DELTA
      case None => NO_DELTA
  }

  /** The delta a decision checks, when the reads it needs succeed. */
  ghost function DeltaOf(w: Write, r: Reads): Option<Delta> {
    match w
    case Create(node, kind, p) =>
      if !IsRestore(p) then Some(CreateDelta(kind, p))
      else if r.archive.None? then None
      else Some(RestoreDelta(kind, r.archive.value))
    case Clone(node, kind, source, p) =>
      if r.source.None? then None else Some(CloneDelta(r.source.value, p))
    case Edit(node, kind, vmid, p) =>
      if r.config.None? then None else Some(ConfigDelta(kind, p, r.config.value))
    case Resize(node, kind, vmid, p) =>
      if r.config.None? then None else Some(ResizeDelta(p, r.config.value))
    case Move(node, kind, vmid, p) =>
      if r.config.None? then None else Some(MoveDelta(p, r.config.value))
    case Rollback(node, kind, vmid, snap) =>
      if r.config.None? || r.snapshot.None? then None
      else Some(RollbackDelta(kind, r.snapshot.value, r.config.value))
    case Alloc(node, storage, p) => Some(StorageAllocDelta(storage, p))
  }

  /** What the middleware waits for after forwarding. */
  datatype Settle =
    | NoSettle
    | AwaitMember(pool: string, vmid: int)
    | AwaitChange(node: string, kind: string, vmid: int, pre: Config)

  datatype Decision = Decision(allowed: bool, settle: Settle, errors: nat)

  /** `onErr`: an accounting failure is denied when failing closed, and allowed otherwise. */
  function OnError(failClosed: bool): Decision {
    Decision(!failClosed, NoSettle, 1)
  }

  ghost function Check(failClosed: bool, q: UserQuota, node: string, delta: Delta, used: Option<Usage>): Decision {
    if !delta.Positive() then Decision(true, NoSettle, 0)
    else if used.None? then OnError(failClosed)
    else Decision(Fits(q, node, used.value, delta), NoSettle, 0)
  }

  /** The settle that `finalizeCreate` and `finalizeGuestMod` attach. */
  function SettleOf(w: Write, q: UserQuota, r: Reads): Settle {
    match w
    case Create(node, kind, p) => AwaitMember(q.pool, Atoi(Field(p, "vmid")))
    case Clone(node, kind, source, p) => AwaitMember(q.pool, Atoi(Field(p, "newid")))
    case Alloc(_, _, _) => NoSettle
    case _ => if r.config.Some? then AwaitChange(w.node, w.kind, w.vmid, r.config.value) else NoSettle
  }

  ghost function Decide(failClosed: bool, w: Write, q: UserQuota, r: Reads): Decision {
    match DeltaOf(w, r)
    case None => OnError(failClosed)
    case Some(delta) =>
      var dec := Check(failClosed, q, w.node, delta, r.used);
      if dec.allowed && delta.Positive() then dec.(settle := SettleOf(w, q, r)) else dec
  }

  /** Failing closed, a write is allowed exactly when its delta could be computed and raises nothing,
      or the pool's usage could be computed and the delta fits. One decision records at most one
      accounting error, and a recorded error is a denial. */
  lemma DecideClosed(w: Write, q: UserQuota, r: Reads)
    ensures var dec := Decide(true, w, q, r);
            && (dec.allowed <==>
                  && DeltaOf(w, r).Some?
                  && ((forall d :: DeltaOf(w, r).value.At(d) <= 0) ||
                      (r.used.Some? && Fits(q, w.node, r.used.value, DeltaOf(w, r).value))))
            && dec.errors <= 1 && (dec.errors == 1 ==> !dec.allowed)
  {
    if DeltaOf(w, r).Some? {
      var delta := DeltaOf(w, r).value;
      delta.PositiveSomewhere();
      forall d | !delta.Positive() ensures delta.At(d) <= 0 {}
    }
  }

  /** Failing closed, an allowed write on a guest is waited for exactly if its delta raises
      something: a new guest by its joining the user's pool, a changed one by its config. */
  lemma DecisionSettles(w: Write, q: UserQuota, r: Reads)
    requires Decide(true, w, q, r).allowed && !w.Alloc?
    ensures DeltaOf(w, r).Some?
    ensures Decide(true, w, q, r).settle.NoSettle? <==> forall d :: DeltaOf(w, r).value.At(d) <= 0
    ensures var settle := Decide(true, w, q, r).settle;
            !settle.NoSettle? ==>
              if MakesGuest(w) then
                settle == AwaitMember(q.pool, Atoi(Field(w.params, if w.Create? then "vmid" else "newid")))
              else r.config.Some? && settle == AwaitChange(w.node, w.kind, w.vmid, r.config.value)
  {
    DecideClosed(w, q, r);
    var delta := DeltaOf(w, r).value;
    delta.PositiveSomewhere();
    if forall d :: delta.At(d) <= 0 { assert !delta.Positive(); }
  }

  /** Failing open, a write whose accounting cannot be read is allowed however large it is. */
  lemma DecideOpen(w: Write, q: UserQuota, r: Reads)
    ensures var open, closed := Decide(false, w, q, r), Decide(true, w, q, r);
            && open.errors == closed.errors
            && (open.errors == 1 ==> open.allowed)
            && (open.allowed && !closed.allowed <==> open.errors == 1)
  {}

  // ---------------------------------------------------------------- observing a change

  function SameConfig(a: Config, b: Config): bool {
    |a| == |b| && forall k <- a :: Field(b, k) == a[k]
  }

  lemma SubsetSameSize<T>(a: set<T>, b: set<T>)
    requires a <= b && |a| == |b|
    ensures a == b
  {
    assert b == a + (b - a);
    assert |b - a| == 0;
  }

  lemma {:induction false} FreshKey(keys: set<string>, length: nat) returns (k: string)
    ensures k !in keys && |k| >= length
    decreases |keys|
  {
    k := seq(length, _ => 'x');
    if k in keys {
      var rest := set x | x in keys && |x| > length;
      assert k !in rest && rest <= keys;
      assert keys == rest + (keys - rest) && k in keys - rest;
      k := FreshKey(rest, length + 1);
    }
  }

  /** Comparing a config with whatever is read later detects every change, and reports none that is
      not there, exactly when no entry of the config is empty: a missing key reads as empty. */
  lemma SameConfigExact(a: Config)
    ensures (forall b :: SameConfig(a, b) <==> a == b) <==> (forall k <- a :: a[k] != "")
  {
    if k :| k in a && a[k] == "" {
      var j := FreshKey(a.Keys, 0);
      var b := (a - {k})[j := "x"];
      assert b.Keys == a.Keys - {k} + {j};
      assert |b| == |b.Keys| == |a.Keys| == |a|;
      forall i | i in a ensures Field(b, i) == a[i] {}
      assert SameConfig(a, b) && a != b;
    } else {
      forall b ensures SameConfig(a, b) <==> a == b {
        if SameConfig(a, b) {
          assert forall k <- a :: Field(b, k) == a[k] && k in b;
          assert a.Keys <= b.Keys && |a.Keys| == |a| == |b| == |b.Keys|;
          SubsetSameSize(a.Keys, b.Keys);
        }
      }
    }
  }


  // ---------------------------------------------------------------- the settle loops

  const POLL_MS := 250

  /** Loop check number `i` happens at `clock(i)`; each sleep lasts at least one poll interval. */
  ghost predicate Ticking(clock: nat -> int) {
    forall i: nat :: clock(i + 1) >= clock(i) + POLL_MS
  }

  /** The loop of `waitMember` and `waitConfigChanged`: it stops at the first poll that sees the
      change, or at the deadline, after at most ceil(timeout / 250 ms) polls. */
  method PollUntil(hit: nat -> bool, clock: nat -> int, timeout: nat) returns (seen: bool, polls: nat)
    requires Ticking(clock)
    ensures polls <= (timeout + POLL_MS - 1) / POLL_MS
    ensures seen ==> polls > 0 && hit(polls - 1) && forall i: nat :: i < polls - 1 ==> !hit(i)
    ensures !seen ==> clock(polls) >= clock(0) + timeout && forall i: nat :: i < polls ==> !hit(i)
  {
    var deadline := clock(0) + timeout;
    polls := 0;
    while clock(polls) < deadline
      invariant clock(polls) >= clock(0) + polls * POLL_MS
      invariant polls <= (timeout + POLL_MS - 1) / POLL_MS
      invariant forall i: nat :: i < polls ==> !hit(i)
      decreases deadline - clock(polls)
    {
      assert polls * POLL_MS < timeout;
      polls := polls + 1;
      if hit(polls - 1) { return true, polls; }
      assert clock(polls - 1 + 1) >= clock(polls - 1) + POLL_MS;
    }
    return false, polls;
  }

  /** `waitMember`: only a poll that lists the guest ends it early; a zero id is never waited for. */
  method WaitMember(members: nat -> Option<set<int>>, clock: nat -> int, timeout: nat, vmid: int)
    returns (seen: bool, polls: nat)
    requires Ticking(clock)
    ensures polls <= (timeout + POLL_MS - 1) / POLL_MS
    ensures vmid == 0 ==> !seen && polls == 0
    ensures seen ==> polls > 0 && members(polls - 1).Some? && vmid in members(polls - 1).value
    ensures vmid != 0 ==> forall i: nat :: i < (if seen then polls - 1 else polls) ==>
              members(i).Some? ==> vmid !in members(i).value
    ensures !seen && vmid != 0 ==> clock(polls) >= clock(0) + timeout
  {
    if vmid == 0 { return false, 0; }
    var hit := (i: nat) => members(i).Some? && vmid in members(i).value;
    seen, polls := PollUntil(hit, clock, timeout);
    forall i: nat | i < (if seen then polls - 1 else polls) && members(i).Some? ensures vmid !in members(i).value {
      assert !hit(i);
    }
  }

  /** `waitConfigChanged`: only a poll that reads a different config ends it early. */
  method WaitConfigChanged(configs: nat -> Option<Config>, clock: nat -> int, timeout: nat, vmid: int, pre: Config)
    returns (seen: bool, polls: nat)
    requires Ticking(clock)
    ensures polls <= (timeout + POLL_MS - 1) / POLL_MS
    ensures vmid == 0 ==> !seen && polls == 0
    ensures seen ==> polls > 0 && configs(polls - 1).Some? && !SameConfig(pre, configs(polls - 1).value)
    ensures seen ==> configs(polls - 1).value != pre
    ensures vmid != 0 ==> forall i: nat :: i < (if seen then polls - 1 else polls) ==>
              configs(i).Some? ==> SameConfig(pre, configs(i).value)
    ensures !seen && vmid != 0 ==> clock(polls) >= clock(0) + timeout
  {
    if vmid == 0 { return false, 0; }
    var hit := (i: nat) => configs(i).Some? && !SameConfig(pre, configs(i).value);
    seen, polls := PollUntil(hit, clock, timeout);
    forall i: nat | i < (if seen then polls - 1 else polls) && configs(i).Some?
      ensures SameConfig(pre, configs(i).value)
    {
      assert !hit(i);
    }
  }

  // ---------------------------------------------------------------- the lock registry

  class Mutex {
    constructor () {}
  }

  /** `locks`: one mutex per user id, made on first use. */
  class Locks {
    var m: map<string, Mutex>

    /** Different users have different mutexes. */
    ghost predicate Valid()
      reads this
    {
      forall a <- m, b <- m :: m[a] == m[b] ==> a == b
    }

    constructor ()
      ensures Valid() && m == map[]
    {
      m := map[];
    }

    /** `get`: the user's mutex, the same one at every call, and nobody else's. */
    method Get(user: string) returns (mutex: Mutex)
      requires Valid()
      modifies this
      ensures Valid()
      ensures user in m && mutex == m[user]
      ensures m == old(m)[user := mutex]
      ensures user in old(m) ==> mutex == old(m)[user]
      ensures user !in old(m) ==> fresh(mutex)
    {
      if user !in m {
        var made := new Mutex();
        m := m[user := made];
      }
      mutex := m[user];
    }
  }
}
