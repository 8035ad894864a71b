/** Requests from the outside: what the handler does with a call on the printed path of an endpoint,
    in terms of what the endpoint, the record and the answers say. */
module EndToEnd {
  import opened Wrappers
  import opened GoStrings
  import opened MapSums
  import opened Accounting
  import opened Deltas
  import opened Landing
  import opened Quota
  import opened Admission
  import opened Classify
  import opened Mediation
  import opened DiskSpecs
  import opened Machines
  import opened Charges

  /** The call asks for the endpoint, by its printed path under either prefix. */
  predicate CalledOn(call: Call, root: string, e: Endpoint) {
    (root == JSON || root == EXTJS) && WellNamed(e) && call.verb == VerbOf(e) && call.path == PathOf(root, e)
  }

  predicate Enforcing(mode: Mode, user: string) {
    mode.enforce && mode.wired && user !in mode.admins
  }

  lemma RouteOn(call: Call, root: string, e: Endpoint)
    requires CalledOn(call, root, e)
    ensures RouteFor(call) == Meaning(e)
  {
    ClassifyPath(root, e);
  }

  // ---------------------------------------------------------------- what an endpoint asks for

  /** The endpoints whose calls need a decision. */
  predicate Decidable(e: Endpoint) {
    !e.UploadTo? && !e.PoolsOf?
  }

  predicate HasId(e: Endpoint) {
    e.ConfigOf? || e.ResizeOf? || e.CloneOf? || e.MoveOf? || e.RollbackTo?
  }

  /** The id in the path, if there is one, is this number printed. */
  predicate Numbered(e: Endpoint, vmid: nat) {
    vmid <= MAX_INT64 && (HasId(e) ==> e.vmid == PrintNat(vmid))
  }

  /** The id in the path, if there is one, is read as this number; what is no number is read as zero. */
  predicate Names(e: Endpoint, vmid: int) {
    HasId(e) ==> vmid == Atoi(e.vmid)
  }

  /** The write that a call on the endpoint means. */
  function WriteOn(e: Endpoint, vmid: int, p: Config): Write
    requires Decidable(e)
  {
    match e
    case CreateOn(node, kind) => Write.Create(node, kind, p)
    case ConfigOf(node, kind, _, _) => Write.Edit(node, kind, vmid, p)
    case ResizeOf(node, kind, _) => Write.Resize(node, kind, vmid, p)
    case CloneOf(node, kind, _) => Write.Clone(node, kind, vmid, p)
    case MoveOf(node, kind, _, _) => Write.Move(node, kind, vmid, p)
    case RollbackTo(node, kind, _, snapshot) => Write.Rollback(node, kind, vmid, snapshot)
    case AllocOn(node, storage) => Write.Alloc(node, storage, p)
  }

  /** Parameters that turn a creation into a restore. */
  predicate Restores(p: Config) {
    "archive" in p || ("restore" in p && (p["restore"] == "1" || SameButCase(p["restore"], "true")))
  }

  lemma LowerIs(s: string, lower: string)
    requires forall c <- lower :: 'a' <= c <= 'z'
    ensures ToLower(s) == lower <==> SameButCase(s, lower)
  {
    if SameButCase(s, lower) {
      forall i | 0 <= i < |s| ensures ToLower(s)[i] == lower[i] { assert lower[i] in lower; }
    } else if ToLower(s) == lower {
      forall i | 0 <= i < |s| ensures SameLetter(s[i], lower[i]) { assert ToLower(s)[i] == lower[i]; }
    }
  }

  lemma OneIs(s: string)
    ensures ToLower(s) == "1" <==> s == "1"
  {
    if ToLower(s) == "1" { assert ToLower(s)[0] == '1'; }
    if s == "1" { assert ToLower(s)[0] == '1'; }
  }

  lemma RestoresExactly(p: Config)
    ensures IsRestore(p) <==> Restores(p)
  {
    OneIs(Field(p, "restore"));
    LowerIs(Field(p, "restore"), "true");
  }

  /** The increase that the endpoint is charged, when the reads that it takes were answered. */
  ghost function DeltaOn(e: Endpoint, p: Config, r: Reads): Option<Delta>
    requires Decidable(e)
  {
    match e
    case CreateOn(_, kind) =>
      if !Restores(p) then Some(CreateDelta(kind, p))
      else (match r.archive case Some(archived) => Some(RestoreDelta(kind, archived)) case None => None)
    case ConfigOf(_, kind, _, _) =>
      (match r.config case Some(cur) => Some(ConfigDelta(kind, p, cur)) case None => None)
    case ResizeOf(_, _, _) => (match r.config case Some(cur) => Some(ResizeDelta(p, cur)) case None => None)
    case CloneOf(_, _, _) => (match r.source case Some(src) => Some(CloneDelta(src, p)) case None => None)
    case MoveOf(_, _, _, _) => (match r.config case Some(cur) => Some(MoveDelta(p, cur)) case None => None)
    case RollbackTo(_, kind, _, _) =>
      if r.config.Some? && r.snapshot.Some? then Some(RollbackDelta(kind, r.snapshot.value, r.config.value)) else None
    case AllocOn(_, storage) => Some(StorageAllocDelta(storage, p))
  }

  /** What is waited for once a raising write was accepted: a new guest in the user's pool, or a changed
      config; nothing for a raw volume. */
  function SettleOn(e: Endpoint, vmid: int, p: Config, pool: string, r: Reads): Settle
    requires Decidable(e)
  {
    match e
    case CreateOn(_, _) => AwaitMember(pool, Atoi(Field(p, "vmid")))
    case CloneOf(_, _, _) => AwaitMember(pool, Atoi(Field(p, "newid")))
    case AllocOn(_, _) => NoSettle
    case ConfigOf(node, kind, _, _) => ChangeOf(node, kind, vmid, r.config)
    case ResizeOf(node, kind, _) => ChangeOf(node, kind, vmid, r.config)
    case MoveOf(node, kind, _, _) => ChangeOf(node, kind, vmid, r.config)
    case RollbackTo(node, kind, _, _) => ChangeOf(node, kind, vmid, r.config)
  }

  function ChangeOf(node: string, kind: string, vmid: int, cur: Option<Config>): Settle {
    match cur case Some(cfg) => AwaitChange(node, kind, vmid, cfg) case None => NoSettle
  }

  /** A charge passes if it raises nothing, or the record allows it on the usage read; where something
      could not be read, if the proxy fails open. */
  ghost predicate Passes(failClosed: bool, q: UserQuota, node: string, delta: Option<Delta>, used: Option<Usage>) {
    match delta
    case None => !failClosed
    case Some(more) =>
      || (forall d :: more.At(d) <= 0)
      || (if used.Some? then RecordAllows(q, node, used.value, more) else !failClosed)
  }

  lemma WriteMeans(r: Route, e: Endpoint, vmid: int, p: Config)
    requires r == Meaning(e) && Names(e, vmid) && Decidable(e)
    ensures Enforceable(r.action) && !r.action.PoolMembership? && r.quotaRelevant
    ensures WriteFor(r, p) == WriteOn(e, vmid, p)
  {}

  lemma EditMeans(e: Endpoint, vmid: int, p: Config, r: Reads)
    requires e.ConfigOf? || e.ResizeOf? || e.MoveOf?
    ensures DeltaOf(WriteOn(e, vmid, p), r) == DeltaOn(e, p, r)
  {
    if r.config.Some? {
      match e
      case ConfigOf(_, _, _, _) =>
      case ResizeOf(_, _, _) =>
      case MoveOf(_, _, _, _) =>
    }
  }

  lemma CloneMeans(e: Endpoint, vmid: int, p: Config, r: Reads)
    requires e.CloneOf?
    ensures DeltaOf(WriteOn(e, vmid, p), r) == DeltaOn(e, p, r)
  {}

  lemma RollbackMeans(e: Endpoint, vmid: int, p: Config, r: Reads)
    requires e.RollbackTo?
    ensures DeltaOf(WriteOn(e, vmid, p), r) == DeltaOn(e, p, r)
  {
    assert WriteOn(e, vmid, p) == Write.Rollback(e.node, e.kind, vmid, e.snapshot);
  }

  lemma CreateMeans(e: Endpoint, vmid: int, p: Config, r: Reads)
    requires e.CreateOn? || e.AllocOn?
    ensures DeltaOf(WriteOn(e, vmid, p), r) == DeltaOn(e, p, r)
  {
    if e.CreateOn? { RestoresExactly(p); }
  }

  lemma DeltaMeans(e: Endpoint, vmid: int, p: Config, r: Reads)
    requires Decidable(e)
    ensures DeltaOf(WriteOn(e, vmid, p), r) == DeltaOn(e, p, r)
  {
    if e.CreateOn? || e.AllocOn? {
      CreateMeans(e, vmid, p, r);
    } else if e.CloneOf? {
      CloneMeans(e, vmid, p, r);
    } else if e.RollbackTo? {
      RollbackMeans(e, vmid, p, r);
    } else {
      EditMeans(e, vmid, p, r);
    }
  }

  /** The verdict of `decide`, and the settle it attaches, in those terms. */
  lemma DecideMeans(failClosed: bool, e: Endpoint, vmid: int, p: Config, q: UserQuota, r: Reads)
    requires Decidable(e)
    ensures var dec, delta := Decide(failClosed, WriteOn(e, vmid, p), q, r), DeltaOn(e, p, r);
            && (dec.allowed <==> Passes(failClosed, q, e.node, delta, r.used))
            && (dec.allowed && delta.Some? && delta.value.Positive() ==> dec.settle == SettleOn(e, vmid, p, q.pool, r))
            && (delta.None? || !delta.value.Positive() ==> dec.settle == NoSettle)
  {
    DeltaMeans(e, vmid, p, r);
    var delta := DeltaOn(e, p, r);
    if delta.Some? {
      delta.value.PositiveSomewhere();
      if r.used.Some? { RecordDecides(q, e.node, r.used.value, delta.value); }
    }
  }

  // ---------------------------------------------------------------- what the handler does

  /** The answer that a verdict leads to: forwarded and, when accepted, waited for, or denied. */
  predicate AnsweredBy(ops: seq<Op>, allowed: bool, status: int, settle: Settle) {
    && (Forward(Admitted) in ops <==> allowed) && (Reject in ops <==> !allowed)
    && Forward(NotMediated) !in ops && Forward(Bypassed) !in ops
    && (forall op <- ops :: op.Await? ==> op == Await(settle))
    && (Await(settle) in ops <==> allowed && status < 300 && !settle.NoSettle?)
  }

  /** What a call does that was decided on `w`. */
  predicate Follows(t: seq<Op>, w: Write, allowed: bool, status: int, settle: Settle) {
    && Judge(w) in t && (forall op <- t :: op.Judge? ==> op == Judge(w))
    && AnsweredBy(t, allowed, status, settle)
  }

  lemma ConcludingAnswers(failClosed: bool, dec: Decision, status: int)
    ensures AnsweredBy(Concluding(failClosed, dec, status), dec.allowed, status, dec.settle)
  {
    var errors, body := ErrorOps(failClosed, dec), Concluding(failClosed, dec, status);
    if dec.allowed {
      assert body[|errors| + 1] == Forward(Admitted);
      if status < 300 && !dec.settle.NoSettle? { assert body[|errors| + 2] == Await(dec.settle); }
    } else {
      assert body[|errors| + 1] == Reject;
    }
  }

  lemma DecidedHas(t: seq<Op>, user: string, body: seq<Op>, op: Op)
    requires DecidedShape(t, user, body) && !op.CountAudited? && LockFree(op)
    ensures op in t <==> op in body || op == t[4]
  {
    if op in body {
      var i :| 0 <= i < |body| && body[i] == op;
      assert t[i + 5] == op;
    }
    if op in t && op != t[4] {
      var i :| 0 <= i < |t| && t[i] == op;
      assert body[i - 5] == op;
    }
  }

  lemma ShapeFollows(t: seq<Op>, user: string, body: seq<Op>, w: Write, allowed: bool, status: int, settle: Settle)
    requires DecidedShape(t, user, body) && BodyShape(body) && t[4] == Judge(w)
    requires AnsweredBy(body, allowed, status, settle)
    ensures Follows(t, w, allowed, status, settle)
  {
    DecidedHas(t, user, body, Forward(Admitted));
    DecidedHas(t, user, body, Forward(NotMediated));
    DecidedHas(t, user, body, Forward(Bypassed));
    DecidedHas(t, user, body, Reject);
    DecidedHas(t, user, body, Await(settle));
    forall op | op in t && op.Await? ensures op == Await(settle) { DecidedHas(t, user, body, op); }
    forall op | op in t && op.Judge? ensures op == Judge(w) { DecidedHas(t, user, body, op); }
  }

  lemma LockedFollows(failClosed: bool, user: string, w: Write, dec: Decision, status: int)
    ensures Follows([CountAudited] + LockedOps(failClosed, user, w, dec, status), w, dec.allowed, status, dec.settle)
  {
    var t, body := [CountAudited] + LockedOps(failClosed, user, w, dec, status), Concluding(failClosed, dec, status);
    LockedShape(failClosed, user, w, dec, status);
    ConcludingShape(failClosed, dec, status);
    ConcludingAnswers(failClosed, dec, status);
    assert t[4] == Judge(w);
    ShapeFollows(t, user, body, w, dec.allowed, status, dec.settle);
  }

  lemma MeantTrace(mode: Mode, call: Call, e: Endpoint, vmid: int)
    requires RouteFor(call) == Meaning(e) && Names(e, vmid) && Decidable(e)
    requires Enforcing(mode, call.user) && call.record.Some?
    ensures var w := WriteOn(e, vmid, call.params);
            Trace(mode, call) ==
            [CountAudited] + LockedOps(mode.failClosed, call.user, w,
                                       Decide(mode.failClosed, w, call.record.value, call.answers), call.status)
  {
    WriteMeans(RouteFor(call), e, vmid, call.params);
    assert EarlyTrace(mode, call).None?;
  }

  lemma SameFollows(t: seq<Op>, w: Write, allowed: bool, status: int, settle: Settle, settle': Settle)
    requires Follows(t, w, allowed, status, settle) && (allowed ==> settle == settle')
    ensures Follows(t, w, allowed, status, settle')
  {}

  /** What a call on the endpoint does: it is decided on the write that the endpoint means, forwarded
      exactly if its own charge passes, denied otherwise, and waited for exactly if it was accepted and
      raises something. */
  ghost predicate DecidedAs(mode: Mode, call: Call, e: Endpoint, vmid: int)
    requires Decidable(e) && call.record.Some?
  {
    var q, p, r := call.record.value, call.params, call.answers;
    var delta := DeltaOn(e, p, r);
    var raises := delta.Some? && exists d :: delta.value.At(d) > 0;
    Follows(Trace(mode, call), WriteOn(e, vmid, p), Passes(mode.failClosed, q, e.node, delta, r.used),
            call.status, if raises then SettleOn(e, vmid, p, q.pool, r) else NoSettle)
  }

  lemma MeantDecided(mode: Mode, call: Call, e: Endpoint, vmid: int)
    requires RouteFor(call) == Meaning(e) && Names(e, vmid) && Decidable(e)
    requires Enforcing(mode, call.user) && call.record.Some?
    ensures DecidedAs(mode, call, e, vmid)
  {
    var q, p, r := call.record.value, call.params, call.answers;
    var w, delta := WriteOn(e, vmid, p), DeltaOn(e, p, r);
    var dec := Decide(mode.failClosed, w, q, r);
    MeantTrace(mode, call, e, vmid);
    LockedFollows(mode.failClosed, call.user, w, dec, call.status);
    DecideMeans(mode.failClosed, e, vmid, p, q, r);
    var raises := delta.Some? && exists d :: delta.value.At(d) > 0;
    if delta.Some? { delta.value.PositiveSomewhere(); }
    SameFollows(Trace(mode, call), w, dec.allowed, call.status, dec.settle,
                if raises then SettleOn(e, vmid, p, q.pool, r) else NoSettle);
  }

  /** So it is for every call on an endpoint's printed path, with a printed id. */
  lemma DecidedOn(mode: Mode, call: Call, root: string, e: Endpoint, vmid: nat)
    requires CalledOn(call, root, e) && Numbered(e, vmid) && Decidable(e)
    requires Enforcing(mode, call.user) && call.record.Some?
    ensures DecidedAs(mode, call, e, vmid)
  {
    RouteOn(call, root, e);
    ParsePrint(vmid);
    MeantDecided(mode, call, e, vmid);
  }

  /** And for any other call that needs a decision: its path begins with an endpoint's segments, and it is
      decided as a call on that endpoint. */
  lemma DecidedAnywhere(mode: Mode, call: Call) returns (e: Endpoint, vmid: int)
    requires RouteFor(call).quotaRelevant
    ensures VerbOf(e) == ToUpper(call.verb) && RouteFor(call) == Meaning(e) && Names(e, vmid)
    ensures e.PoolsOf? || SegsOf(e) <= SplitSegs(SplitEnvelope(call.path).1)
    ensures Decidable(e) && Enforcing(mode, call.user) && call.record.Some? ==> DecidedAs(mode, call, e, vmid)
  {
    var m, segs := ToUpper(call.verb), SplitSegs(SplitEnvelope(call.path).1);
    OnlyEndpoints(m, segs);
    e := EndpointOf(m, segs, RouteFor(call));
    vmid := if HasId(e) then Atoi(e.vmid) else 0;
    if Decidable(e) && Enforcing(mode, call.user) && call.record.Some? { MeantDecided(mode, call, e, vmid); }
  }

  /** The other calls on printed endpoints: everyone's pass while nothing is enforced on the user; else
      pools are nobody's to change, uploads pass, and without a record nothing does. */
  lemma UndecidedOn(mode: Mode, call: Call, root: string, e: Endpoint)
    requires CalledOn(call, root, e)
    requires !Decidable(e) || !Enforcing(mode, call.user) || call.record.None?
    ensures Trace(mode, call) ==
            if e.UploadTo? || !Enforcing(mode, call.user) then [CountAudited, Forward(Bypassed)]
            else [CountAudited, CountDenied, Reject]
  {
    RouteOn(call, root, e);
  }

  /** A read, or a harmless write on its printed path, is forwarded and nothing else happens. */
  lemma PassedOn(mode: Mode, call: Call, root: string, h: Harmless)
    requires || (SameButCase(call.verb, "GET") || SameButCase(call.verb, "HEAD") || SameButCase(call.verb, "OPTIONS"))
             || (&& (root == JSON || root == EXTJS) && call.path == "/" + root + "/" + Join(HarmlessSegs(h), '/')
                 && LetThrough(ToUpper(call.verb), h) && forall p <- HarmlessSegs(h) :: Name(p))
    ensures Trace(mode, call) == [Forward(NotMediated)]
  {
    ReadsExactly(call.verb, call.path);
    if !RouteFor(call).action.Read? { HarmlessPath(root, call.verb, h); }
    RelevantActions(ToUpper(call.verb), SplitSegs(SplitEnvelope(call.path).1));
  }

  /** A write that is neither intercepted nor let through is audited, and denied exactly by an enforcing
      proxy with default deny, to users who are no admins. */
  lemma UnknownOn(mode: Mode, call: Call)
    requires RouteFor(call).action.UnknownWrite?
    ensures Trace(mode, call) ==
            if mode.enforce && mode.defaultDeny && call.user !in mode.admins then [CountAudited, CountDenied, Reject]
            else [CountAudited, Forward(Bypassed)]
  {}

  // ---------------------------------------------------------------- two requests in full

  /** What the record allows, dimension by dimension. */
  lemma AllowsEach(q: UserQuota, node: string, used: Usage, delta: Delta)
    ensures RecordAllows(q, node, used, delta) <==>
            var o := OverrideAt(q, node);
            && Room(used.cores, delta.At(Cores), o.cores, q.cores)
            && Room(used.memoryMiB, delta.At(Memory), o.memoryMiB, q.memoryMiB)
            && Room(used.instances, delta.At(Instances), o.instances, q.instances)
            && forall st :: RoomOn(Get(used.diskBytes, st), delta.At(Disk(st)), o.diskGiB, q.diskGiB, st)
  {
    var o := OverrideAt(q, node);
    forall st ensures st !in delta.diskBytes ==>
                        RoomOn(Get(used.diskBytes, st), delta.At(Disk(st)), o.diskGiB, q.diskGiB, st) {}
    forall st | st in delta.diskBytes ensures delta.At(Disk(st)) == delta.diskBytes[st] {}
  }

  /** Where everything could be read, a call is forwarded exactly if its charge raises nothing or the
      record allows it. */
  lemma ForwardedOn(mode: Mode, call: Call, root: string, e: Endpoint, vmid: nat, delta: Delta)
    requires CalledOn(call, root, e) && Numbered(e, vmid) && Decidable(e)
    requires Enforcing(mode, call.user) && call.record.Some? && call.answers.used.Some?
    requires DeltaOn(e, call.params, call.answers) == Some(delta)
    ensures Forwards(Trace(mode, call)) <==>
            (forall d :: delta.At(d) <= 0) || RecordAllows(call.record.value, e.node, call.answers.used.value, delta)
  {
    DecidedOn(mode, call, root, e, vmid);
  }

  /** The record leaves room for the cores and the memory that a request for a new guest states or gets
      by default, for one instance, and per storage for the GiB and the sizes it asks for. */
  ghost predicate RoomForGuest(q: UserQuota, node: string, used: Usage, kind: string, r: Charges.Request) {
    var o := OverrideAt(q, node);
    && Room(used.cores, CoresOf(kind, r.settings), o.cores, q.cores)
    && Room(used.memoryMiB, Or(r.settings.memory, 512), o.memoryMiB, q.memoryMiB)
    && Room(used.instances, 1, o.instances, q.instances)
    && forall st :: RoomOn(Get(used.diskBytes, st), Sum(ChargedMap(r.wishes, {}, st)), o.diskGiB, q.diskGiB, st)
  }

  lemma RoomIsAllowed(q: UserQuota, node: string, used: Usage, kind: string, r: Charges.Request)
    requires Spoken(r)
    ensures RecordAllows(q, node, used, CreateDelta(kind, Params(r))) <==> RoomForGuest(q, node, used, kind, r)
  {
    var delta := CreateDelta(kind, Params(r));
    AllowsEach(q, node, used, delta);
    CreateCharges(kind, r, Cores);
    CreateCharges(kind, r, Memory);
    forall st ensures delta.At(Disk(st)) == Sum(ChargedMap(r.wishes, {}, st)) { CreateCharges(kind, r, Disk(st)); }
  }

  /** A user's request for a new guest is forwarded exactly if the record leaves room for it. */
  lemma CreatesWithin(mode: Mode, call: Call, root: string, node: string, kind: string, r: Charges.Request)
    requires CalledOn(call, root, CreateOn(node, kind)) && Spoken(r) && call.params == Params(r) && !Restores(Params(r))
    requires Enforcing(mode, call.user) && call.record.Some? && call.answers.used.Some?
    ensures Forwards(Trace(mode, call)) <==>
            RoomForGuest(call.record.value, node, call.answers.used.value, kind, r)
  {
    var delta := CreateDelta(kind, Params(r));
    ForwardedOn(mode, call, root, CreateOn(node, kind), 0, delta);
    RoomIsAllowed(call.record.value, node, call.answers.used.value, kind, r);
    assert delta.At(Instances) == 1;
  }

  lemma RoomToGrow(q: UserQuota, node: string, used: Usage, delta: Delta, st: string, bytes: nat)
    requires forall d :: delta.At(d) == if d == Disk(st) then bytes else 0
    ensures (forall d :: delta.At(d) <= 0) || RecordAllows(q, node, used, delta) <==>
            RoomOn(Get(used.diskBytes, st), bytes, OverrideAt(q, node).diskGiB, q.diskGiB, st)
  {
    AllowsEach(q, node, used, delta);
    assert delta.At(Disk(st)) == bytes && delta.At(Cores) == delta.At(Memory) == delta.At(Instances) == 0;
  }

  /** A request to grow a drive by a size is forwarded exactly if the size is zero or the record leaves
      room for it on the drive's storage. */
  lemma GrowsWithin(mode: Mode, call: Call, root: string, e: Endpoint, vmid: nat, m: Machine, k: string, s: Size)
    requires CalledOn(call, root, e) && e.ResizeOf? && Numbered(e, vmid)
    requires Described(m) && k in m.drives && HasVolume(m.drives[k]) && Writable(s)
    requires call.answers.config == Some(ConfigText(m))
    requires "disk" in call.params && "size" in call.params
    requires call.params["disk"] == k && call.params["size"] == SizeText(s, true)
    requires Enforcing(mode, call.user) && call.record.Some? && call.answers.used.Some?
    ensures Forwards(Trace(mode, call)) <==>
            var q, used, st := call.record.value, call.answers.used.value, m.drives[k].storage;
            RoomOn(Get(used.diskBytes, st), BytesOf(s), OverrideAt(q, e.node).diskGiB, q.diskGiB, st)
  {
    var st, delta := m.drives[k].storage, ResizeDelta(call.params, ConfigText(m));
    forall d ensures delta.At(d) == if d == Disk(st) then BytesOf(s) else 0 {
      ResizeCharges(m, k, call.params, s, true, d);
    }
    ForwardedOn(mode, call, root, e, vmid, delta);
    RoomToGrow(call.record.value, e.node, call.answers.used.value, delta, st, BytesOf(s));
  }
}
