/** `Enforcer.Middleware` of internal/admission/admission.go: what becomes of one request, in the
    order in which the handler counts, locks, forwards and waits; and what the counters add up to
    over any number of concurrent requests. */
module Mediation {
  import opened Wrappers
  import opened GoStrings
  import opened MapSums
  import opened Accounting
  import opened Deltas
  import opened Quota
  import opened Admission
  import opened Deciding
  import opened Classify

  /** `wired`: the quota store and the accounting engine are configured. */
  datatype Mode = Mode(enforce: bool, wired: bool, failClosed: bool, defaultDeny: bool, admins: set<string>)

  /** A request with everything the handler finds out about it: the body's parameters, the user's
      quota record, what accounting reads, and the status the upstream would answer. */
  datatype Call = Call(
    user: string, verb: string, path: string, params: Config, record: Option<UserQuota>, answers: Reads, status: int)

  datatype Cause = NotMediated | Bypassed | Admitted

  /** What the handler does, one atomic effect at a time. */
  datatype Op =
    | CountAudited | CountAllowed | CountDenied | CountFailOpen | CountFailShut
    | TakeRegistry | ReleaseRegistry   // the mutex of the lock registry
    | TakeLock(user: string) | ReleaseLock(user: string)
    | Judge(write: Write)              // `decide`
    | Forward(cause: Cause) | Reject
    | Await(settle: Settle)

  predicate Enforceable(a: Action) {
    || a.GuestCreate? || a.GuestConfig? || a.Resize? || a.Clone? || a.MoveDisk? || a.Rollback?
    || a.StorageAlloc? || a.PoolMembership?
  }

  function RouteFor(call: Call): Route {
    Classify.Classify(call.verb, call.path).route
  }

  /** The write that `decide` switches on. */
  function WriteFor(r: Route, p: Config): Write
    requires Enforceable(r.action) && !r.action.PoolMembership?
  {
    match r.action
    case GuestConfig => Write.Edit(r.node, r.guestKind, Atoi(r.vmid), p)
    case Resize => Write.Resize(r.node, r.guestKind, Atoi(r.vmid), p)
    case Clone => Write.Clone(r.node, r.guestKind, Atoi(r.vmid), p)
    case MoveDisk => Write.Move(r.node, r.guestKind, Atoi(r.vmid), p)
    case Rollback => Write.Rollback(r.node, r.guestKind, Atoi(r.vmid), r.snapshot)
    case StorageAlloc => Write.Alloc(r.node, r.storage, p)
    case _ => Write.Create(r.node, r.guestKind, p)
  }

  predicate Bypasses(mode: Mode, user: string, a: Action) {
    !mode.enforce || !mode.wired || user in mode.admins || !Enforceable(a)
  }

  function ErrorOps(failClosed: bool, dec: Decision): seq<Op> {
    if dec.errors == 0 then [] else if failClosed then [CountFailShut] else [CountFailOpen]
  }

  /** From the lock registry on. */
  function LockedOps(failClosed: bool, user: string, w: Write, dec: Decision, status: int): seq<Op> {
    [TakeRegistry, ReleaseRegistry, TakeLock(user), Judge(w)]
    + Concluding(failClosed, dec, status) + [ReleaseLock(user)]
  }

  function Concluding(failClosed: bool, dec: Decision, status: int): seq<Op> {
    ErrorOps(failClosed, dec) +
    if !dec.allowed then [CountDenied, Reject]
    else [CountAllowed, Forward(Admitted)] + if status >= 300 || dec.settle.NoSettle? then [] else [Await(dec.settle)]
  }

  /** What the handler does for a request that needs no decision. */
  function EarlyTrace(mode: Mode, call: Call): Option<seq<Op>> {
    var r := RouteFor(call);
    if r.action.UnknownWrite? then
      Some(if mode.enforce && mode.defaultDeny && call.user !in mode.admins then [CountAudited, CountDenied, Reject]
           else [CountAudited, Forward(Bypassed)])
    else if !r.quotaRelevant then Some([Forward(NotMediated)])
    else if Bypasses(mode, call.user, r.action) then Some([CountAudited, Forward(Bypassed)])
    else if r.action.PoolMembership? || call.record.None? then Some([CountAudited, CountDenied, Reject])
    else None
  }

  /** The write that is decided, of a request that needs a decision. */
  function WriteOf(mode: Mode, call: Call): Write
    requires EarlyTrace(mode, call).None?
  {
    WriteFor(RouteFor(call), call.params)
  }

  ghost function DecisionFor(mode: Mode, call: Call): Decision
    requires EarlyTrace(mode, call).None?
  {
    Decide(mode.failClosed, WriteOf(mode, call), call.record.value, call.answers)
  }

  /** What the handler does for it after the audit. */
  ghost function DecidedOps(mode: Mode, call: Call): seq<Op>
    requires EarlyTrace(mode, call).None?
  {
    LockedOps(mode.failClosed, call.user, WriteOf(mode, call), DecisionFor(mode, call), call.status)
  }

  /** Everything the handler does for a request. */
  ghost function Trace(mode: Mode, call: Call): seq<Op> {
    match EarlyTrace(mode, call)
    case Some(t) => t
    case None => [CountAudited] + DecidedOps(mode, call)
  }

  predicate Forwards(t: seq<Op>) {
    Forward(NotMediated) in t || Forward(Bypassed) in t || Forward(Admitted) in t
  }

  // ---------------------------------------------------------------- complete mediation

  lemma LockedForwards(failClosed: bool, user: string, w: Write, dec: Decision, status: int)
    ensures Forwards([CountAudited] + LockedOps(failClosed, user, w, dec, status)) <==> dec.allowed
  {
    var ops := LockedOps(failClosed, user, w, dec, status);
    if dec.allowed {
      var i := 4 + |ErrorOps(failClosed, dec)| + 1;
      assert ops[i] == Forward(Admitted);
      assert Forward(Admitted) in ops;
    }
  }

  lemma DecidedTrace(mode: Mode, call: Call)
    requires EarlyTrace(mode, call).None?
    ensures Trace(mode, call) == [CountAudited] + DecidedOps(mode, call)
    ensures Forwards(Trace(mode, call)) <==> DecisionFor(mode, call).allowed
  {
    LockedForwards(mode.failClosed, call.user, WriteOf(mode, call), DecisionFor(mode, call), call.status);
  }

  lemma LogDecided(mode: Mode, call: Call, before: seq<Op>, early: seq<Op>, after: seq<Op>)
    requires EarlyTrace(mode, call).None? && early == before + [CountAudited]
    requires after == early + DecidedOps(mode, call)
    ensures after == before + Trace(mode, call)
    ensures Forwards(Trace(mode, call)) <==> DecisionFor(mode, call).allowed
  {
    DecidedTrace(mode, call);
    Regrouped(before, [CountAudited], DecidedOps(mode, call));
  }

  lemma Regrouped(a: seq<Op>, b: seq<Op>, c: seq<Op>)
    ensures a + b + c == a + (b + c)
  {}

  lemma LockedGrouped(before: seq<Op>, failClosed: bool, user: string, w: Write, dec: Decision, status: int)
    ensures before + [TakeRegistry, ReleaseRegistry, TakeLock(user)] + [Judge(w)]
            + Concluding(failClosed, dec, status) + [ReleaseLock(user)] ==
            before + LockedOps(failClosed, user, w, dec, status)
  {
    var head, body := [TakeRegistry, ReleaseRegistry, TakeLock(user)] + [Judge(w)], Concluding(failClosed, dec, status);
    assert LockedOps(failClosed, user, w, dec, status) == head + body + [ReleaseLock(user)];
  }

  /** Which requests are forwarded without a decision. */
  lemma EarlyForwards(mode: Mode, call: Call)
    requires EarlyTrace(mode, call).Some?
    ensures var r := RouteFor(call);
            Forwards(EarlyTrace(mode, call).value) <==>
            if r.action.UnknownWrite? then !(mode.enforce && mode.defaultDeny && call.user !in mode.admins)
            else !r.quotaRelevant || Bypasses(mode, call.user, r.action)
  {}

  /** Complete mediation: while enforcing with default deny, a write of a user who is no admin
      reaches the upstream exactly if its path is on the allowlist, or it is a storage upload, or
      the user has a quota record and the decision admitted it. */
  lemma CompleteMediation(mode: Mode, call: Call)
    requires mode.enforce && mode.wired && mode.defaultDeny && call.user !in mode.admins
    requires !IsReadMethod(ToUpper(call.verb))
    ensures var a := RouteFor(call).action;
            Forwards(Trace(mode, call)) <==>
            || a.Passthrough?
            || a.StorageUpload?
            || (&& Enforceable(a) && !a.PoolMembership? && call.record.Some?
                && Decide(mode.failClosed, WriteFor(RouteFor(call), call.params),
                          call.record.value, call.answers).allowed)
  {
    RelevantActions(ToUpper(call.verb), SplitSegs(SplitEnvelope(call.path).1));
    if EarlyTrace(mode, call).Some? { EarlyForwards(mode, call); } else { DecidedTrace(mode, call); }
  }

  /** A route is mediated exactly if its action is enforceable or an upload. */
  lemma RelevantActions(m: string, segs: seq<string>)
    ensures var r := RouteOf(m, segs);
            && (r.quotaRelevant <==> Enforceable(r.action) || r.action.StorageUpload?)
            && (r.action.Passthrough? ==> KnownPassthrough(m, segs))
            && (r.action.Read? <==> IsReadMethod(m))
  {}

  /** Failing closed, what is admitted raises nothing, or fits the user's limits given the usage read. */
  lemma AdmittedFits(mode: Mode, call: Call)
    requires mode.enforce && mode.wired && mode.failClosed && call.user !in mode.admins
    requires Forward(Admitted) in Trace(mode, call)
    ensures var r := RouteFor(call);
            && Enforceable(r.action) && !r.action.PoolMembership? && call.record.Some?
            && var w := WriteFor(r, call.params);
               && DeltaOf(w, call.answers).Some?
               && var delta := DeltaOf(w, call.answers).value;
                  || (forall d :: delta.At(d) <= 0)
                  || (call.answers.used.Some? && Fits(call.record.value, w.node, call.answers.used.value, delta))
  {
    RelevantActions(ToUpper(call.verb), SplitSegs(SplitEnvelope(call.path).1));
    DecidedTrace(mode, call);
    DecideClosed(WriteFor(RouteFor(call), call.params), call.record.value, call.answers);
  }

  // ---------------------------------------------------------------- the handler

  function Times(t: seq<Op>, op: Op): nat {
    if t == [] then 0 else Times(t[..|t| - 1], op) + if t[|t| - 1] == op then 1 else 0
  }

  lemma TimesAppend(t: seq<Op>, last: Op, op: Op)
    ensures Times(t + [last], op) == Times(t, op) + if last == op then 1 else 0
  {
    assert (t + [last])[..|t|] == t;
  }

  lemma {:induction false} TimesConcat(a: seq<Op>, b: seq<Op>, op: Op)
    ensures Times(a + b, op) == Times(a, op) + Times(b, op)
  {
    if b == [] {
      assert a + b == a;
    } else {
      assert (a + b)[..|a + b| - 1] == a + b[..|b| - 1];
      TimesConcat(a, b[..|b| - 1], op);
    }
  }

  datatype Metrics = Metrics(audited: nat, allowed: nat, denied: nat, failOpen: nat, failShut: nat) {
    function Counter(op: Op): nat {
      match op
      case CountAudited => audited
      case CountAllowed => allowed
      case CountDenied => denied
      case CountFailOpen => failOpen
      case CountFailShut => failShut
      case _ => 0
    }
  }

  predicate IsCount(op: Op) {
    op.CountAudited? || op.CountAllowed? || op.CountDenied? || op.CountFailOpen? || op.CountFailShut?
  }

  class Enforcer {
    const mode: Mode
    const locks: Locks
    var m: Metrics
    ghost var log: seq<Op>

    /** The counters say how often each was counted. */
    ghost predicate Valid()
      reads this, locks
    {
      locks.Valid() && forall op | IsCount(op) :: m.Counter(op) == Times(log, op)
    }

    constructor (mode: Mode)
      ensures Valid() && this.mode == mode && log == [] && fresh(locks)
    {
      var registry := new Locks();
      this.mode, locks, m, log := mode, registry, Metrics(0, 0, 0, 0, 0), [];
    }

    /** One atomic effect. */
    method Do(op: Op)
      requires Valid()
      modifies this
      ensures Valid() && log == old(log) + [op]
    {
      m := match op
           case CountAudited => m.(audited := m.audited + 1)
           case CountAllowed => m.(allowed := m.allowed + 1)
           case CountDenied => m.(denied := m.denied + 1)
           case CountFailOpen => m.(failOpen := m.failOpen + 1)
           case CountFailShut => m.(failShut := m.failShut + 1)
           case _ => m;
      forall o | IsCount(o) { TimesAppend(log, op, o); }
      log := log + [op];
    }

    /** `deny` */
    method Deny()
      requires Valid()
      modifies this
      ensures Valid() && log == old(log) + [CountDenied, Reject]
    {
      Do(CountDenied);
      Do(Reject);
    }

    /** `handleUnknown` */
    method HandleUnknown(call: Call) returns (forwarded: bool)
      requires Valid() && RouteFor(call).action.UnknownWrite?
      modifies this
      ensures Valid() && EarlyTrace(mode, call).Some? && log == old(log) + EarlyTrace(mode, call).value
      ensures forwarded <==> !(mode.enforce && mode.defaultDeny && call.user !in mode.admins)
    {
      Do(CountAudited);
      if mode.enforce && mode.defaultDeny && call.user !in mode.admins {
        Deny();
        return false;
      }
      Do(Forward(Bypassed));
      return true;
    }

    /** The critical section after the decision: answer or forward, and wait. */
    method Conclude(dec: Decision, status: int) returns (forwarded: bool)
      requires Valid()
      modifies this
      ensures Valid() && forwarded == dec.allowed
      ensures log == old(log) + Concluding(mode.failClosed, dec, status)
    {
      if dec.errors != 0 {
        Do(if mode.failClosed then CountFailShut else CountFailOpen);
      }
      if !dec.allowed {
        Deny();
        return false;
      }
      Do(CountAllowed);
      Do(Forward(Admitted));
      if status < 300 && !dec.settle.NoSettle? {
        Do(Await(dec.settle));
      }
      return true;
    }

    /** `locks.get` under the registry's own mutex, and then the user's lock. */
    method Acquire(user: string) returns (mutex: Mutex)
      requires Valid()
      modifies this, locks
      ensures Valid() && user in locks.m && mutex == locks.m[user]
      ensures log == old(log) + [TakeRegistry, ReleaseRegistry, TakeLock(user)]
    {
      Do(TakeRegistry);
      mutex := locks.Get(user);
      Do(ReleaseRegistry);
      Do(TakeLock(user));
    }

    /** The handler up to the critical section, which the other requests never reach. */
    method HandleEarly(call: Call) returns (done: bool, forwarded: bool)
      requires Valid()
      modifies this
      ensures Valid() && done == EarlyTrace(mode, call).Some?
      ensures done ==> log == old(log) + EarlyTrace(mode, call).value
      ensures done ==> (forwarded <==> Forwards(EarlyTrace(mode, call).value))
      ensures !done ==> log == old(log) + [CountAudited]
    {
      done := true;
      var r := RouteFor(call);
      if EarlyTrace(mode, call).Some? { EarlyForwards(mode, call); }
      if r.action.UnknownWrite? {
        forwarded := HandleUnknown(call);
        return;
      }
      if !r.quotaRelevant {
        Do(Forward(NotMediated));
        forwarded := true;
        return;
      }
      done, forwarded := HandleAudited(call);
    }

    /** A quota-relevant write, up to the critical section. */
    method HandleAudited(call: Call) returns (done: bool, forwarded: bool)
      requires Valid() && RouteFor(call).quotaRelevant && !RouteFor(call).action.UnknownWrite?
      modifies this
      ensures Valid() && done == EarlyTrace(mode, call).Some?
      ensures done ==> log == old(log) + EarlyTrace(mode, call).value
      ensures done ==> (forwarded <==> Bypasses(mode, call.user, RouteFor(call).action))
      ensures !done ==> log == old(log) + [CountAudited]
    {
      done := true;
      var r := RouteFor(call);
      Do(CountAudited);
      if Bypasses(mode, call.user, r.action) {
        Do(Forward(Bypassed));
        forwarded := true;
        return;
      }
      if r.action.PoolMembership? || call.record.None? {
        Deny();
        forwarded := false;
        return;
      }
      done, forwarded := false, false;
    }

    /** The critical section: decided, answered and settled with the user's lock held. */
    method HandleDecided(call: Call) returns (forwarded: bool)
      requires Valid() && EarlyTrace(mode, call).None?
      modifies this, locks
      ensures Valid() && forwarded == DecisionFor(mode, call).allowed
      ensures log == old(log) + DecidedOps(mode, call)
    {
      var write := WriteFor(RouteFor(call), call.params);
      var mutex := Acquire(call.user);
      Do(Judge(write));
      var dec := RunDecide(mode.failClosed, write, call.record.value, call.answers);
      forwarded := Conclude(dec, call.status);
      Do(ReleaseLock(call.user));
      LockedGrouped(old(log), mode.failClosed, call.user, write, dec, call.status);
    }

    /** The handler that `Middleware` returns. */
    method Handle(call: Call) returns (forwarded: bool)
      requires Valid()
      modifies this, locks
      ensures Valid() && log == old(log) + Trace(mode, call)
      ensures forwarded <==> Forwards(Trace(mode, call))
    {
      var done;
      done, forwarded := HandleEarly(call);
      if !done {
        ghost var early := log;
        forwarded := HandleDecided(call);
        LogDecided(mode, call, old(log), early, log);
      }
    }
  }

  // ---------------------------------------------------------------- what the counters add up to

  function Answers(t: seq<Op>): nat {
    Times(t, Forward(NotMediated)) + Times(t, Forward(Bypassed)) + Times(t, Forward(Admitted)) + Times(t, Reject)
  }

  /** Audited once and then allowed, denied or bypassed once; at most one accounting error, counted
      as open only with an allowance and as shut only with a denial. */
  ghost predicate Balanced(t: seq<Op>) {
    && Times(t, CountAudited) == Times(t, CountAllowed) + Times(t, CountDenied) + Times(t, Forward(Bypassed))
    && Times(t, CountAudited) <= 1
    && Times(t, CountFailOpen) + Times(t, CountFailShut) <= 1
    && Times(t, CountFailOpen) <= Times(t, CountAllowed)
    && Times(t, CountFailShut) <= Times(t, CountDenied)
    && Times(t, CountDenied) == Times(t, Reject)
    && Times(t, CountAllowed) == Times(t, Forward(Admitted))
    && Answers(t) == 1
    && LocksPaired(t)
  }

  /** What is taken is released, and at most once. */
  ghost predicate LocksPaired(t: seq<Op>) {
    && Times(t, TakeRegistry) == Times(t, ReleaseRegistry) <= 1
    && forall user :: Times(t, TakeLock(user)) == Times(t, ReleaseLock(user)) <= Times(t, TakeRegistry)
  }

  lemma ShortTimes(a: Op, b: Op, c: Op, op: Op)
    ensures Times([a], op) == if a == op then 1 else 0
    ensures Times([a, b], op) == Times([a], op) + if b == op then 1 else 0
    ensures Times([a, b, c], op) == Times([a, b], op) + if c == op then 1 else 0
  {
    assert [a][..0] == [] && [a, b][..1] == [a] && [a, b, c][..2] == [a, b];
  }

  lemma DeniedBalanced()
    ensures Balanced([CountAudited, CountDenied, Reject])
  {
    forall op
      ensures Times([CountAudited, CountDenied, Reject], op) ==
              if op == CountAudited || op == CountDenied || op == Reject then 1 else 0
    {
      ShortTimes(CountAudited, CountDenied, Reject, op);
    }
  }

  lemma BypassedBalanced()
    ensures Balanced([CountAudited, Forward(Bypassed)])
  {
    forall op
      ensures Times([CountAudited, Forward(Bypassed)], op) ==
              if op == CountAudited || op == Forward(Bypassed) then 1 else 0
    {
      ShortTimes(CountAudited, Forward(Bypassed), Reject, op);
    }
  }

  lemma PassedBalanced()
    ensures Balanced([Forward(NotMediated)])
  {
    forall op ensures Times([Forward(NotMediated)], op) == if op == Forward(NotMediated) then 1 else 0 {
      ShortTimes(Forward(NotMediated), Reject, Reject, op);
    }
  }

  /** How often each effect happens after the decision. */
  function ConcludingTimes(failClosed: bool, dec: Decision, status: int, op: Op): nat {
    (if dec.errors > 0 && op == (if failClosed then CountFailShut else CountFailOpen) then 1 else 0) +
    if dec.allowed then
      (if op == CountAllowed || op == Forward(Admitted) then 1 else 0) +
      if status < 300 && !dec.settle.NoSettle? && op == Await(dec.settle) then 1 else 0
    else if op == CountDenied || op == Reject then 1 else 0
  }

  lemma ErrorCounts(failClosed: bool, dec: Decision, op: Op)
    ensures Times(ErrorOps(failClosed, dec), op) ==
            if dec.errors > 0 && op == (if failClosed then CountFailShut else CountFailOpen) then 1 else 0
  {
    ShortTimes(if failClosed then CountFailShut else CountFailOpen, Reject, Reject, op);
  }

  lemma SettledCounts(await: seq<Op>, op: Op)
    ensures Times([CountAllowed, Forward(Admitted)] + await, op) ==
            Times(await, op) + if op == CountAllowed || op == Forward(Admitted) then 1 else 0
  {
    ShortTimes(CountAllowed, Forward(Admitted), Reject, op);
    TimesConcat([CountAllowed, Forward(Admitted)], await, op);
  }

  lemma ConcludingCounts(failClosed: bool, dec: Decision, status: int, op: Op)
    ensures Times(Concluding(failClosed, dec, status), op) == ConcludingTimes(failClosed, dec, status, op)
  {
    ErrorCounts(failClosed, dec, op);
    if dec.allowed {
      AllowedCounts(failClosed, dec, status, op);
    } else {
      ShortTimes(CountDenied, Reject, Reject, op);
      TimesConcat(ErrorOps(failClosed, dec), [CountDenied, Reject], op);
    }
  }

  lemma AllowedCounts(failClosed: bool, dec: Decision, status: int, op: Op)
    requires dec.allowed
    ensures Times(Concluding(failClosed, dec, status), op) == ConcludingTimes(failClosed, dec, status, op)
  {
    ErrorCounts(failClosed, dec, op);
    var await := if status >= 300 || dec.settle.NoSettle? then [] else [Await(dec.settle)];
    ShortTimes(Await(dec.settle), Reject, Reject, op);
    SettledCounts(await, op);
    TimesConcat(ErrorOps(failClosed, dec), [CountAllowed, Forward(Admitted)] + await, op);
  }

  lemma LockedCounts(failClosed: bool, user: string, w: Write, dec: Decision, status: int, op: Op)
    ensures Times([CountAudited] + LockedOps(failClosed, user, w, dec, status), op) ==
            ConcludingTimes(failClosed, dec, status, op)
            + if op == CountAudited || op == TakeRegistry || op == ReleaseRegistry || op == Judge(w)
                 || op == TakeLock(user) || op == ReleaseLock(user)
              then 1 else 0
  {
    var body := Concluding(failClosed, dec, status);
    var head := [TakeRegistry, ReleaseRegistry, TakeLock(user)] + [Judge(w)];
    assert LockedOps(failClosed, user, w, dec, status) == head + body + [ReleaseLock(user)];
    TimesConcat([CountAudited], LockedOps(failClosed, user, w, dec, status), op);
    TimesConcat(head + body, [ReleaseLock(user)], op);
    TimesConcat(head, body, op);
    TimesConcat([TakeRegistry, ReleaseRegistry, TakeLock(user)], [Judge(w)], op);
    ConcludingCounts(failClosed, dec, status, op);
    ShortTimes(CountAudited, Reject, Reject, op);
    ShortTimes(TakeRegistry, ReleaseRegistry, TakeLock(user), op);
    ShortTimes(Judge(w), Reject, Reject, op);
    ShortTimes(ReleaseLock(user), Reject, Reject, op);
  }

  lemma LockedBalanced(failClosed: bool, user: string, w: Write, dec: Decision, status: int)
    requires dec.errors <= 1 && (dec.errors == 1 ==> dec.allowed == !failClosed)
    ensures Balanced([CountAudited] + LockedOps(failClosed, user, w, dec, status))
  {
    LockedCounts(failClosed, user, w, dec, status, CountAudited);
    LockedCounts(failClosed, user, w, dec, status, CountAllowed);
    LockedCounts(failClosed, user, w, dec, status, CountDenied);
    LockedCounts(failClosed, user, w, dec, status, CountFailOpen);
    LockedCounts(failClosed, user, w, dec, status, CountFailShut);
    LockedCounts(failClosed, user, w, dec, status, Forward(NotMediated));
    LockedCounts(failClosed, user, w, dec, status, Forward(Bypassed));
    LockedCounts(failClosed, user, w, dec, status, Forward(Admitted));
    LockedCounts(failClosed, user, w, dec, status, Reject);
    LocksBalanced(failClosed, user, w, dec, status);
  }

  lemma LocksBalanced(failClosed: bool, user: string, w: Write, dec: Decision, status: int)
    ensures LocksPaired([CountAudited] + LockedOps(failClosed, user, w, dec, status))
  {
    var t := [CountAudited] + LockedOps(failClosed, user, w, dec, status);
    LockedCounts(failClosed, user, w, dec, status, TakeRegistry);
    LockedCounts(failClosed, user, w, dec, status, ReleaseRegistry);
    forall u ensures Times(t, TakeLock(u)) == Times(t, ReleaseLock(u)) <= Times(t, TakeRegistry) {
      LockedCounts(failClosed, user, w, dec, status, TakeLock(u));
      LockedCounts(failClosed, user, w, dec, status, ReleaseLock(u));
    }
  }

  lemma DecisionErrors(failClosed: bool, w: Write, q: UserQuota, r: Reads)
    ensures var dec := Decide(failClosed, w, q, r);
            dec.errors <= 1 && (dec.errors == 1 ==> dec.allowed == !failClosed)
  {
    DecideOpen(w, q, r);
    DecideClosed(w, q, r);
  }

  /** Every request is balanced: it is answered exactly once, by forwarding or by a denial. */
  lemma TraceBalanced(mode: Mode, call: Call)
    ensures Balanced(Trace(mode, call))
  {
    if EarlyTrace(mode, call).Some? { EarlyBalanced(mode, call); } else { DecidedBalanced(mode, call); }
  }

  lemma EarlyBalanced(mode: Mode, call: Call)
    requires EarlyTrace(mode, call).Some?
    ensures Balanced(Trace(mode, call))
  {
    DeniedBalanced();
    BypassedBalanced();
    PassedBalanced();
  }

  lemma DecidedBalanced(mode: Mode, call: Call)
    requires EarlyTrace(mode, call).None?
    ensures Balanced(Trace(mode, call))
  {
    DecisionErrors(mode.failClosed, WriteOf(mode, call), call.record.value, call.answers);
    LockedBalanced(mode.failClosed, call.user, WriteOf(mode, call), DecisionFor(mode, call), call.status);
  }

  // ---------------------------------------------------------------- the critical section

  /** The user's lock is taken at `j` and released at `k`, and no lock is touched in between. */
  ghost predicate Section(t: seq<Op>, user: string, j: int, k: int) {
    && 0 <= j < k < |t| && t[j] == TakeLock(user) && t[k] == ReleaseLock(user)
    && forall i :: j < i < k ==> LockFree(t[i])
  }

  ghost predicate UnderLock(t: seq<Op>, user: string, i: int) {
    exists j, k :: j < i < k && Section(t, user, j, k)
  }

  /** An effect that is not about locks. */
  predicate LockFree(op: Op) {
    !op.TakeRegistry? && !op.ReleaseRegistry? && !op.TakeLock? && !op.ReleaseLock?
  }

  /** What only a decided request does. */
  predicate OfDecision(op: Op) {
    op.Judge? || op.CountFailOpen? || op.CountFailShut? || op.CountAllowed? || op == Forward(Admitted) || op.Await?
  }

  /** What follows from a verdict. */
  predicate AfterVerdict(op: Op) {
    (OfDecision(op) && !op.Judge?) || op.CountDenied? || op.Reject?
  }

  ghost predicate DecidedUnderLock(t: seq<Op>, user: string) {
    forall i :: 0 <= i < |t| && OfDecision(t[i]) ==> UnderLock(t, user, i)
  }

  ghost predicate AnsweredUnderLock(t: seq<Op>, user: string) {
    forall i, j :: 0 <= i < |t| && 0 <= j < |t| && t[i].Judge? && AfterVerdict(t[j]) ==> i < j && UnderLock(t, user, j)
  }

  predicate ForwardedInOrder(t: seq<Op>) {
    && (forall i, j :: 0 <= i < |t| && 0 <= j < |t| && t[i].CountAllowed? && t[j] == Forward(Admitted) ==> i < j)
    && (forall i, j :: 0 <= i < |t| && 0 <= j < |t| && t[i] == Forward(Admitted) && t[j].Await? ==> i < j)
  }

  predicate OwnLock(t: seq<Op>, user: string) {
    forall op <- t :: op.TakeLock? || op.ReleaseLock? ==> op.user == user
  }

  /** Decision, answer and settle of a request happen with its user's lock held, and no other lock is
      ever taken; what follows from the verdict follows the decision; and the wait follows the forwarding. */
  ghost predicate Serialized(t: seq<Op>, user: string) {
    DecidedUnderLock(t, user) && AnsweredUnderLock(t, user) && ForwardedInOrder(t) && OwnLock(t, user)
  }

  /** The registry's mutex is let go right after it is taken, and is never taken with a user's lock
      held; the lock is released at the very end. */
  ghost predicate LocksInOrder(t: seq<Op>) {
    && (forall i :: 0 <= i < |t| && t[i] == TakeRegistry ==> i + 1 < |t| && t[i + 1] == ReleaseRegistry)
    && (forall i, j :: 0 <= i < j < |t| && t[i].TakeLock? ==> t[j] != TakeRegistry && t[j] != ReleaseRegistry)
    && (forall i :: 0 <= i < |t| && t[i].TakeLock? ==> t[|t| - 1] == ReleaseLock(t[i].user))
    && (forall i :: 0 <= i < |t| && t[i].ReleaseLock? ==> i == |t| - 1)
  }

  /** The shape of a decided request's trace, effect by effect. */
  ghost predicate DecidedShape(t: seq<Op>, user: string, body: seq<Op>) {
    && |t| == |body| + 6
    && t[0] == CountAudited && t[1] == TakeRegistry && t[2] == ReleaseRegistry && t[3] == TakeLock(user) && t[4].Judge?
    && (forall i :: 5 <= i < |t| - 1 ==> t[i] == body[i - 5])
    && t[|t| - 1] == ReleaseLock(user)
  }

  /** The effects after the decision: none about locks, and those of an admission in order. */
  predicate BodyShape(body: seq<Op>) {
    (forall op <- body :: LockFree(op) && !op.Judge?) && ForwardedInOrder(body)
  }

  lemma ConcludingShape(failClosed: bool, dec: Decision, status: int)
    ensures BodyShape(Concluding(failClosed, dec, status))
  {}

  lemma LockedShape(failClosed: bool, user: string, w: Write, dec: Decision, status: int)
    ensures DecidedShape([CountAudited] + LockedOps(failClosed, user, w, dec, status), user,
                         Concluding(failClosed, dec, status))
  {}

  lemma ShapeHeld(t: seq<Op>, user: string, body: seq<Op>, i: int)
    requires DecidedShape(t, user, body) && BodyShape(body) && 3 < i < |t| - 1
    ensures UnderLock(t, user, i) && LockFree(t[i]) && (i > 4 ==> !t[i].Judge?)
  {
    forall m | 5 <= m < |t| - 1 ensures LockFree(t[m]) && !t[m].Judge? { assert t[m] in body; }
    assert Section(t, user, 3, |t| - 1);
  }

  lemma ShapeSerialized(t: seq<Op>, user: string, body: seq<Op>)
    requires DecidedShape(t, user, body) && BodyShape(body)
    ensures Serialized(t, user)
  {
    forall i | 3 < i < |t| - 1 ensures UnderLock(t, user, i) && LockFree(t[i]) && (i > 4 ==> !t[i].Judge?) {
      ShapeHeld(t, user, body, i);
    }
    ShapeOrdered(t, user, body);
  }

  lemma ShapeOrdered(t: seq<Op>, user: string, body: seq<Op>)
    requires DecidedShape(t, user, body) && BodyShape(body)
    ensures ForwardedInOrder(t)
  {}

  lemma ShapeInOrder(t: seq<Op>, user: string, body: seq<Op>)
    requires DecidedShape(t, user, body) && BodyShape(body)
    ensures LocksInOrder(t)
  {
    forall i | 4 <= i < |t| - 1 ensures LockFree(t[i]) {}
  }

  lemma EarlyHoldsNothing(mode: Mode, call: Call)
    requires EarlyTrace(mode, call).Some?
    ensures forall op <- EarlyTrace(mode, call).value :: LockFree(op) && !OfDecision(op)
  {
    EarlyForms(mode, call);
    forall op | op in EarlyTrace(mode, call).value ensures LockFree(op) && !OfDecision(op) { EarlyOp(op); }
  }

  lemma EarlyForms(mode: Mode, call: Call)
    requires EarlyTrace(mode, call).Some?
    ensures var t := EarlyTrace(mode, call).value;
            || t == [CountAudited, CountDenied, Reject] || t == [CountAudited, Forward(Bypassed)]
            || t == [Forward(NotMediated)]
  {}

  lemma EarlyOp(op: Op)
    requires || op == CountAudited || op == CountDenied || op == Reject
             || op == Forward(Bypassed) || op == Forward(NotMediated)
    ensures LockFree(op) && !OfDecision(op)
  {}

  lemma EarlyInOrder(t: seq<Op>, user: string)
    requires forall op <- t :: LockFree(op) && !OfDecision(op)
    ensures LocksInOrder(t) && Serialized(t, user)
  {
    forall i | 0 <= i < |t| ensures LockFree(t[i]) && !OfDecision(t[i]) { assert t[i] in t; }
  }

  /** Every request of every user is decided, answered and settled under that user's lock, and
      nothing that needs the lock happens outside it. */
  lemma CriticalSection(mode: Mode, call: Call)
    ensures Serialized(Trace(mode, call), call.user)
  {
    if EarlyTrace(mode, call).None? {
      var body := Concluding(mode.failClosed, DecisionFor(mode, call), call.status);
      ConcludingShape(mode.failClosed, DecisionFor(mode, call), call.status);
      LockedShape(mode.failClosed, call.user, WriteOf(mode, call), DecisionFor(mode, call), call.status);
      ShapeSerialized(Trace(mode, call), call.user, body);
    } else {
      EarlyHoldsNothing(mode, call);
      EarlyInOrder(Trace(mode, call), call.user);
    }
  }

  /** No request ever holds the registry's mutex together with a user's lock, and every path out of
      the critical section releases the lock. */
  lemma TraceLocksInOrder(mode: Mode, call: Call)
    ensures LocksInOrder(Trace(mode, call))
  {
    if EarlyTrace(mode, call).None? {
      var body := Concluding(mode.failClosed, DecisionFor(mode, call), call.status);
      ConcludingShape(mode.failClosed, DecisionFor(mode, call), call.status);
      LockedShape(mode.failClosed, call.user, WriteOf(mode, call), DecisionFor(mode, call), call.status);
      ShapeInOrder(Trace(mode, call), call.user, body);
    } else {
      EarlyHoldsNothing(mode, call);
      EarlyInOrder(Trace(mode, call), call.user);
    }
  }
}
