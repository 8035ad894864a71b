/** The admission protocol as a step system: any number of concurrent requests of any users, the
    per-user locks, and an upstream that applies accepted writes in its own time. */
module Protocol {
  import opened Wrappers
  import opened MapSums
  import opened Accounting
  import opened Engine
  import opened Deltas
  import opened Quota
  import opened Admission
  import opened Tasks

  datatype Phase =
    | Waiting      // arrived, quota record fetched, not yet holding the user's lock
    | Holding      // holds the lock, not yet decided
    | Cleared      // allowed, not yet answered by the upstream
    | Forwarded    // accepted by the upstream, waiting to see the change
    | Finished     // answered, lock released

  /** What the reads before the usage scan gave: the guest as it was, the answers, and what the answers
      about a copied config speak of; `listed` are the listings that a clone's source was sized with. */
  datatype View = View(pre: Option<Guest>, answers: Reads, from: Config, fromNode: string, listed: Contents)

  /** `vmid` is the guest that the write makes or changes. */
  datatype Request = Request(
    user: string, write: Write, vmid: int, phase: Phase, view: Option<View>, task: Option<Task>)

  /** A write as it was applied: the listings at that time and what it left. */
  datatype Applied = Applied(task: Task, contents: Contents, g: Guest)

  /** A write whose settle ended while it was still pending: the guest it worked on as last seen
      before it was applied, the listings when the settle ended, and how it was applied in the end. */
  datatype Lost = Lost(task: Task, low: Option<Guest>, contents: Contents, applied: Option<Applied>)

  /** `tasks` are the writes allowed and not yet applied, by the guest they concern; `lapsed` are
      the writes whose settle ended before they were applied; `applied` are the others, once applied. */
  datatype State = State(
    guests: map<int, Guest>, contents: Contents,
    lock: map<string, int>, reqs: map<int, Request>,
    tasks: map<int, Task>, lapsed: map<int, Lost>, applied: seq<Applied>)

  datatype Step =
    | Arrive(r: int, user: string, write: Write, vmid: int)
    | Acquire(r: int)
    | ReadStep(r: int, answers: Reads, from: Config, fromNode: string, listed: Contents)
    | DecideStep(r: int, used: Option<Usage>)
    | TakeUp(r: int)                       // the upstream can work on the write only now
    | RefusedUpstream(r: int)              // status >= 300: nothing was applied
    | Accept(r: int)                       // accepted; applied by a task that lands later
    | AcceptApplied(r: int, g: Guest)      // accepted and applied when the response returns: not settled
    | Settle(r: int)                       // a poll saw the guest in the pool, or a changed config
    | Lapse(r: int)                        // the settle timed out, or had no guest id to wait for
    | Land(vmid: int, g: Guest)
    | FailTask(vmid: int)                  // the upstream's task ends without effect
    | Destroy(vmid: int)
    | ShrinkGuest(vmid: int, g: Guest)
    | ShrinkContents(contents: Contents)

  /** Steps by which the upstream or the environment changes the guests. */
  predicate UpstreamStep(step: Step) {
    step.Land? || step.FailTask? || step.Destroy? || step.ShrinkGuest? || step.ShrinkContents?
  }

  /** Steps that answer a request that was allowed. */
  predicate Answers(step: Step) {
    step.RefusedUpstream? || step.AcceptApplied? || step.Settle? || step.Lapse?
  }

  predicate Critical(p: Phase) {
    p.Holding? || p.Cleared? || p.Forwarded?
  }

  function PoolOf(c: QuotaFile, user: string): string
    requires ValidFile(c) && user in c.users
  {
    c.users[user].value.pool
  }

  // ---------------------------------------------------------------- steps

  /** The guest that the request names, wherever it belongs and whatever is being done to it. */
  predicate Readable(s: State, q: Request) {
    q.vmid in s.guests && !q.write.Alloc?
    && s.guests[q.vmid].kind == q.write.kind && s.guests[q.vmid].node == q.write.node
  }

  /** The guest that the request changes, as it is now. */
  function PreOf(s: State, q: Request): Option<Guest> {
    if !MakesGuest(q.write) && Readable(s, q) then Some(s.guests[q.vmid]) else None
  }

  /** The upstream has work to do for an allowed write: a new guest needs a fresh id, a changed one
      must be the user's and not being worked on. Otherwise the upstream refuses, unless that changes
      before it gets to see the write. */
  predicate Workable(s: State, q: Request, pool: string) {
    if MakesGuest(q.write) then q.vmid !in s.guests && q.vmid !in s.tasks
    else Readable(s, q) && s.guests[q.vmid].pool == pool && q.vmid !in s.tasks
  }

  ghost function PoolMap(s: State, pool: string, d: Dim): map<int, int> {
    map v | v in s.guests :: if s.guests[v].pool == pool then GuestFoot(s.contents, s.guests[v], d) else 0
  }

  /** The recomputed usage of a pool. */
  ghost function PoolUsage(s: State, pool: string, d: Dim): int {
    Sum(PoolMap(s, pool, d))
  }

  /** The guest that the pending write of `v` will find. */
  function BaseOf(s: State, v: int, t: Task): Option<Guest> {
    if t.start.Some? && v in s.guests then Some(s.guests[v]) else None
  }

  /** What the write of `v` may still add to a pool: up to the guest it was admitted on and the
      increase checked for. A write whose guest is gone adds nothing. */
  ghost function PendingAt(s: State, v: int, pool: string, d: Dim): int {
    if v in s.tasks && s.tasks[v].pool == pool && (s.tasks[v].start.Some? ==> v in s.guests)
    then StartFoot(s.contents, s.tasks[v], d) + Growth(s.tasks[v], d)
         - (if v in s.guests then GuestFoot(s.contents, s.guests[v], d) else 0)
    else 0
  }

  ghost function PendingMap(s: State, pool: string, d: Dim): map<int, int> {
    map v | v in s.tasks :: PendingAt(s, v, pool, d)
  }

  /** What all writes at work on a pool may still add to it. */
  ghost function Pending(s: State, pool: string, d: Dim): int {
    Sum(PendingMap(s, pool, d))
  }

  /** An allowed write that the upstream has nothing to do for yet. */
  predicate Unstarted(q: Request) {
    q.phase.Cleared? && q.task.None?
  }

  ghost function GrantAt(c: QuotaFile, q: Request, pool: string, d: Dim): int
    requires ValidFile(c)
  {
    if Unstarted(q) && q.user in c.users && PoolOf(c, q.user) == pool && DeltaRead(q).Some?
    then Positive(DeltaRead(q).value.At(d)) else 0
  }

  ghost function GrantedMap(c: QuotaFile, reqs: map<int, Request>, pool: string, d: Dim): map<int, int>
    requires ValidFile(c)
  {
    map r | r in reqs :: GrantAt(c, reqs[r], pool, d)
  }

  /** The increases granted to a pool for which nothing is at work yet. */
  ghost function Granted(c: QuotaFile, reqs: map<int, Request>, pool: string, d: Dim): int
    requires ValidFile(c)
  {
    Sum(GrantedMap(c, reqs, pool, d))
  }

  /** What a lost write may add before it is applied: the increase it was checked for, and what others
      took off its guest. */
  ghost function Given(l: Lost, d: Dim): int {
    Growth(l.task, d) +
    if l.task.start.Some? && l.low.Some?
    then GuestFoot(l.contents, l.task.start.value, d) - GuestFoot(l.contents, l.low.value, d)
    else 0
  }

  /** What it overshot by when it was applied, or may come to overshoot by as listings shrink. */
  ghost function OverOf(l: Lost, d: Dim): nat {
    if l.applied.Some? then FirmOver(l.applied.value.contents, l.applied.value.task, l.applied.value.g, d) else 0
  }

  /** What a lost write counts for. */
  ghost function Excess(l: Lost, d: Dim): int {
    Given(l, d) + OverOf(l, d)
  }

  ghost function LapsedMap(s: State, pool: string, d: Dim): map<int, int> {
    map r | r in s.lapsed :: if s.lapsed[r].task.pool == pool then Excess(s.lapsed[r], d) else 0
  }

  /** What the writes to a pool whose settle ended too early count for, all together. */
  ghost function Lapsed(s: State, pool: string, d: Dim): int {
    Sum(LapsedMap(s, pool, d))
  }

  /** What the writes applied to a pool overshot by, all together, each when it was applied. */
  ghost function Overshot(applied: seq<Applied>, pool: string, d: Dim): int {
    if applied == [] then 0
    else
      var last := applied[|applied| - 1];
      Overshot(applied[..|applied| - 1], pool, d)
      + if last.task.pool == pool then Overshoot(last.contents, last.task, last.g, d) else 0
  }

  /** The usage a decision works with may be stale on the high side. On the low side it may miss what
      lost writes have added since they were lost, and no more. */
  ghost predicate UsageRead(s: State, pool: string, used: Option<Usage>) {
    used.Some? ==> forall d :: used.value.At(d) + Lapsed(s, pool, d) - Pending(s, pool, d) >= PoolUsage(s, pool, d)
  }

  /** The answers a verdict is based on: those read earlier, and the usage. */
  function AnswersOf(q: Request, used: Option<Usage>): Reads {
    if q.view.Some? then q.view.value.answers.(used := used) else Reads(None, None, None, None, used)
  }

  /** The delta that the verdict is about, if the reads it needs were answered. */
  ghost function DeltaRead(q: Request): Option<Delta> {
    DeltaOf(q.write, AnswersOf(q, None))
  }

  lemma UsageIsNoDelta(q: Request, used: Option<Usage>)
    ensures DeltaOf(q.write, AnswersOf(q, used)) == DeltaRead(q)
  {}

  ghost predicate Enabled(c: QuotaFile, s: State, step: Step)
    requires ValidFile(c)
  {
    match step
    case Arrive(r, user, write, vmid) => r !in s.reqs && user in c.users && !write.Alloc?
    case Acquire(r) => r in s.reqs && s.reqs[r].phase.Waiting? && s.reqs[r].user !in s.lock
    case ReadStep(r, answers, from, fromNode, listed) =>
      && r in s.reqs && s.reqs[r].phase.Holding? && s.reqs[r].view.None?
      && Truthful(listed, s.reqs[r].write, answers, PreOf(s, s.reqs[r]), from, fromNode)
    case DecideStep(r, used) =>
      && r in s.reqs && s.reqs[r].phase.Holding? && s.reqs[r].view.Some? && s.reqs[r].user in c.users
      && UsageRead(s, PoolOf(c, s.reqs[r].user), used)
    case TakeUp(r) =>
      && r in s.reqs && Unstarted(s.reqs[r]) && s.reqs[r].view.Some? && DeltaRead(s.reqs[r]).Some?
      && s.reqs[r].user in c.users && Workable(s, s.reqs[r], PoolOf(c, s.reqs[r].user))
    case RefusedUpstream(r) => r in s.reqs && s.reqs[r].phase.Cleared?
    case Accept(r) =>
      r in s.reqs && s.reqs[r].phase.Cleared? && s.reqs[r].task.Some? && s.reqs[r].task.value.delta.Positive()
    case AcceptApplied(r, g) =>
      && r in s.reqs && s.reqs[r].phase.Cleared? && s.reqs[r].task.Some? && !s.reqs[r].task.value.delta.Positive()
      && CanLand(s, s.reqs[r].vmid, g)
    case Settle(r) => r in s.reqs && s.reqs[r].phase.Forwarded? && Observed(s, s.reqs[r])
    case Lapse(r) => r in s.reqs && s.reqs[r].phase.Forwarded? && s.reqs[r].task.Some?
    case Land(vmid, g) =>
      CanLand(s, vmid, g) && s.tasks[vmid].req in s.reqs && !s.reqs[s.tasks[vmid].req].phase.Cleared?
    case FailTask(vmid) =>
      vmid in s.tasks && s.tasks[vmid].req in s.reqs && !s.reqs[s.tasks[vmid].req].phase.Cleared?
    case Destroy(vmid) => vmid in s.guests
    case ShrinkGuest(vmid, g) =>
      vmid in s.guests && WellSized(g) && Shrunk(g, s.guests[vmid])
    case ShrinkContents(contents) =>
      NonNegativeContents(contents) && SmallerListings(contents, s.contents)
  }

  /** The write of `vmid` can leave the guest as `g`, whatever that is: the guest that it changes is
      still there, and no guest leaves its pool. */
  ghost predicate CanLand(s: State, vmid: int, g: Guest) {
    && vmid in s.tasks && WellSized(g) && g.pool == s.tasks[vmid].pool
    && (s.tasks[vmid].start.Some? ==> vmid in s.guests)
  }

  /** What is applied in this step, if anything, is one of the landings that its delta bounds, on the
      guest that it was decided on or one that others made lighter. */
  ghost predicate AsChecked(s: State, step: Step) {
    && (step.Land? && step.vmid in s.tasks ==> ChargedFor(s, step.vmid, step.g))
    && (step.AcceptApplied? && step.r in s.reqs && s.reqs[step.r].vmid in s.tasks ==>
          ChargedFor(s, s.reqs[step.r].vmid, step.g))
  }

  ghost predicate ChargedFor(s: State, vmid: int, g: Guest)
    requires vmid in s.tasks
  {
    var t := s.tasks[vmid];
    Found(t, BaseOf(s, vmid, t)) && Lands(s.contents, t, BaseOf(s, vmid, t), g)
  }

  /** What ends a settle early: the new guest is in the pool, or the config reads differently. */
  predicate Observed(s: State, q: Request) {
    && q.task.Some? && q.vmid in s.guests
    && if q.task.value.pre.None? then s.guests[q.vmid].pool == q.task.value.pool
       else Readable(s, q) && !SameConfig(q.task.value.pre.value.cfg, s.guests[q.vmid].cfg)
  }

  /** No write of the request is still to land. */
  predicate TaskOver(s: State, r: int) {
    forall v <- s.tasks :: s.tasks[v].req != r
  }

  function WithPhase(s: State, r: int, p: Phase): map<int, Request>
    requires r in s.reqs
  {
    s.reqs[r := s.reqs[r].(phase := p)]
  }

  /** The request is answered and its user's lock released. */
  function Release(s: State, r: int): State
    requires r in s.reqs
  {
    s.(reqs := WithPhase(s, r, Finished), lock := s.lock - {s.reqs[r].user})
  }

  function LostNow(s: State, r: int): Lost
    requires r in s.reqs && s.reqs[r].task.Some?
  {
    Lost(s.reqs[r].task.value, BaseOf(s, s.reqs[r].vmid, s.reqs[r].task.value), s.contents, None)
  }

  /** A settle ends, by a poll or by the deadline. If the request's own write is still pending, it is
      lost: nobody waits for it any more. */
  function EndSettle(s: State, r: int): State
    requires r in s.reqs && s.reqs[r].task.Some?
  {
    if TaskOver(s, r) then Release(s, r)
    else Release(s, r).(lapsed := s.lapsed[r := LostNow(s, r)])
  }

  /** The step ends a settle before the request's own write is applied. */
  predicate EndsEarly(s: State, step: Step) {
    (step.Settle? || step.Lapse?) && !TaskOver(s, step.r)
  }

  /** Someone changes a guest that a write is pending on. */
  predicate TouchesPending(s: State, step: Step) {
    step.ShrinkGuest? && step.vmid in s.tasks
  }

  /** A lost write is kept up to date with what others take off its guest. */
  function NoteShrink(s: State, vmid: int, g: Guest): map<int, Lost> {
    if vmid in s.tasks && s.tasks[vmid].req in s.lapsed
    then s.lapsed[s.tasks[vmid].req := s.lapsed[s.tasks[vmid].req].(low := Some(g))] else s.lapsed
  }

  /** The write as it is taken up: decided on what was read, admitted on the guest as it is now. */
  ghost function TaskOf(c: QuotaFile, s: State, r: int): Task
    requires ValidFile(c) && r in s.reqs && s.reqs[r].user in c.users
    requires s.reqs[r].view.Some? && DeltaRead(s.reqs[r]).Some?
  {
    var q, view := s.reqs[r], s.reqs[r].view.value;
    Task(r, q.user, PoolOf(c, q.user), q.write, view.pre, PreOf(s, q), view.from, view.fromNode, DeltaRead(q).value)
  }

  /** The upstream is at work on the write. */
  ghost function Started(c: QuotaFile, s: State, r: int): State
    requires ValidFile(c) && r in s.reqs && s.reqs[r].user in c.users
    requires s.reqs[r].view.Some? && DeltaRead(s.reqs[r]).Some?
  {
    var t := TaskOf(c, s, r);
    s.(reqs := s.reqs[r := s.reqs[r].(phase := Cleared, task := Some(t))], tasks := s.tasks[s.reqs[r].vmid := t])
  }

  ghost function Decided(c: QuotaFile, s: State, r: int, used: Option<Usage>): State
    requires ValidFile(c) && r in s.reqs && s.reqs[r].view.Some? && s.reqs[r].user in c.users
  {
    var q, record := s.reqs[r], c.users[s.reqs[r].user].value;
    DecideClosed(q.write, record, AnswersOf(q, used));
    UsageIsNoDelta(q, used);
    if !Decide(true, q.write, record, AnswersOf(q, used)).allowed then Release(s, r)
    else if Workable(s, q, record.pool) then Started(c, s, r)
    else s.(reqs := WithPhase(s, r, Cleared))
  }

  ghost function Apply(c: QuotaFile, s: State, step: Step): State
    requires ValidFile(c) && Enabled(c, s, step)
  {
    match step
    case Arrive(r, user, write, vmid) =>
      var named := if MakesGuest(write) then vmid else write.vmid;
      s.(reqs := s.reqs[r := Request(user, write, named, Waiting, None, None)])
    case Acquire(r) => s.(reqs := WithPhase(s, r, Holding), lock := s.lock[s.reqs[r].user := r])
    case ReadStep(r, answers, from, fromNode, listed) =>
      s.(reqs := s.reqs[r := s.reqs[r].(view := Some(View(PreOf(s, s.reqs[r]), answers, from, fromNode, listed)))])
    case DecideStep(r, used) => Decided(c, s, r, used)
    case TakeUp(r) => Started(c, s, r)
    case RefusedUpstream(r) =>
      if s.reqs[r].task.Some? then Release(s.(tasks := s.tasks - {s.reqs[r].vmid}), r) else Release(s, r)
    case Accept(r) => s.(reqs := WithPhase(s, r, Forwarded))
    case AcceptApplied(r, g) => Release(Landed(s, s.reqs[r].vmid, g), r)
    case Settle(r) => EndSettle(s, r)
    case Lapse(r) => EndSettle(s, r)
    case Land(vmid, g) => Landed(s, vmid, g)
    case FailTask(vmid) => s.(tasks := s.tasks - {vmid})
    case Destroy(vmid) => s.(guests := s.guests - {vmid})
    case ShrinkGuest(vmid, g) => s.(guests := s.guests[vmid := g], lapsed := NoteShrink(s, vmid, g))
    case ShrinkContents(contents) => s.(contents := contents)
  }

  function Landed(s: State, vmid: int, g: Guest): State
    requires vmid in s.tasks
  {
    s.(guests := s.guests[vmid := g], tasks := s.tasks - {vmid},
       lapsed := LapsedWith(s, vmid, g), applied := AppliedWith(s, vmid, g))
  }

  function AsApplied(s: State, vmid: int, g: Guest): Applied
    requires vmid in s.tasks
  {
    Applied(s.tasks[vmid], s.contents, g)
  }

  /** A lost write that is applied after all is noted with the others that were lost. */
  function LapsedWith(s: State, vmid: int, g: Guest): map<int, Lost>
    requires vmid in s.tasks
  {
    var q := s.tasks[vmid].req;
    if q in s.lapsed then s.lapsed[q := s.lapsed[q].(applied := Some(AsApplied(s, vmid, g)))] else s.lapsed
  }

  function AppliedWith(s: State, vmid: int, g: Guest): seq<Applied>
    requires vmid in s.tasks
  {
    if s.tasks[vmid].req in s.lapsed then s.applied else s.applied + [AsApplied(s, vmid, g)]
  }

  // ---------------------------------------------------------------- the locks

  /** A lock is held by exactly the request of its user that is between lock and unlock. */
  ghost predicate LockHeld(users: set<string>, reqs: map<int, Request>, lock: map<string, int>) {
    && (forall r <- reqs :: reqs[r].user in users)
    && (forall u <- lock :: lock[u] in reqs && reqs[lock[u]].user == u && Critical(reqs[lock[u]].phase))
    && (forall r <- reqs :: Critical(reqs[r].phase) ==> reqs[r].user in lock && lock[reqs[r].user] == r)
  }

  ghost predicate LockInv(c: QuotaFile, s: State) {
    LockHeld(c.users.Keys, s.reqs, s.lock)
  }

  /** The request moves on inside the critical section, or outside it. */
  lemma LockMoved(users: set<string>, reqs: map<int, Request>, lock: map<string, int>, r: int, q: Request)
    requires LockHeld(users, reqs, lock) && r in reqs
    requires q.user == reqs[r].user && (Critical(q.phase) <==> Critical(reqs[r].phase))
    ensures LockHeld(users, reqs[r := q], lock)
  {}

  lemma LockReleased(users: set<string>, reqs: map<int, Request>, lock: map<string, int>, r: int)
    requires LockHeld(users, reqs, lock) && r in reqs && Critical(reqs[r].phase)
    ensures LockHeld(users, reqs[r := reqs[r].(phase := Finished)], lock - {reqs[r].user})
  {}

  lemma LockTaken(users: set<string>, reqs: map<int, Request>, lock: map<string, int>, r: int)
    requires LockHeld(users, reqs, lock) && r in reqs && reqs[r].phase.Waiting? && reqs[r].user !in lock
    ensures LockHeld(users, reqs[r := reqs[r].(phase := Holding)], lock[reqs[r].user := r])
  {}

  lemma LockArrived(users: set<string>, reqs: map<int, Request>, lock: map<string, int>, r: int, q: Request)
    requires LockHeld(users, reqs, lock) && r !in reqs && q.user in users && q.phase.Waiting?
    ensures LockHeld(users, reqs[r := q], lock)
  {}

  /** A decision answers the request, or clears it, with the write at work or not. */
  lemma DecidedShape(c: QuotaFile, s: State, r: int, used: Option<Usage>)
    requires ValidFile(c) && r in s.reqs && s.reqs[r].view.Some? && s.reqs[r].user in c.users
    ensures var s', q, pool := Decided(c, s, r, used), s.reqs[r], PoolOf(c, s.reqs[r].user);
            var allowed := Decide(true, q.write, c.users[q.user].value, AnswersOf(q, used)).allowed;
            || (!allowed && s' == Release(s, r))
            || (allowed && DeltaRead(q).Some? && !Workable(s, q, pool) && s' == s.(reqs := WithPhase(s, r, Cleared)))
            || (allowed && DeltaRead(q).Some? && Workable(s, q, pool) && s' == Started(c, s, r))
  {
    DecideClosed(s.reqs[r].write, c.users[s.reqs[r].user].value, AnswersOf(s.reqs[r], used));
    UsageIsNoDelta(s.reqs[r], used);
  }

  /** The request gets past its verdict, and keeps its user, its write and its guest id. */
  predicate PastVerdict(s: State, s': State, r: int)
    requires r in s.reqs
  {
    || s' == Release(s, r)
    || (&& r in s'.reqs && s'.reqs == s.reqs[r := s'.reqs[r]] && s'.lock == s.lock && s'.reqs[r].phase.Cleared?
        && s'.reqs[r].user == s.reqs[r].user && s'.reqs[r].write == s.reqs[r].write)
  }

  lemma DecidedRequest(c: QuotaFile, s: State, r: int, used: Option<Usage>)
    requires ValidFile(c) && r in s.reqs && s.reqs[r].view.Some? && s.reqs[r].user in c.users
    ensures PastVerdict(s, Decided(c, s, r, used), r)
  {
    DecidedShape(c, s, r, used);
  }

  /** The steps in which the upstream may start to work on a write. */
  predicate Starts(step: Step) {
    step.DecideStep? || step.TakeUp?
  }

  /** In them nothing else happens to the guests, the volumes and the writes at work. */
  lemma StartShape(c: QuotaFile, s: State, step: Step)
    requires ValidFile(c) && Enabled(c, s, step) && Starts(step)
    ensures var s', q := Apply(c, s, step), s.reqs[step.r];
            && s'.guests == s.guests && s'.contents == s.contents && s'.lapsed == s.lapsed && s'.applied == s.applied
            && (|| s'.tasks == s.tasks
                || (&& q.view.Some? && DeltaRead(q).Some? && Workable(s, q, PoolOf(c, q.user))
                    && s'.tasks == s.tasks[q.vmid := TaskOf(c, s, step.r)]))
  {
    if step.DecideStep? { DecidedShape(c, s, step.r, step.used); }
  }

  lemma LockDecided(c: QuotaFile, s: State, r: int, used: Option<Usage>)
    requires ValidFile(c) && LockInv(c, s) && Enabled(c, s, DecideStep(r, used))
    ensures LockInv(c, Decided(c, s, r, used))
  {
    DecidedRequest(c, s, r, used);
    LockPastVerdict(c, s, Decided(c, s, r, used), r);
  }

  lemma LockPastVerdict(c: QuotaFile, s: State, s': State, r: int)
    requires LockInv(c, s) && r in s.reqs && s.reqs[r].phase.Holding? && PastVerdict(s, s', r)
    ensures LockInv(c, s')
  {
    if s' == Release(s, r) {
      LockReleased(c.users.Keys, s.reqs, s.lock, r);
    } else {
      LockMoved(c.users.Keys, s.reqs, s.lock, r, s'.reqs[r]);
    }
  }

  lemma LockKept(c: QuotaFile, s: State, step: Step)
    requires ValidFile(c) && LockInv(c, s) && Enabled(c, s, step)
    ensures LockInv(c, Apply(c, s, step))
  {
    if step.DecideStep? {
      LockDecided(c, s, step.r, step.used);
    } else if Answers(step) {
      LockAnswered(c, s, step);
    } else if step.ReadStep? || step.TakeUp? || step.Accept? {
      LockWithin(c, s, step);
    } else {
      LockEntered(c, s, step);
    }
  }

  lemma LockEntered(c: QuotaFile, s: State, step: Step)
    requires ValidFile(c) && LockInv(c, s) && Enabled(c, s, step)
    requires step.Arrive? || step.Acquire? || UpstreamStep(step)
    ensures LockInv(c, Apply(c, s, step))
  {
    if step.Arrive? {
      LockArrived(c.users.Keys, s.reqs, s.lock, step.r, Apply(c, s, step).reqs[step.r]);
    } else if step.Acquire? {
      LockTaken(c.users.Keys, s.reqs, s.lock, step.r);
    }
  }

  lemma LockWithin(c: QuotaFile, s: State, step: Step)
    requires ValidFile(c) && LockInv(c, s) && Enabled(c, s, step)
    requires step.ReadStep? || step.TakeUp? || step.Accept?
    ensures LockInv(c, Apply(c, s, step))
  {
    LockMoved(c.users.Keys, s.reqs, s.lock, step.r, Apply(c, s, step).reqs[step.r]);
  }

  lemma LockAnswered(c: QuotaFile, s: State, step: Step)
    requires ValidFile(c) && LockInv(c, s) && Enabled(c, s, step) && Answers(step)
    ensures LockInv(c, Apply(c, s, step))
  {
    LockReleased(c.users.Keys, s.reqs, s.lock, step.r);
  }

  // ---------------------------------------------------------------- the tasks

  /** What is known of a task at work on `v`: whose it is, that its delta covers it, that the guest it
      changes is as it was admitted on, or smaller, or gone, that the guest it makes is not there yet,
      and that its request is still in the critical section unless the write is lost. */
  ghost predicate TaskOk(c: QuotaFile, s: State, v: int, t: Task) {
    && t.req in s.reqs && s.reqs[t.req].vmid == v && s.reqs[t.req].task == Some(t)
    && s.reqs[t.req].user == t.user && t.user in c.users
    && c.users[t.user].Some? && c.users[t.user].value.pool == t.pool
    && Covered(t)
    && t.pre.Some? == t.start.Some?
    && (t.start.Some? ==>
         && WellSized(t.start.value) && t.start.value.pool == t.pool
         && (v in s.guests ==> Shrunk(s.guests[v], t.start.value)))
    && (t.start.None? <==> MakesGuest(t.write)) && (t.start.None? ==> v !in s.guests)
    && (|| s.reqs[t.req].phase.Cleared? || s.reqs[t.req].phase.Forwarded?
        || (s.reqs[t.req].phase.Finished? && t.req in s.lapsed && s.lapsed[t.req].task == t
            && s.lapsed[t.req].applied.None? && (v in s.guests ==> s.lapsed[t.req].low == Some(s.guests[v]))))
  }

  /** What is known of a lost write: it was lost under listings no smaller than the present ones, and
      its guest only shrank. */
  ghost predicate LostOk(s: State, r: int, l: Lost) {
    && r in s.reqs && s.reqs[r].phase.Finished?
    && NonNegativeContents(l.contents)
    && SmallerListings(s.contents, l.contents)
    && (l.task.start.None? <==> MakesGuest(l.task.write))
    && (l.task.start.Some? ==> WellSized(l.task.start.value))
    && (l.low.Some? ==> WellSized(l.low.value))
    && (l.task.start.Some? && l.low.Some? ==> Shrunk(l.low.value, l.task.start.value))
  }

  /** What is known of a request's own task. */
  ghost predicate RequestOk(s: State, r: int)
    requires r in s.reqs
  {
    var q := s.reqs[r];
    && (q.task.Some? ==> q.task.value.req == r)
    && (q.phase.Waiting? || q.phase.Holding? ==> q.task.None?)
    && (q.phase.Cleared? && q.task.Some? ==> q.vmid in s.tasks && s.tasks[q.vmid] == q.task.value)
    && (q.phase.Forwarded? ==> q.task.Some?)
  }

  ghost predicate TaskInv(c: QuotaFile, s: State) {
    && (forall v <- s.tasks :: TaskOk(c, s, v, s.tasks[v]))
    && (forall r <- s.reqs :: RequestOk(s, r))
    && (forall r <- s.lapsed :: LostOk(s, r, s.lapsed[r]))
    && NonNegativeContents(s.contents)
    && (forall v <- s.guests :: WellSized(s.guests[v]))
  }

  /** What is known of what a request has read, and that an allowed one has a delta. */
  ghost predicate ViewOk(q: Request) {
    && (q.view.Some? ==>
         && var v := q.view.value;
         && Truthful(v.listed, q.write, v.answers, v.pre, v.from, v.fromNode)
         && (v.pre.Some? ==> !MakesGuest(q.write) && WellSized(v.pre.value)))
    && (q.phase.Cleared? ==> q.view.Some? && DeltaRead(q).Some?)
  }

  ghost predicate ViewsOk(reqs: map<int, Request>) {
    forall r {:trigger ViewOk(reqs[r])} :: r in reqs ==> ViewOk(reqs[r])
  }

  /** A request moves on: from cleared to forwarded with its task, or having no task at work. */
  lemma TasksMoved(c: QuotaFile, s: State, r: int, p: Phase)
    requires TaskInv(c, s) && r in s.reqs && !s.reqs[r].phase.Finished? && !p.Waiting?
    requires p.Forwarded? ==> s.reqs[r].phase.Cleared? && s.reqs[r].task.Some?
    requires p.Holding? || p.Cleared? ==> s.reqs[r].task.None?
    requires !p.Forwarded? ==> TaskOver(s, r)
    ensures TaskInv(c, s.(reqs := WithPhase(s, r, p)))
  {
    var s' := s.(reqs := WithPhase(s, r, p));
    forall v | v in s.tasks ensures TaskOk(c, s', v, s'.tasks[v]) { assert TaskOk(c, s, v, s.tasks[v]); }
    forall i | i in s'.reqs ensures RequestOk(s', i) { assert RequestOk(s, i); }
    forall i | i in s.lapsed ensures LostOk(s', i, s.lapsed[i]) { assert LostOk(s, i, s.lapsed[i]); }
  }

  lemma TasksLockFree(c: QuotaFile, s: State, lock: map<string, int>)
    requires TaskInv(c, s)
    ensures TaskInv(c, s.(lock := lock))
  {
    var s' := s.(lock := lock);
    forall v | v in s.tasks ensures TaskOk(c, s', v, s'.tasks[v]) { assert TaskOk(c, s, v, s.tasks[v]); }
    forall i | i in s'.reqs ensures RequestOk(s', i) { assert RequestOk(s, i); }
    forall i | i in s.lapsed ensures LostOk(s', i, s.lapsed[i]) { assert LostOk(s, i, s.lapsed[i]); }
  }

  /** How lost writes were applied, once they are no longer at work, and how the others were. */
  lemma TasksNoted(c: QuotaFile, s: State, lapsed: map<int, Lost>, applied: seq<Applied>)
    requires TaskInv(c, s) && lapsed.Keys == s.lapsed.Keys
    requires forall i <- lapsed :: lapsed[i] == s.lapsed[i].(applied := lapsed[i].applied)
    requires forall i <- lapsed :: lapsed[i] == s.lapsed[i] || TaskOver(s, i)
    ensures TaskInv(c, s.(lapsed := lapsed, applied := applied))
  {
    var s' := s.(lapsed := lapsed, applied := applied);
    forall v | v in s.tasks ensures TaskOk(c, s', v, s'.tasks[v]) { assert TaskOk(c, s, v, s.tasks[v]); }
    forall i | i in s'.reqs ensures RequestOk(s', i) { assert RequestOk(s, i); }
    forall i | i in s'.lapsed ensures LostOk(s', i, s'.lapsed[i]) { assert LostOk(s, i, s.lapsed[i]); }
  }

  lemma TasksArrived(c: QuotaFile, s: State, r: int, q: Request)
    requires TaskInv(c, s) && r !in s.reqs && q.phase.Waiting? && q.task.None?
    ensures TaskInv(c, s.(reqs := s.reqs[r := q]))
  {
    var s' := s.(reqs := s.reqs[r := q]);
    forall v | v in s.tasks ensures TaskOk(c, s', v, s'.tasks[v]) { assert TaskOk(c, s, v, s.tasks[v]); }
    forall i | i in s'.reqs && i != r ensures RequestOk(s', i) { assert RequestOk(s, i); }
    forall i | i in s.lapsed ensures LostOk(s', i, s.lapsed[i]) { assert LostOk(s, i, s.lapsed[i]); }
  }

  /** A request whose write is pending: it is the one at work on its guest. */
  lemma OwnTask(c: QuotaFile, s: State, r: int)
    requires TaskInv(c, s) && r in s.reqs && !TaskOver(s, r)
    ensures s.reqs[r].task.Some? && s.reqs[r].vmid in s.tasks && s.tasks[s.reqs[r].vmid] == s.reqs[r].task.value
    ensures TaskOk(c, s, s.reqs[r].vmid, s.reqs[r].task.value)
  {
    var w :| w in s.tasks && s.tasks[w].req == r;
    assert TaskOk(c, s, w, s.tasks[w]);
  }

  lemma TasksLapsed(c: QuotaFile, s: State, r: int)
    requires TaskInv(c, s) && r in s.reqs && s.reqs[r].phase.Forwarded? && s.reqs[r].task.Some? && !TaskOver(s, r)
    ensures TaskInv(c, s.(reqs := WithPhase(s, r, Finished), lapsed := s.lapsed[r := LostNow(s, r)]))
  {
    var s' := s.(reqs := WithPhase(s, r, Finished), lapsed := s.lapsed[r := LostNow(s, r)]);
    forall j | j in s.tasks ensures TaskOk(c, s', j, s'.tasks[j]) { TaskLapsedOk(c, s, r, j); }
    forall i | i in s'.reqs ensures RequestOk(s', i) { assert RequestOk(s, i); }
    forall i | i in s'.lapsed ensures LostOk(s', i, s'.lapsed[i]) { LapsedOk(c, s, r, i); }
  }

  lemma TaskLapsedOk(c: QuotaFile, s: State, r: int, v: int)
    requires TaskInv(c, s) && r in s.reqs && s.reqs[r].phase.Forwarded? && s.reqs[r].task.Some? && !TaskOver(s, r)
    requires v in s.tasks
    ensures TaskOk(c, s.(reqs := WithPhase(s, r, Finished), lapsed := s.lapsed[r := LostNow(s, r)]), v, s.tasks[v])
  {
    OwnTask(c, s, r);
    assert TaskOk(c, s, v, s.tasks[v]);
  }

  lemma LapsedOk(c: QuotaFile, s: State, r: int, i: int)
    requires TaskInv(c, s) && r in s.reqs && s.reqs[r].phase.Forwarded? && s.reqs[r].task.Some? && !TaskOver(s, r)
    requires i in s.lapsed || i == r
    ensures var lapsed := s.lapsed[r := LostNow(s, r)];
            LostOk(s.(reqs := WithPhase(s, r, Finished), lapsed := lapsed), i, lapsed[i])
  {
    OwnTask(c, s, r);
    if i != r { assert LostOk(s, i, s.lapsed[i]); }
  }

  /** A task ends; no cleared request still counts on it. */
  lemma TaskGone(c: QuotaFile, s: State, v: int)
    requires TaskInv(c, s) && v in s.tasks
    requires !s.reqs[s.tasks[v].req].phase.Cleared?
    ensures TaskInv(c, s.(tasks := s.tasks - {v}))
  {
    var s' := s.(tasks := s.tasks - {v});
    assert TaskOk(c, s, v, s.tasks[v]);
    forall j | j in s'.tasks ensures TaskOk(c, s', j, s'.tasks[j]) { assert TaskOk(c, s, j, s.tasks[j]); }
    forall r | r in s'.reqs ensures RequestOk(s', r) { assert RequestOk(s, r); }
    forall i | i in s.lapsed ensures LostOk(s', i, s.lapsed[i]) { assert LostOk(s, i, s.lapsed[i]); }
  }

  /** Guests come, go and shrink where no task is at work. */
  lemma GuestsChanged(c: QuotaFile, s: State, guests: map<int, Guest>, contents: Contents)
    requires TaskInv(c, s) && NonNegativeContents(contents)
    requires SmallerListings(contents, s.contents)
    requires forall v :: v in s.tasks && v in guests ==> v in s.guests && guests[v] == s.guests[v]
    requires forall v <- guests :: WellSized(guests[v])
    ensures TaskInv(c, s.(guests := guests, contents := contents))
  {
    var s' := s.(guests := guests, contents := contents);
    forall v | v in s'.tasks ensures TaskOk(c, s', v, s'.tasks[v]) { assert TaskOk(c, s, v, s.tasks[v]); }
    forall r | r in s'.reqs ensures RequestOk(s', r) { assert RequestOk(s, r); }
    forall i | i in s.lapsed ensures LostOk(s', i, s.lapsed[i]) { assert LostOk(s, i, s.lapsed[i]); }
  }

  /** A guest shrinks, also while a write on it is pending. */
  lemma GuestShrinks(c: QuotaFile, s: State, vmid: int, g: Guest)
    requires TaskInv(c, s) && vmid in s.guests && WellSized(g)
    requires vmid in s.tasks ==> Shrunk(g, s.guests[vmid])
    ensures TaskInv(c, s.(guests := s.guests[vmid := g], lapsed := NoteShrink(s, vmid, g)))
  {
    var s' := s.(guests := s.guests[vmid := g], lapsed := NoteShrink(s, vmid, g));
    forall v | v in s'.tasks ensures TaskOk(c, s', v, s'.tasks[v]) { TaskAfterShrink(c, s, vmid, g, v); }
    forall r | r in s'.reqs ensures RequestOk(s', r) { assert RequestOk(s, r); }
    forall i | i in s'.lapsed ensures LostOk(s', i, s'.lapsed[i]) { LostAfterShrink(c, s, vmid, g, i); }
  }

  lemma LostAfterShrink(c: QuotaFile, s: State, vmid: int, g: Guest, i: int)
    requires TaskInv(c, s) && vmid in s.guests && WellSized(g)
    requires vmid in s.tasks ==> Shrunk(g, s.guests[vmid])
    requires i in s.lapsed
    ensures var s' := s.(guests := s.guests[vmid := g], lapsed := NoteShrink(s, vmid, g));
            LostOk(s', i, s'.lapsed[i])
  {
    assert LostOk(s, i, s.lapsed[i]);
    if vmid in s.tasks && s.tasks[vmid].req == i { LostLower(c, s, vmid, g); }
  }

  lemma TaskAfterShrink(c: QuotaFile, s: State, vmid: int, g: Guest, v: int)
    requires TaskInv(c, s) && vmid in s.guests && v in s.tasks && (vmid in s.tasks ==> Shrunk(g, s.guests[vmid]))
    ensures TaskOk(c, s.(guests := s.guests[vmid := g], lapsed := NoteShrink(s, vmid, g)), v, s.tasks[v])
  {
    assert TaskOk(c, s, v, s.tasks[v]);
    if v == vmid {
      if s.tasks[v].start.Some? { ShrunkTransitive(g, s.guests[v], s.tasks[v].start.value); }
    } else if vmid in s.tasks {
      assert TaskOk(c, s, vmid, s.tasks[vmid]);
    }
  }

  /** What a lost write on `vmid` knows of its guest weighs no more than what it was admitted on. */
  lemma LostLower(c: QuotaFile, s: State, vmid: int, g: Guest)
    requires TaskInv(c, s) && vmid in s.guests && vmid in s.tasks && Shrunk(g, s.guests[vmid])
    requires s.tasks[vmid].req in s.lapsed
    ensures var l := s.lapsed[s.tasks[vmid].req];
            && l.task == s.tasks[vmid] && l.task.start.Some? && l.low == Some(s.guests[vmid])
            && Shrunk(g, l.task.start.value)
  {
    assert TaskOk(c, s, vmid, s.tasks[vmid]);
    assert LostOk(s, s.tasks[vmid].req, s.lapsed[s.tasks[vmid].req]);
    ShrunkTransitive(g, s.guests[vmid], s.tasks[vmid].start.value);
  }

  /** The answer of a cleared request: its task ends with it. */
  lemma TaskAnswered(c: QuotaFile, s: State, r: int)
    requires TaskInv(c, s) && r in s.reqs && s.reqs[r].phase.Cleared? && s.reqs[r].task.Some?
    ensures TaskInv(c, s.(reqs := WithPhase(s, r, Finished), tasks := s.tasks - {s.reqs[r].vmid}))
  {
    assert RequestOk(s, r);
    var s' := s.(reqs := WithPhase(s, r, Finished), tasks := s.tasks - {s.reqs[r].vmid});
    forall v | v in s'.tasks ensures TaskOk(c, s', v, s'.tasks[v]) { assert TaskOk(c, s, v, s.tasks[v]); }
    forall i | i in s'.reqs ensures RequestOk(s', i) { assert RequestOk(s, i); }
    forall i | i in s.lapsed ensures LostOk(s', i, s.lapsed[i]) { assert LostOk(s, i, s.lapsed[i]); }
  }

  /** A cleared request without a task has no part in any. */
  lemma NoTask(c: QuotaFile, s: State, r: int)
    requires TaskInv(c, s) && r in s.reqs && s.reqs[r].task.None?
    ensures TaskOver(s, r)
  {
    forall v | v in s.tasks ensures s.tasks[v].req != r { assert TaskOk(c, s, v, s.tasks[v]); }
  }

  /** A new task starts on a guest that no task works on. */
  lemma TaskStarted(c: QuotaFile, s: State, r: int)
    requires ValidFile(c) && TaskInv(c, s) && r in s.reqs && (s.reqs[r].phase.Holding? || Unstarted(s.reqs[r]))
    requires s.reqs[r].vmid !in s.tasks && s.reqs[r].user in c.users
    requires s.reqs[r].view.Some? && DeltaRead(s.reqs[r]).Some?
    requires TaskOk(c, Started(c, s, r), s.reqs[r].vmid, TaskOf(c, s, r))
    ensures TaskInv(c, Started(c, s, r))
  {
    var s' := Started(c, s, r);
    forall v | v in s.tasks ensures TaskOk(c, s', v, s'.tasks[v]) { TaskStandsBeside(c, s, r, v); }
    forall i | i in s'.reqs ensures RequestOk(s', i) { assert RequestOk(s, i); }
    forall i | i in s.lapsed ensures LostOk(s', i, s.lapsed[i]) { assert LostOk(s, i, s.lapsed[i]); }
  }

  lemma TaskStandsBeside(c: QuotaFile, s: State, r: int, v: int)
    requires TaskInv(c, s) && r in s.reqs && (s.reqs[r].phase.Holding? || Unstarted(s.reqs[r]))
    requires s.reqs[r].view.Some? && DeltaRead(s.reqs[r]).Some? && s.reqs[r].user in c.users
    requires s.reqs[r].vmid !in s.tasks && v in s.tasks && ValidFile(c)
    ensures TaskOk(c, Started(c, s, r), v, s.tasks[v])
  {
    assert TaskOk(c, s, v, s.tasks[v]) && RequestOk(s, r);
  }

  /** What a settle that ends on an observation saw: the request's own write, landed; or else, while
      that is still pending, someone else's change to the same guest. A new guest in the pool is
      always the request's own. */
  lemma ObservedIsLanded(c: QuotaFile, s: State, r: int)
    requires TaskInv(c, s) && r in s.reqs && s.reqs[r].phase.Forwarded? && Observed(s, s.reqs[r])
    ensures var t, v := s.reqs[r].task.value, s.reqs[r].vmid;
            TaskOver(s, r)
            || (t.pre.Some? && v in s.tasks && s.tasks[v] == t && v in s.guests && s.guests[v] != t.pre.value)
  {
    if !TaskOver(s, r) { OwnTask(c, s, r); }
  }

  /** The guests and the writes at work stay as they are. */
  predicate Steady(step: Step) {
    || step.Arrive? || step.Acquire? || step.ReadStep? || step.Accept?
    || step.Settle? || step.Lapse? || step.ShrinkContents?
  }

  lemma SteadyStep(c: QuotaFile, s: State, step: Step)
    requires ValidFile(c) && Enabled(c, s, step) && Steady(step)
    ensures Apply(c, s, step).guests == s.guests && Apply(c, s, step).tasks == s.tasks
  {
    if step.Settle? || step.Lapse? { SettleIsSteady(c, s, step); }
  }

  lemma SettleIsSteady(c: QuotaFile, s: State, step: Step)
    requires ValidFile(c) && Enabled(c, s, step) && (step.Settle? || step.Lapse?)
    ensures Apply(c, s, step).guests == s.guests && Apply(c, s, step).tasks == s.tasks
  {}

  lemma RefusedStep(c: QuotaFile, s: State, r: int)
    requires ValidFile(c) && Enabled(c, s, RefusedUpstream(r))
    ensures var s' := Apply(c, s, RefusedUpstream(r));
            s'.guests == s.guests && (s'.tasks == s.tasks || s'.tasks == s.tasks - {s.reqs[r].vmid})
  {}

  /** Nobody has touched the guests that writes are pending on. */
  predicate Undisturbed(s: State) {
    forall v <- s.tasks :: s.tasks[v].pre.Some? && v in s.guests ==> s.guests[v] == s.tasks[v].pre.value
  }

  /** The write that is admitted in this step, if any, was decided on the guest as it is now. */
  predicate StartsCurrent(s: State, step: Step) {
    Starts(step) && step.r in s.reqs && s.reqs[step.r].view.Some? && PreOf(s, s.reqs[step.r]).Some? ==>
      s.reqs[step.r].view.value.pre == PreOf(s, s.reqs[step.r])
  }

  lemma StaysUndisturbed(c: QuotaFile, s: State, step: Step)
    requires ValidFile(c) && TaskInv(c, s) && Enabled(c, s, step) && Undisturbed(s)
    requires !TouchesPending(s, step) && StartsCurrent(s, step)
    ensures Undisturbed(Apply(c, s, step))
  {
    var s' := Apply(c, s, step);
    if Starts(step) {
      StartUndisturbed(c, s, step);
    } else if UpstreamStep(step) {
      UpstreamUndisturbed(c, s, step);
    } else if step.AcceptApplied? {
      LandedUndisturbed(s, s', s.reqs[step.r].vmid, step.g);
    } else if step.RefusedUpstream? {
      RefusedStep(c, s, step.r);
    } else {
      SteadyStep(c, s, step);
    }
  }

  lemma StartUndisturbed(c: QuotaFile, s: State, step: Step)
    requires ValidFile(c) && Enabled(c, s, step) && Undisturbed(s) && Starts(step) && StartsCurrent(s, step)
    ensures Undisturbed(Apply(c, s, step))
  {
    StartShape(c, s, step);
  }

  lemma UpstreamUndisturbed(c: QuotaFile, s: State, step: Step)
    requires ValidFile(c) && Enabled(c, s, step) && Undisturbed(s) && UpstreamStep(step) && !TouchesPending(s, step)
    ensures Undisturbed(Apply(c, s, step))
  {
    if step.Land? { LandedUndisturbed(s, Apply(c, s, step), step.vmid, step.g); }
  }

  lemma LandedUndisturbed(s: State, s': State, vmid: int, g: Guest)
    requires Undisturbed(s) && s'.guests == s.guests[vmid := g] && s'.tasks == s.tasks - {vmid}
    ensures Undisturbed(s')
  {}

  /** What has landed stays landed: only the request's own verdict, or the upstream taking up the
      allowed write later, starts work for it. */
  lemma LandedStaysLanded(c: QuotaFile, s: State, step: Step, r: int)
    requires ValidFile(c) && Enabled(c, s, step) && TaskOver(s, r)
    requires Starts(step) ==> step.r != r
    ensures TaskOver(Apply(c, s, step), r)
  {
    if Starts(step) { StartShape(c, s, step); }
  }

  /** The task that an allowed decision starts is covered by the delta that was checked. */
  lemma NewTaskOk(c: QuotaFile, s: State, r: int)
    requires ValidFile(c) && TaskInv(c, s) && r in s.reqs && s.reqs[r].user in c.users
    requires ViewOk(s.reqs[r]) && s.reqs[r].view.Some? && DeltaRead(s.reqs[r]).Some?
    requires Workable(s, s.reqs[r], PoolOf(c, s.reqs[r].user))
    ensures TaskOk(c, Started(c, s, r), s.reqs[r].vmid, TaskOf(c, s, r))
  {
    TaskIsCovered(c, s, r);
  }

  lemma TaskIsCovered(c: QuotaFile, s: State, r: int)
    requires ValidFile(c) && r in s.reqs && s.reqs[r].user in c.users
    requires ViewOk(s.reqs[r]) && s.reqs[r].view.Some? && DeltaRead(s.reqs[r]).Some?
    requires Workable(s, s.reqs[r], PoolOf(c, s.reqs[r].user))
    ensures Covered(TaskOf(c, s, r)) && (TaskOf(c, s, r).pre.None? <==> MakesGuest(s.reqs[r].write))
  {
    var t, q := TaskOf(c, s, r), s.reqs[r];
    forall contents, base, g, d | NonNegativeContents(contents) && Found(t, base) && Lands(contents, t, base, g)
      ensures GuestFoot(contents, g, d) <= PreFoot(contents, t, d) + Growth(t, d)
      ensures base == t.pre ==> GuestFoot(contents, g, d) <= PreFoot(contents, t, d) + t.delta.At(d)
    {
      TruthfulWithout(q.view.value.listed, q, t.pre, t.from, t.fromNode);
      DecidedDeltaCovers(q.view.value.listed, AnswersOf(q, None), t, contents, base, g, d);
    }
  }

  lemma TruthfulWithout(listed: Contents, q: Request, pre: Option<Guest>, from: Config, fromNode: string)
    requires q.view.Some? && Truthful(listed, q.write, q.view.value.answers, pre, from, fromNode)
    ensures Truthful(listed, q.write, AnswersOf(q, None), pre, from, fromNode)
  {}

  /** Every step keeps what is known of what the requests have read. */
  lemma ViewsKept(c: QuotaFile, s: State, step: Step)
    requires ValidFile(c) && TaskInv(c, s) && ViewsOk(s.reqs) && Enabled(c, s, step)
    ensures ViewsOk(Apply(c, s, step).reqs)
  {
    if step.ReadStep? {
      ReadIsOk(c, s, step);
      ViewChanged(s.reqs, step.r, Apply(c, s, step).reqs[step.r]);
    } else if Starts(step) {
      StartView(c, s, step);
    } else if step.Arrive? {
      ViewChanged(s.reqs, step.r, Apply(c, s, step).reqs[step.r]);
    } else if UpstreamStep(step) {
      RequestsStand(c, s, step);
    } else {
      PhaseOnly(c, s, step);
      ViewMoved(s.reqs, step.r, Apply(c, s, step).reqs[step.r].phase);
    }
  }

  lemma ViewChanged(reqs: map<int, Request>, r: int, q: Request)
    requires ViewsOk(reqs) && ViewOk(q)
    ensures ViewsOk(reqs[r := q])
  {
    var reqs' := reqs[r := q];
    forall i | i in reqs' ensures ViewOk(reqs'[i]) {
      if i != r { assert ViewOk(reqs[i]); }
    }
  }

  lemma ViewMoved(reqs: map<int, Request>, r: int, p: Phase)
    requires ViewsOk(reqs) && r in reqs && (p.Cleared? ==> reqs[r].view.Some? && DeltaRead(reqs[r]).Some?)
    ensures ViewsOk(reqs[r := reqs[r].(phase := p)])
  {
    assert ViewOk(reqs[r]);
    ViewChanged(reqs, r, reqs[r].(phase := p));
  }

  lemma RequestsStand(c: QuotaFile, s: State, step: Step)
    requires ValidFile(c) && Enabled(c, s, step) && UpstreamStep(step)
    ensures Apply(c, s, step).reqs == s.reqs
  {}

  /** The other steps of a request move it on without clearing it, and that is all. */
  lemma PhaseOnly(c: QuotaFile, s: State, step: Step)
    requires ValidFile(c) && Enabled(c, s, step) && !UpstreamStep(step) && !Starts(step)
    requires !step.Arrive? && !step.ReadStep?
    ensures var reqs := Apply(c, s, step).reqs;
            && step.r in s.reqs && step.r in reqs && !reqs[step.r].phase.Cleared?
            && reqs == s.reqs[step.r := s.reqs[step.r].(phase := reqs[step.r].phase)]
  {}

  lemma StartView(c: QuotaFile, s: State, step: Step)
    requires ValidFile(c) && ViewsOk(s.reqs) && Enabled(c, s, step) && Starts(step)
    ensures ViewsOk(Apply(c, s, step).reqs)
  {
    var r := step.r;
    assert ViewOk(s.reqs[r]);
    if step.DecideStep? {
      DecidedShape(c, s, r, step.used);
      if Decided(c, s, r, step.used) == Release(s, r) { ViewMoved(s.reqs, r, Finished); }
      else { ViewStarted(s.reqs, r, Decided(c, s, r, step.used).reqs[r].task); }
    } else {
      ViewStarted(s.reqs, r, Started(c, s, r).reqs[r].task);
    }
  }

  lemma ViewStarted(reqs: map<int, Request>, r: int, task: Option<Task>)
    requires ViewsOk(reqs) && r in reqs && reqs[r].view.Some? && DeltaRead(reqs[r]).Some?
    ensures ViewsOk(reqs[r := reqs[r].(phase := Cleared, task := task)])
  {
    assert ViewOk(reqs[r]);
    ViewChanged(reqs, r, reqs[r].(phase := Cleared, task := task));
  }

  lemma ReadIsOk(c: QuotaFile, s: State, step: Step)
    requires ValidFile(c) && TaskInv(c, s) && Enabled(c, s, step) && step.ReadStep?
    ensures ViewOk(Apply(c, s, step).reqs[step.r])
  {
    if PreOf(s, s.reqs[step.r]).Some? { assert WellSized(s.guests[s.reqs[step.r].vmid]); }
  }

  lemma TasksReleased(c: QuotaFile, s: State, r: int)
    requires TaskInv(c, s) && r in s.reqs && !s.reqs[r].phase.Finished?
    requires TaskOver(s, r)
    ensures TaskInv(c, Release(s, r))
  {
    TasksMoved(c, s, r, Finished);
    TasksLockFree(c, s.(reqs := WithPhase(s, r, Finished)), s.lock - {s.reqs[r].user});
  }

  lemma TasksDecided(c: QuotaFile, s: State, r: int, used: Option<Usage>)
    requires ValidFile(c) && TaskInv(c, s) && ViewsOk(s.reqs) && Enabled(c, s, DecideStep(r, used))
    ensures TaskInv(c, Decided(c, s, r, used))
  {
    assert RequestOk(s, r) && ViewOk(s.reqs[r]);
    NoTask(c, s, r);
    var s' := Decided(c, s, r, used);
    DecidedShape(c, s, r, used);
    if s' == Release(s, r) {
      TasksReleased(c, s, r);
    } else if s' == s.(reqs := WithPhase(s, r, Cleared)) {
      TasksMoved(c, s, r, Cleared);
    } else {
      NewTaskOk(c, s, r);
      TaskStarted(c, s, r);
    }
  }

  lemma TasksTakenUp(c: QuotaFile, s: State, r: int)
    requires ValidFile(c) && TaskInv(c, s) && ViewsOk(s.reqs) && Enabled(c, s, TakeUp(r))
    ensures TaskInv(c, Started(c, s, r))
  {
    assert ViewOk(s.reqs[r]);
    NewTaskOk(c, s, r);
    TaskStarted(c, s, r);
  }

  /** What a request reads is no part of any task. */
  lemma TasksRead(c: QuotaFile, s: State, r: int, view: View)
    requires TaskInv(c, s) && r in s.reqs
    ensures TaskInv(c, s.(reqs := s.reqs[r := s.reqs[r].(view := Some(view))]))
  {
    var s' := s.(reqs := s.reqs[r := s.reqs[r].(view := Some(view))]);
    forall v | v in s.tasks ensures TaskOk(c, s', v, s'.tasks[v]) { assert TaskOk(c, s, v, s.tasks[v]); }
    forall i | i in s'.reqs ensures RequestOk(s', i) { assert RequestOk(s, i); }
    forall i | i in s.lapsed ensures LostOk(s', i, s.lapsed[i]) { assert LostOk(s, i, s.lapsed[i]); }
  }

  lemma TasksRefused(c: QuotaFile, s: State, r: int)
    requires TaskInv(c, s) && r in s.reqs && s.reqs[r].phase.Cleared?
    ensures TaskInv(c, Release(if s.reqs[r].task.Some? then s.(tasks := s.tasks - {s.reqs[r].vmid}) else s, r))
  {
    if s.reqs[r].task.Some? {
      TaskAnswered(c, s, r);
      TasksLockFree(c, s.(reqs := WithPhase(s, r, Finished), tasks := s.tasks - {s.reqs[r].vmid}),
                    s.lock - {s.reqs[r].user});
    } else {
      NoTask(c, s, r);
      TasksReleased(c, s, r);
    }
  }

  /** No other write at work is the request's. */
  lemma LandedOnce(c: QuotaFile, s: State, vmid: int)
    requires TaskInv(c, s) && vmid in s.tasks
    ensures forall v <- s.tasks - {vmid} :: s.tasks[v].req != s.tasks[vmid].req
  {
    forall v | v in s.tasks - {vmid} ensures s.tasks[v].req != s.tasks[vmid].req {
      assert TaskOk(c, s, v, s.tasks[v]) && TaskOk(c, s, vmid, s.tasks[vmid]);
    }
  }

  lemma TasksApplied(c: QuotaFile, s: State, r: int, g: Guest)
    requires TaskInv(c, s) && r in s.reqs && s.reqs[r].phase.Cleared? && s.reqs[r].task.Some? && WellSized(g)
    requires s.reqs[r].vmid in s.tasks
    ensures TaskInv(c, Release(Landed(s, s.reqs[r].vmid, g), r))
  {
    var v := s.reqs[r].vmid;
    TaskAnswered(c, s, r);
    var s1 := s.(reqs := WithPhase(s, r, Finished), tasks := s.tasks - {v});
    GuestsChanged(c, s1, s.guests[v := g], s.contents);
    var s2 := s1.(guests := s.guests[v := g], contents := s.contents);
    TasksLockFree(c, s2, s.lock - {s.reqs[r].user});
    LandedOnce(c, s, v);
    TasksNoted(c, s2.(lock := s.lock - {s.reqs[r].user}), LapsedWith(s, v, g), AppliedWith(s, v, g));
  }

  lemma TasksSettled(c: QuotaFile, s: State, r: int)
    requires TaskInv(c, s) && r in s.reqs && s.reqs[r].phase.Forwarded? && s.reqs[r].task.Some?
    ensures TaskInv(c, EndSettle(s, r))
  {
    if TaskOver(s, r) {
      TasksReleased(c, s, r);
    } else {
      TasksLapsed(c, s, r);
      TasksLockFree(c, s.(reqs := WithPhase(s, r, Finished), lapsed := s.lapsed[r := LostNow(s, r)]),
                    s.lock - {s.reqs[r].user});
    }
  }

  lemma TasksKept(c: QuotaFile, s: State, step: Step)
    requires ValidFile(c) && TaskInv(c, s) && ViewsOk(s.reqs) && Enabled(c, s, step)
    ensures TaskInv(c, Apply(c, s, step))
  {
    if step.DecideStep? {
      TasksDecided(c, s, step.r, step.used);
    } else if step.TakeUp? {
      TasksTakenUp(c, s, step.r);
    } else if Answers(step) {
      TasksKeptByAnswer(c, s, step);
    } else if UpstreamStep(step) {
      TasksKeptByUpstream(c, s, step);
    } else {
      TasksKeptByRequest(c, s, step);
    }
  }

  lemma TasksKeptByRequest(c: QuotaFile, s: State, step: Step)
    requires ValidFile(c) && TaskInv(c, s) && Enabled(c, s, step)
    requires step.Arrive? || step.Acquire? || step.ReadStep? || step.Accept?
    ensures TaskInv(c, Apply(c, s, step))
  {
    match step
    case Arrive(r, user, write, vmid) => TasksArrived(c, s, r, Apply(c, s, step).reqs[r]);
    case Acquire(r) =>
      assert RequestOk(s, r);
      NoTask(c, s, r);
      TasksMoved(c, s, r, Holding);
      TasksLockFree(c, s.(reqs := WithPhase(s, r, Holding)), s.lock[s.reqs[r].user := r]);
    case ReadStep(r, answers, from, fromNode, listed) =>
      TasksRead(c, s, r, View(PreOf(s, s.reqs[r]), answers, from, fromNode, listed));
    case Accept(r) => TasksMoved(c, s, r, Forwarded);
  }

  lemma TasksKeptByAnswer(c: QuotaFile, s: State, step: Step)
    requires ValidFile(c) && TaskInv(c, s) && Enabled(c, s, step) && Answers(step)
    ensures TaskInv(c, Apply(c, s, step))
  {
    if step.RefusedUpstream? {
      TasksRefused(c, s, step.r);
    } else if step.AcceptApplied? {
      TasksApplied(c, s, step.r, step.g);
    } else {
      assert RequestOk(s, step.r);
      TasksSettled(c, s, step.r);
    }
  }

  lemma TasksLanded(c: QuotaFile, s: State, vmid: int, g: Guest)
    requires TaskInv(c, s) && vmid in s.tasks && WellSized(g) && !s.reqs[s.tasks[vmid].req].phase.Cleared?
    ensures TaskInv(c, Landed(s, vmid, g))
  {
    TaskGone(c, s, vmid);
    var gone := s.(tasks := s.tasks - {vmid});
    GuestsChanged(c, gone, s.guests[vmid := g], s.contents);
    LandedOnce(c, s, vmid);
    TasksNoted(c, gone.(guests := s.guests[vmid := g], contents := s.contents),
               LapsedWith(s, vmid, g), AppliedWith(s, vmid, g));
  }

  lemma TasksKeptByUpstream(c: QuotaFile, s: State, step: Step)
    requires ValidFile(c) && TaskInv(c, s) && Enabled(c, s, step)
    requires UpstreamStep(step)
    ensures TaskInv(c, Apply(c, s, step))
  {
    match step
    case Land(vmid, g) => TasksLanded(c, s, vmid, g);
    case FailTask(vmid) => TaskGone(c, s, vmid);
    case Destroy(vmid) => GuestsChanged(c, s, s.guests - {vmid}, s.contents);
    case ShrinkGuest(vmid, g) => GuestShrinks(c, s, vmid, g);
    case ShrinkContents(contents) => GuestsChanged(c, s, s.guests, contents);
  }

  // ---------------------------------------------------------------- runs

  /** Step number `i` of a run is enabled where it is taken, and leads to the next state. */
  ghost predicate StepAt(c: QuotaFile, states: seq<State>, steps: seq<Step>, i: int)
    requires ValidFile(c) && |states| == |steps| + 1 && 0 <= i < |steps|
  {
    Enabled(c, states[i], steps[i]) && states[i + 1] == Apply(c, states[i], steps[i])
  }

  /** A run: every step is enabled where it is taken. */
  ghost predicate IsRun(c: QuotaFile, states: seq<State>, steps: seq<Step>)
    requires ValidFile(c)
  {
    |states| == |steps| + 1 && forall i :: 0 <= i < |steps| ==> StepAt(c, states, steps, i)
  }

  /** Where a run starts: any guests and volumes of non-negative size, and nothing under way. */
  ghost predicate Fresh(s: State) {
    && s.reqs == map[] && s.lock == map[] && s.tasks == map[] && s.lapsed == map[] && s.applied == []
    && NonNegativeContents(s.contents)
    && forall v <- s.guests :: WellSized(s.guests[v])
  }

  /** The locks, the tasks and what was read are in order in every state of every run. */
  lemma {:induction false} RunShape(c: QuotaFile, states: seq<State>, steps: seq<Step>, n: nat)
    requires ValidFile(c) && IsRun(c, states, steps) && Fresh(states[0]) && n <= |steps|
    ensures LockInv(c, states[n]) && TaskInv(c, states[n]) && ViewsOk(states[n].reqs)
  {
    if n > 0 {
      RunShape(c, states, steps, n - 1);
      NextShape(c, states, steps, n - 1);
    }
  }

  lemma NextShape(c: QuotaFile, states: seq<State>, steps: seq<Step>, n: nat)
    requires ValidFile(c) && IsRun(c, states, steps) && n < |steps|
    requires LockInv(c, states[n]) && TaskInv(c, states[n]) && ViewsOk(states[n].reqs)
    ensures LockInv(c, states[n + 1]) && TaskInv(c, states[n + 1]) && ViewsOk(states[n + 1].reqs)
  {
    assert StepAt(c, states, steps, n);
    LockKept(c, states[n], steps[n]);
    TasksKept(c, states[n], steps[n]);
    ViewsKept(c, states[n], steps[n]);
  }
}
