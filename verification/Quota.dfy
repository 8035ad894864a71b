/** The quota file: validation and hot reload, after internal/quota/quota.go. */
module Quota {
  import opened Wrappers

  datatype NodeOverride = NodeOverride(
    cores: Option<int>, memoryMiB: Option<int>, instances: Option<int>, diskGiB: Option<map<string, int>>)

  datatype UserQuota = UserQuota(
    pool: string, cores: int, memoryMiB: int, instances: int,
    diskGiB: map<string, int>, nodes: map<string, NodeOverride>)

  /** The whole file; a user whose record is empty maps to `None`. */
  datatype QuotaFile = QuotaFile(version: int, users: map<string, Option<UserQuota>>)

  predicate PoolChar(c: char) {
    'A' <= c <= 'Z' || 'a' <= c <= 'z' || '0' <= c <= '9' || c == '.' || c == '_' || c == '-'
  }

  predicate WellFormedPool(pool: string) {
    pool != "" && forall i :: 0 <= i < |pool| ==> PoolChar(pool[i])
  }

  predicate NonNegativeDisk(disk: map<string, int>) {
    forall st <- disk :: disk[st] >= 0
  }

  predicate ValidRecord(r: Option<UserQuota>) {
    && r.Some? && WellFormedPool(r.value.pool)
    && r.value.cores >= 0 && r.value.memoryMiB >= 0 && r.value.instances >= 0
    && NonNegativeDisk(r.value.diskGiB)
  }

  predicate SharePool(c: QuotaFile, a: string, b: string) {
    && a in c.users && b in c.users && c.users[a].Some? && c.users[b].Some?
    && c.users[a].value.pool == c.users[b].value.pool
  }

  /** What a quota file promises the accounting: in particular no two users share a pool. */
  ghost predicate ValidFile(c: QuotaFile) {
    && c.version == 0
    && (forall u <- c.users :: ValidRecord(c.users[u]))
    && (forall a, b :: SharePool(c, a, b) ==> a == b)
  }

  datatype Rejection =
    | UnsupportedVersion
    | EmptyRecord(user: string)
    | BadPool(user: string)
    | PoolClaimedTwice(pool: string, one: string, other: string)
    | NegativeLimit(user: string)

  /** What an error message of `Validate` claims about the file. */
  predicate Justified(c: QuotaFile, e: Rejection) {
    match e
    case UnsupportedVersion => c.version != 0
    case EmptyRecord(u) => u in c.users && c.users[u].None?
    case BadPool(u) => u in c.users && c.users[u].Some? && !WellFormedPool(c.users[u].value.pool)
    case PoolClaimedTwice(pool, a, b) => a != b && SharePool(c, a, b) && c.users[a].value.pool == pool
    case NegativeLimit(u) =>
      && u in c.users && c.users[u].Some?
      && var q := c.users[u].value; q.cores < 0 || q.memoryMiB < 0 || q.instances < 0 || !NonNegativeDisk(q.diskGiB)
  }

  /** A file is valid exactly when there is nothing to report about it. */
  lemma ValidExactly(c: QuotaFile)
    ensures ValidFile(c) <==> forall e :: !Justified(c, e)
  {
    if !ValidFile(c) {
      if a, b :| SharePool(c, a, b) && a != b {
        assert Justified(c, PoolClaimedTwice(c.users[a].value.pool, a, b));
      } else if u :| u in c.users && !ValidRecord(c.users[u]) {
        assert Justified(c, EmptyRecord(u)) || Justified(c, BadPool(u)) || Justified(c, NegativeLimit(u));
      } else {
        assert Justified(c, UnsupportedVersion);
      }
    }
  }

  method AllNonNegative(disk: map<string, int>) returns (ok: bool)
    ensures ok <==> NonNegativeDisk(disk)
  {
    var todo := disk.Keys;
    while todo != {}
      invariant todo <= disk.Keys
      invariant forall st <- disk.Keys - todo :: disk[st] >= 0
      decreases todo
    {
      var st :| st in todo;
      if disk[st] < 0 { return false; }
      todo := todo - {st};
    }
    return true;
  }

  /** `Validate` accepts exactly the valid files, whatever the order of the users, and what it
      reports otherwise is true of the file. */
  method Validate(c: QuotaFile) returns (err: Option<Rejection>)
    ensures err.None? <==> ValidFile(c)
    ensures err.None? <==> forall e :: !Justified(c, e)
    ensures err.Some? ==> Justified(c, err.value)
  {
    ValidExactly(c);
    if c.version != 0 { return Some(UnsupportedVersion); }
    var pools: map<string, string> := map[];
    var todo := c.users.Keys;
    while todo != {}
      invariant todo <= c.users.Keys
      invariant forall u <- c.users.Keys - todo :: ValidRecord(c.users[u])
      invariant forall u <- c.users.Keys - todo ::
                  c.users[u].value.pool in pools && pools[c.users[u].value.pool] == u
      invariant forall p <- pools ::
                  pools[p] in c.users.Keys - todo && c.users[pools[p]].value.pool == p
      decreases todo
    {
      var u :| u in todo;
      if c.users[u].None? { return Some(EmptyRecord(u)); }
      var q := c.users[u].value;
      if !WellFormedPool(q.pool) { return Some(BadPool(u)); }
      if q.pool in pools {
        assert SharePool(c, pools[q.pool], u);
        return Some(PoolClaimedTwice(q.pool, pools[q.pool], u));
      }
      pools := pools[q.pool := u];
      if q.cores < 0 || q.memoryMiB < 0 || q.instances < 0 { return Some(NegativeLimit(u)); }
      var ok := AllNonNegative(q.diskGiB);
      if !ok { return Some(NegativeLimit(u)); }
      todo := todo - {u};
    }
    return None;
  }

  /** Under one valid file, users with different locks account different pools. */
  lemma LocksArePoolLocks(c: QuotaFile, a: string, b: string)
    requires ValidFile(c) && a in c.users && b in c.users
    ensures c.users[a].value.pool == c.users[b].value.pool <==> a == b
  {
    assert SharePool(c, a, b) <==> c.users[a].value.pool == c.users[b].value.pool;
  }

  // ---------------------------------------------------------------- hot reload

  /** A file as it is on disk: its modification time, and its contents once decoded
      (`None` when the YAML itself is broken). */
  datatype File = File(mtime: int, decoded: Option<QuotaFile>)

  /** Go's zero time, which no file has. */
  const ZERO_TIME := 0

  ghost predicate Good(decoded: Option<QuotaFile>) {
    decoded.Some? && ValidFile(decoded.value)
  }

  /** What `read` returns for a stat and a read of the contents, either of which may fail: the config
      when there is one, and the time that goes with the outcome. */
  ghost function ReadOutcome(stat: Option<int>, data: Option<Option<QuotaFile>>): (Option<QuotaFile>, int) {
    if stat.None? || data.None? then (None, ZERO_TIME)
    else if Good(data.value) then (data.value, stat.value)
    else (None, stat.value)
  }

  /** The store after a read: a good config replaces the old one, the time is recorded either way. */
  ghost function AfterRead(cfg: QuotaFile, stat: Option<int>, data: Option<Option<QuotaFile>>): (QuotaFile, int) {
    var outcome := ReadOutcome(stat, data);
    (if outcome.0.Some? then outcome.0.value else cfg, outcome.1)
  }

  method Read(stat: Option<int>, data: Option<Option<QuotaFile>>) returns (cfg: Option<QuotaFile>, mtime: int)
    ensures (cfg, mtime) == ReadOutcome(stat, data)
    ensures cfg.Some? <==> stat.Some? && data.Some? && data.value.Some? && ValidFile(data.value.value)
    ensures cfg.Some? ==> cfg == data.value
    ensures mtime == if stat.Some? && data.Some? then stat.value else ZERO_TIME
  {
    if stat.None? || data.None? { return None, ZERO_TIME; }
    if data.value.None? { return None, stat.value; }
    var err := Validate(data.value.value);
    return if err.None? then data.value else None, stat.value;
  }

  class Store {
    var cfg: QuotaFile
    var mtime: int

    ghost predicate Valid()
      reads this
    {
      ValidFile(cfg)
    }

    /** `Open`: the caller checked that the first read gave a config. */
    constructor Open(first: QuotaFile, mtime: int)
      requires ValidFile(first)
      ensures Valid() && cfg == first && this.mtime == mtime
    {
      cfg, this.mtime := first, mtime;
    }

    /** One tick of `Watch`: the polled time, then the stat and the contents of `read`. */
    method Tick(polled: Option<int>, stat: Option<int>, data: Option<Option<QuotaFile>>)
      requires Valid()
      modifies this
      ensures Valid()
      ensures (cfg, mtime) ==
              if polled.None? || polled.value == old(mtime) then (old(cfg), old(mtime))
              else AfterRead(old(cfg), stat, data)
    {
      if polled.None? || polled.value == mtime { return; }
      var loaded, mt := Read(stat, data);
      if loaded.Some? { cfg := loaded.value; }
      mtime := mt;
    }

    /** `Get`: the user's record, or nothing (default deny). */
    function Get(user: string): (q: Option<UserQuota>)
      requires Valid()
      reads this
      ensures q.Some? <==> user in cfg.users
      ensures q.Some? ==> ValidRecord(q)
    {
      if user in cfg.users then cfg.users[user] else None
    }
  }

  // ---------------------------------------------------------------- reload runs

  datatype WatchPhase = Idle | Polled | Statted(at: nat) | Loaded(at: nat, from: nat)

  /** The watcher interleaved with whoever edits the file. `versions` is everything the file has been,
      the last one being what it is now. The indices in a phase say which version a step saw. */
  datatype Watcher = Watcher(versions: seq<File>, cfg: QuotaFile, mtime: int, phase: WatchPhase)

  function Now(w: Watcher): File
    requires w.versions != []
  {
    w.versions[|w.versions| - 1]
  }

  datatype WatchStep =
    | Edit(file: File)       // someone replaces the file
    | Poll                   // stat, compared with the recorded time
    | Stat                   // the stat inside read
    | Load                   // the read of the contents
    | Commit                 // the outcome is stored
    | Fail                   // the stat or the read inside read fails

  /** One step; a step that is not enabled leaves the watcher as it is. */
  ghost function Step(w: Watcher, step: WatchStep): (w': Watcher)
    requires w.versions != []
    ensures w'.versions != []
  {
    var last := |w.versions| - 1;
    match step
    case Edit(file) => w.(versions := w.versions + [file])
    case Poll => if w.phase.Idle? && Now(w).mtime != w.mtime then w.(phase := Polled) else w
    case Stat => if w.phase.Polled? then w.(phase := Statted(last)) else w
    case Load => if w.phase.Statted? then w.(phase := Loaded(w.phase.at, last)) else w
    case Fail =>
      if w.phase.Polled? || w.phase.Statted? then w.(phase := Idle, mtime := AfterRead(w.cfg, None, None).1) else w
    case Commit =>
      if w.phase.Loaded? && w.phase.at <= w.phase.from < |w.versions| then
        var after := AfterRead(w.cfg, Some(w.versions[w.phase.at].mtime), Some(w.versions[w.phase.from].decoded));
        w.(cfg := after.0, mtime := after.1, phase := Idle)
      else w
  }

  ghost function Run(w: Watcher, steps: seq<WatchStep>): (w': Watcher)
    requires w.versions != []
    ensures w'.versions != []
  {
    if steps == [] then w else Step(Run(w, steps[..|steps| - 1]), steps[|steps| - 1])
  }

  /** The store right after `Open`, whose stat saw version `at` and whose read of the contents saw the
      good version `from`. */
  ghost predicate OpenedAt(w: Watcher, at: nat, from: nat) {
    && w.phase.Idle? && at <= from < |w.versions| && w.mtime == w.versions[at].mtime
    && Good(w.versions[from].decoded) && w.cfg == w.versions[from].decoded.value
  }

  ghost predicate Opened(w: Watcher) {
    exists at, from :: OpenedAt(w, at, from)
  }

  /** No version of the file has the zero time. */
  predicate Timed(versions: seq<File>) {
    forall i :: 0 <= i < |versions| ==> versions[i].mtime != ZERO_TIME
  }

  predicate DistinctTimes(versions: seq<File>) {
    forall i, j :: 0 <= i < j < |versions| ==> versions[i].mtime != versions[j].mtime
  }

  /** What a store can hold: the time of version `at`, and the config of version `held`, which is what
      the read with that stat saw (`from`), unless that was broken and left an older config in place. */
  ghost predicate Recorded(w: Watcher, at: nat, from: nat, held: nat) {
    && at <= from < |w.versions| && (w.mtime == w.versions[at].mtime || w.mtime == ZERO_TIME)
    && Held(w, held) && (held == from || !Good(w.versions[from].decoded) || w.mtime == ZERO_TIME)
  }

  ghost predicate Held(w: Watcher, held: nat) {
    held < |w.versions| && Good(w.versions[held].decoded) && w.cfg == w.versions[held].decoded.value
  }

  ghost predicate WatchInv(w: Watcher) {
    && (exists at, from, held :: Recorded(w, at, from, held))
    && (w.phase.Statted? ==> w.phase.at < |w.versions|)
    && (w.phase.Loaded? ==> w.phase.at <= w.phase.from < |w.versions|)
  }

  lemma StepKeeps(w: Watcher, step: WatchStep)
    requires WatchInv(w)
    ensures WatchInv(Step(w, step))
  {
    var w' := Step(w, step);
    var at, from, held :| Recorded(w, at, from, held);
    if step.Commit? && w.phase.Loaded? {
      var good := Good(w.versions[w.phase.from].decoded);
      assert Recorded(w', w.phase.at, w.phase.from, if good then w.phase.from else held);
    } else {
      assert Recorded(w', at, from, held);
    }
  }

  lemma {:induction false} RunKeeps(w: Watcher, steps: seq<WatchStep>)
    requires Opened(w)
    ensures WatchInv(Run(w, steps))
  {
    if steps == [] {
      var at, from :| OpenedAt(w, at, from);
      assert Recorded(w, at, from, from);
    } else {
      RunKeeps(w, steps[..|steps| - 1]);
      StepKeeps(Run(w, steps[..|steps| - 1]), steps[|steps| - 1]);
    }
  }

  /** Over this history of the file a store can come to record the last version's time and hold another
      config: an earlier version has the same time, and either a good version with other contents
      follows it before the last (it may be that version itself), or a broken one does and there is an
      older good version with other contents. */
  ghost predicate CanMiss(h: seq<File>) {
    exists at, from, held :: MissedBy(h, at, from, held)
  }

  ghost predicate MissedBy(h: seq<File>, at: nat, from: nat, held: nat) {
    && at <= from < |h| - 1 && held < |h| - 1 && h[at].mtime == h[|h| - 1].mtime
    && Good(h[held].decoded) && h[held].decoded != h[|h| - 1].decoded
    && (held == from || !Good(h[from].decoded))
  }

  lemma DistinctTimesSuffice(h: seq<File>)
    requires DistinctTimes(h)
    ensures !CanMiss(h)
  {}

  /** Hot reload never serves a bad config: in every run a valid config is held. And it never loses an
      update, unless the history of the file lets it: while the recorded time is that of the file as it
      is now, and the file is good, the config held is exactly that file. */
  lemma ReloadNeverLosesAnUpdate(w: Watcher, steps: seq<WatchStep>)
    requires Opened(w)
    ensures var w' := Run(w, steps);
            && ValidFile(w'.cfg)
            && (Timed(w'.versions) && !CanMiss(w'.versions) && w'.mtime == Now(w').mtime && Good(Now(w').decoded) ==>
                  w'.cfg == Now(w').decoded.value)
  {
    var w' := Run(w, steps);
    RunKeeps(w, steps);
    var at, from, held :| Recorded(w', at, from, held);
    if Timed(w'.versions) && !CanMiss(w'.versions) && w'.mtime == Now(w').mtime && Good(Now(w').decoded) {
      assert !MissedBy(w'.versions, at, from, held);
    }
  }

  /** The run ends with an idle watcher that has recorded the time of the file as it is now, which is
      good, and holds something else. */
  ghost predicate MissesUpdate(w: Watcher, steps: seq<WatchStep>, h: seq<File>) {
    && Opened(w) && w.versions != []
    && var w' := Run(w, steps);
       && w'.versions == h && w'.phase.Idle?
       && w'.mtime == Now(w').mtime && Good(Now(w').decoded) && w'.cfg != Now(w').decoded.value
  }

  ghost predicate Leads(w: Watcher, w': Watcher) {
    w.versions != [] && exists steps :: Run(w, steps) == w'
  }

  lemma LeadsOn(w: Watcher, mid: Watcher, step: WatchStep)
    requires Leads(w, mid)
    ensures mid.versions != [] && Leads(w, Step(mid, step))
  {
    var steps :| Run(w, steps) == mid;
    assert (steps + [step])[..|steps|] == steps;
    assert Run(w, steps + [step]) == Step(mid, step);
  }

  lemma {:induction false} LeadsEdited(w: Watcher, mid: Watcher, h: seq<File>, from: nat, to: nat)
    requires Leads(w, mid) && 0 < from <= to <= |h| && mid.versions == h[..from]
    ensures Leads(w, mid.(versions := h[..to]))
  {
    if from == to {
      assert mid == mid.(versions := h[..to]);
    } else {
      LeadsEdited(w, mid, h, from, to - 1);
      LeadsOn(w, mid.(versions := h[..to - 1]), Edit(h[to - 1]));
      assert h[..to] == h[..to - 1] + [h[to - 1]];
    }
  }

  /** A run that comes to hold another config with the last version's time, and never looks at the file
      again. */
  lemma Misses(w: Watcher, mid: Watcher, h: seq<File>, n: nat)
    requires Opened(w) && Leads(w, mid) && 0 < n <= |h| && mid.versions == h[..n] && mid.phase.Idle?
    requires mid.mtime == h[|h| - 1].mtime && Good(h[|h| - 1].decoded) && mid.cfg != h[|h| - 1].decoded.value
    ensures exists w, steps :: MissesUpdate(w, steps, h)
  {
    LeadsEdited(w, mid, h, n, |h|);
    assert h[..|h|] == h;
    var steps :| Run(w, steps) == mid.(versions := h);
    assert MissesUpdate(w, steps, h);
  }

  /** It was opened between two versions. */
  lemma MissAtOpen(h: seq<File>, at: nat, held: nat)
    requires at <= held < |h| - 1 && h[at].mtime == h[|h| - 1].mtime && Good(h[|h| - 1].decoded)
    requires Good(h[held].decoded) && h[held].decoded != h[|h| - 1].decoded
    ensures exists w, steps :: MissesUpdate(w, steps, h)
  {
    var w := Watcher(h[..held + 1], h[held].decoded.value, h[at].mtime, Idle);
    assert OpenedAt(w, at, held);
    assert Run(w, []) == w;
    Misses(w, w, h, held + 1);
  }

  /** Or it was opened on `held`, and reloaded a broken version after a stat of `at`. */
  lemma MissAfterBroken(h: seq<File>, at: nat, from: nat, held: nat)
    requires MissedBy(h, at, from, held) && held < at && h[held].mtime != h[at].mtime
    requires Good(h[|h| - 1].decoded)
    ensures exists w, steps :: MissesUpdate(w, steps, h)
  {
    var w := Watcher(h[..held + 1], h[held].decoded.value, h[held].mtime, Idle);
    assert OpenedAt(w, held, held);
    LeadsAfterBroken(w, h, at, from, held);
    Misses(w, w.(versions := h[..from + 1], mtime := h[at].mtime), h, from + 1);
  }

  lemma LeadsAfterBroken(w: Watcher, h: seq<File>, at: nat, from: nat, held: nat)
    requires held < at <= from < |h| && w.versions == h[..held + 1] && w.phase.Idle?
    requires w.mtime != h[at].mtime && !Good(h[from].decoded)
    ensures Leads(w, w.(versions := h[..from + 1], mtime := h[at].mtime))
  {
    LeadsToStatted(w, h, at, held);
    var statted := w.(versions := h[..at + 1], phase := Statted(at));
    LeadsEdited(w, statted, h, at + 1, from + 1);
    LeadsToBroken(w, statted.(versions := h[..from + 1]));
  }

  lemma LeadsToStatted(w: Watcher, h: seq<File>, at: nat, held: nat)
    requires held < at < |h| && w.versions == h[..held + 1] && w.phase.Idle? && w.mtime != h[at].mtime
    ensures Leads(w, w.(versions := h[..at + 1], phase := Statted(at)))
  {
    assert Run(w, []) == w;
    LeadsEdited(w, w, h, held + 1, at + 1);
    LeadsToStat(w, w.(versions := h[..at + 1]));
  }

  lemma LeadsToStat(w: Watcher, mid: Watcher)
    requires Leads(w, mid) && mid.versions != [] && mid.phase.Idle? && Now(mid).mtime != mid.mtime
    ensures Leads(w, mid.(phase := Statted(|mid.versions| - 1)))
  {
    LeadsOn(w, mid, Poll);
    LeadsOn(w, mid.(phase := Polled), Stat);
  }

  lemma LeadsToBroken(w: Watcher, mid: Watcher)
    requires Leads(w, mid) && mid.versions != [] && mid.phase.Statted? && mid.phase.at < |mid.versions|
    requires !Good(Now(mid).decoded)
    ensures Leads(w, mid.(mtime := mid.versions[mid.phase.at].mtime, phase := Idle))
  {
    LeadsOn(w, mid, Load);
    LeadsOn(w, mid.(phase := Loaded(mid.phase.at, |mid.versions| - 1)), Commit);
  }

  /** Exactly the histories that let it do so have a run that loses the last update. */
  lemma UpdateLostExactly(h: seq<File>)
    requires h != [] && Timed(h) && Good(h[|h| - 1].decoded)
    ensures (exists w, steps :: MissesUpdate(w, steps, h)) <==> CanMiss(h)
  {
    if w, steps :| MissesUpdate(w, steps, h) { ReloadNeverLosesAnUpdate(w, steps); }
    if at: nat, from: nat, held: nat :| MissedBy(h, at, from, held) {
      if held < at && h[held].mtime != h[at].mtime {
        MissAfterBroken(h, at, from, held);
      } else {
        MissAtOpen(h, if held < at then held else at, held);
      }
    }
  }

  /** A good new version with the old modification time is lost for good: no further step of the
      watcher changes anything until the file is edited again. */
  lemma {:induction false} SameTimeLosesTheUpdate(w: Watcher, file: File, steps: seq<WatchStep>)
    requires Opened(w) && Good(file.decoded) && file.decoded.value != w.cfg && file.mtime == w.mtime
    requires forall s <- steps :: !s.Edit?
    ensures var edited := Step(w, Edit(file));
            Run(edited, steps) == edited && Good(Now(edited).decoded) && edited.cfg != Now(edited).decoded.value
  {
    if steps != [] {
      SameTimeLosesTheUpdate(w, file, steps[..|steps| - 1]);
      assert !steps[|steps| - 1].Edit?;
    }
  }

  /** Four undisturbed steps after an edit bring the store up to date. */
  lemma ReloadCatchesUp(w: Watcher)
    requires WatchInv(w) && w.phase.Idle? && Now(w).mtime != w.mtime && Good(Now(w).decoded)
    ensures var w' := Step(Step(Step(Step(w, Poll), Stat), Load), Commit);
            w'.cfg == Now(w).decoded.value && w'.mtime == Now(w).mtime && w'.phase.Idle?
  {}
}
