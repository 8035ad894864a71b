/** The accounting scan of internal/usage/engine.go, over an upstream that may change between reads. */
module Engine {
  import opened Wrappers
  import opened MapSums
  import opened Accounting

  datatype Member = Member(vmid: int, node: string, kind: string)

  /** The requests whose answers can fail. */
  datatype Query =
    | PoolMembersOf(pool: string)
    | ConfigOf(node: string, kind: string, vmid: int)
    | ContentOf(node: string, storage: string)

  /** One state of the upstream, and the requests it cannot answer in that state. */
  datatype Api = Api(
    members: map<string, seq<Member>>,
    configs: map<(string, string, int), Config>,
    contents: Contents,
    down: set<Query>)

  predicate IsGuest(m: Member) {
    m.kind == "qemu" || m.kind == "lxc"
  }

  function KeyOf(m: Member): (string, string, int) {
    (m.node, m.kind, m.vmid)
  }

  function ReadMembers(api: Api, pool: string): Option<seq<Member>> {
    if pool in api.members && PoolMembersOf(pool) !in api.down then Some(api.members[pool]) else None
  }

  function ReadConfig(api: Api, node: string, kind: string, vmid: int): Option<Config> {
    if (node, kind, vmid) in api.configs && ConfigOf(node, kind, vmid) !in api.down
    then Some(api.configs[(node, kind, vmid)]) else None
  }

  function ReadContent(api: Api, node: string, storage: string): Option<map<string, int>> {
    if (node, storage) in api.contents && ContentOf(node, storage) !in api.down
    then Some(api.contents[(node, storage)]) else None
  }

  /** The listings that can be read: an unreadable one counts as empty. */
  function Visible(api: Api): Contents {
    map p | p in api.contents && ContentOf(p.0, p.1) !in api.down :: api.contents[p]
  }

  /** Which is to say that its volumes are missing and no other ones are. */
  lemma UnreadableIsEmpty(api: Api, node: string, ref: Ref)
    ensures Lookup(Visible(api), node, ref) ==
            if ContentOf(node, ref.storage) in api.down then 0 else Lookup(api.contents, node, ref)
  {}

  function MembersIn(api: Api, pool: string): set<Member> {
    if pool in api.members then MemberSet(api.members[pool]) else {}
  }

  // ---------------------------------------------------------------- the plain totals

  ghost function MemberTerm(contents: Contents, api: Api, m: Member, d: Dim): int {
    if IsGuest(m) && KeyOf(m) in api.configs then Foot(contents, m.node, m.kind, api.configs[KeyOf(m)], d) else 0
  }

  ghost function TotalMap(contents: Contents, api: Api, ms: set<Member>, d: Dim): map<Member, int> {
    map m | m in ms :: MemberTerm(contents, api, m, d)
  }

  /** The sum of the footprints of the guests among `ms`. */
  ghost function TotalOver(contents: Contents, api: Api, ms: set<Member>, d: Dim): int {
    Sum(TotalMap(contents, api, ms, d))
  }

  /** The usage of a pool: the sum over its members, with the true listings. */
  ghost function PoolTotal(api: Api, pool: string, d: Dim): int {
    TotalOver(api.contents, api, MembersIn(api, pool), d)
  }

  predicate NoDuplicates<T(==)>(s: seq<T>) {
    forall i, j :: 0 <= i < j < |s| ==> s[i] != s[j]
  }

  /** The sum over a list of members, counting a member as often as it is listed. */
  ghost function ListTotal(contents: Contents, api: Api, ms: seq<Member>, d: Dim): int {
    if ms == [] then 0
    else ListTotal(contents, api, ms[..|ms| - 1], d) + MemberTerm(contents, api, ms[|ms| - 1], d)
  }

  lemma ListAppend(contents: Contents, api: Api, ms: seq<Member>, m: Member, d: Dim)
    ensures ListTotal(contents, api, ms + [m], d) == ListTotal(contents, api, ms, d) + MemberTerm(contents, api, m, d)
  {
    assert (ms + [m])[..|ms|] == ms;
  }

  function MemberSet(ms: seq<Member>): set<Member> {
    set m | m in ms
  }

  /** Members listed once each: the sum over the list, in any order, is the sum over the members. */
  lemma {:induction false} ListedOnce(contents: Contents, api: Api, ms: seq<Member>, d: Dim)
    requires NoDuplicates(ms)
    ensures ListTotal(contents, api, ms, d) == TotalOver(contents, api, MemberSet(ms), d)
  {
    if ms == [] {
      SumZero(TotalMap(contents, api, MemberSet(ms), d));
    } else {
      var rest, last := ms[..|ms| - 1], ms[|ms| - 1];
      ListedOnce(contents, api, rest, d);
      LastMember(ms);
      TotalAdd(contents, api, MemberSet(rest), last, d);
    }
  }

  lemma LastMember(ms: seq<Member>)
    requires ms != [] && NoDuplicates(ms)
    ensures var rest, last := ms[..|ms| - 1], ms[|ms| - 1];
            MemberSet(ms) == MemberSet(rest) + {last} && last !in MemberSet(rest)
  {
    assert ms == ms[..|ms| - 1] + [ms[|ms| - 1]];
  }

  lemma TotalAdd(contents: Contents, api: Api, ms: set<Member>, m: Member, d: Dim)
    requires m !in ms
    ensures TotalOver(contents, api, ms + {m}, d) == TotalOver(contents, api, ms, d) + MemberTerm(contents, api, m, d)
  {
    SumChange(TotalMap(contents, api, ms, d), TotalMap(contents, api, ms + {m}, d), m);
  }

  // ---------------------------------------------------------------- the cache key

  function CacheKey(node: string, storage: string): string {
    node + "/" + storage
  }

  predicate SlashFree(s: string) {
    '/' !in s
  }

  /** Exactly when two listings share a cache slot: they are the same, or one node name continues
      the other with a slash and the storage names make up the difference. */
  lemma CacheKeyCollision(n1: string, s1: string, n2: string, s2: string)
    requires |n1| <= |n2|
    ensures CacheKey(n1, s1) == CacheKey(n2, s2) <==>
            (n1 == n2 && s1 == s2) ||
            (exists t :: n2 == n1 + "/" + t && s1 == t + "/" + s2)
  {
    var k1, k2 := CacheKey(n1, s1), CacheKey(n2, s2);
    if k1 == k2 {
      assert n1 == k1[..|n1|] && n2 == k2[..|n2|];
      assert s1 == k1[|n1| + 1..] && s2 == k2[|n2| + 1..];
      if |n1| < |n2| {
        var t := n2[|n1| + 1..];
        assert n2[|n1|] == k1[|n1|];
        assert n2 == n1 + "/" + t;
        assert s1 == k2[|n1| + 1..] == t + "/" + s2;
      }
    }
    if t :| n2 == n1 + "/" + t && s1 == t + "/" + s2 {
      assert k1 == n1 + "/" + (t + "/" + s2) == (n1 + "/" + t) + "/" + s2 == k2;
    }
  }

  lemma SlashInside(head: string, tail: string)
    ensures !SlashFree(head + "/" + tail)
  {
    assert (head + "/" + tail)[|head|] == '/';
  }

  /** Node names without a slash make the cache key injective. */
  lemma CacheKeyInjective(n1: string, s1: string, n2: string, s2: string)
    requires SlashFree(n1) && SlashFree(n2)
    ensures CacheKey(n1, s1) == CacheKey(n2, s2) <==> n1 == n2 && s1 == s2
  {
    forall t ensures n2 != n1 + "/" + t && n1 != n2 + "/" + t {
      SlashInside(n1, t); SlashInside(n2, t);
    }
    if |n1| <= |n2| { CacheKeyCollision(n1, s1, n2, s2); } else { CacheKeyCollision(n2, s2, n1, s1); }
  }

  /** Nodes whose listings never share a cache slot. */
  ghost predicate Separable(nodes: iset<string>) {
    forall n1 <- nodes, n2 <- nodes, s1, s2 :: CacheKey(n1, s1) == CacheKey(n2, s2) ==> n1 == n2 && s1 == s2
  }

  lemma SlashFreeSeparable()
    ensures Separable(iset n: string | SlashFree(n))
  {
    forall n1, n2, s1, s2 | SlashFree(n1) && SlashFree(n2) && CacheKey(n1, s1) == CacheKey(n2, s2)
      ensures n1 == n2 && s1 == s2
    {
      CacheKeyInjective(n1, s1, n2, s2);
    }
  }

  /** One node alone is always separable, whatever its name. */
  lemma OneNodeSeparable(node: string)
    ensures Separable(iset{node})
  {
    forall s1, s2 | CacheKey(node, s1) == CacheKey(node, s2) ensures s1 == s2 {
      assert s1 == CacheKey(node, s1)[|node| + 1..];
    }
  }

  // ---------------------------------------------------------------- upstreams

  /** Read number `t` is answered from the state `up(t)`. */
  type Upstream = nat -> Api

  ghost predicate Fixed(up: Upstream) {
    forall t: nat :: up(t) == up(0)
  }

  ghost predicate NonNegativeContents(contents: Contents) {
    forall node, ref :: Lookup(contents, node, ref) >= 0
  }

  /** No volume is larger, and none is there that was not. */
  ghost predicate SmallerListings(a: Contents, b: Contents) {
    forall node, ref :: Lookup(a, node, ref) <= Lookup(b, node, ref)
  }

  /** Quantities of the pool are non-negative, whatever the listings. */
  ghost predicate NonNegative(api: Api) {
    && NonNegativeContents(api.contents)
    && forall m, contents, d | KeyOf(m) in api.configs && NonNegativeContents(contents) ::
         Foot(contents, m.node, m.kind, api.configs[KeyOf(m)], d) >= 0
  }

  /** From `a` to `b` members only leave the pool, and footprints and volumes only shrink. */
  ghost predicate Shrinks(a: Api, b: Api, pool: string) {
    && SmallerListings(b.contents, a.contents)
    && MembersIn(b, pool) <= MembersIn(a, pool)
    && (forall m | m in MembersIn(b, pool) && IsGuest(m) :: KeyOf(m) in a.configs && KeyOf(m) in b.configs)
    && (forall m, contents, d | m in MembersIn(b, pool) && IsGuest(m) && NonNegativeContents(contents) ::
          Foot(contents, m.node, m.kind, b.configs[KeyOf(m)], d) <=
          Foot(contents, m.node, m.kind, a.configs[KeyOf(m)], d))
  }

  /** Readable listings in which volumes only shrink; members and configs may change in any way. */
  ghost predicate ListingsShrink(up: Upstream) {
    forall t: nat ::
      && NonNegative(up(t)) && Visible(up(t)) == up(t).contents
      && SmallerListings(up(t + 1).contents, up(t).contents)
  }

  /** An environment that only destroys and shrinks, with readable listings. */
  ghost predicate Shrinking(up: Upstream, pool: string) {
    ListingsShrink(up) && forall t: nat :: Shrinks(up(t), up(t + 1), pool)
  }

  lemma {:induction false} ShrinksOver(up: Upstream, pool: string, s: nat, t: nat)
    requires Shrinking(up, pool) && s <= t
    ensures s == t || Shrinks(up(s), up(t), pool)
  {
    if s < t {
      ShrinksOver(up, pool, s, t - 1);
      assert Shrinks(up(t - 1), up(t - 1 + 1), pool);
    }
  }

  lemma {:induction false} LookupLater(up: Upstream, s: nat, t: nat, node: string, ref: Ref)
    requires ListingsShrink(up) && s <= t
    ensures Lookup(Visible(up(s)), node, ref) == Lookup(up(s).contents, node, ref) >= Lookup(up(t).contents, node, ref)
  {
    if s < t {
      LookupLater(up, s, t - 1, node, ref);
      assert Lookup(up(t - 1 + 1).contents, node, ref) <= Lookup(up(t - 1).contents, node, ref);
    }
  }

  lemma {:induction false} RefBytesLater(up: Upstream, s: nat, t: nat, node: string, refs: seq<Ref>, st: string)
    requires ListingsShrink(up) && s <= t
    ensures RefBytes(up(s).contents, node, refs, st) >= RefBytes(up(t).contents, node, refs, st)
  {
    if refs != [] {
      RefBytesLater(up, s, t, node, refs[..|refs| - 1], st);
      LookupLater(up, s, t, node, refs[|refs| - 1]);
    }
  }

  // ---------------------------------------------------------------- what a scan in progress guarantees

  /** Unsized volumes folded into `before`: exactly on a fixed upstream, and at least their present
      size where listings only shrink. */
  ghost predicate RefsCounted(up: Upstream, now: nat, node: string, refs: seq<Ref>,
                              before: map<string, int>, after: map<string, int>) {
    && (Fixed(up) ==>
          forall st :: Get(after, st) == Get(before, st) + RefBytes(Visible(up(0)), node, refs, st))
    && (ListingsShrink(up) ==>
          forall st :: Get(after, st) >= Get(before, st) + RefBytes(up(now).contents, node, refs, st))
  }

  /** One guest's footprint folded into `before`. */
  ghost predicate GuestCounted(up: Upstream, now: nat, node: string, kind: string, cfg: Config,
                               before: Usage, after: Usage) {
    && (Fixed(up) ==> forall d :: after.At(d) == before.At(d) + Foot(Visible(up(0)), node, kind, cfg, d))
    && (ListingsShrink(up) ==> forall d :: after.At(d) >= before.At(d) + Foot(up(now).contents, node, kind, cfg, d))
  }

  /** When a scan read a member's config, and when it had sized its volumes. */
  datatype Seen = Seen(cfgAt: nat, sizedAt: nat)

  ghost function SeenTerm(up: Upstream, m: Member, x: Seen, d: Dim): int {
    if KeyOf(m) in up(x.cfgAt).configs
    then Foot(up(x.sizedAt).contents, m.node, m.kind, up(x.cfgAt).configs[KeyOf(m)], d) else 0
  }

  ghost function SeenMap(up: Upstream, seen: map<Member, Seen>, d: Dim): map<Member, int> {
    map m | m in seen :: SeenTerm(up, m, seen[m], d)
  }

  /** The total of the members as the scan saw them, each at its own time. */
  ghost function SeenTotal(up: Upstream, seen: map<Member, Seen>, d: Dim): int {
    Sum(SeenMap(up, seen, d))
  }

  /** The members of the list `done` folded into `u`, duplicates and all; each of them once in `seen`. */
  ghost predicate MembersCounted(up: Upstream, done: seq<Member>, seen: map<Member, Seen>, u: Usage) {
    && (Fixed(up) ==> forall d :: u.At(d) == ListTotal(Visible(up(0)), up(0), done, d))
    && (ListingsShrink(up) ==> forall d :: u.At(d) >= SeenTotal(up, seen, d))
  }

  lemma RefCounted(up: Upstream, now: nat, when: nat, now': nat, node: string, refs: seq<Ref>, ref: Ref,
                   before: map<string, int>, middle: map<string, int>, size: int)
    requires RefsCounted(up, now, node, refs, before, middle)
    requires now <= now' && when <= now' && size == Lookup(Visible(up(when)), node, ref)
    ensures RefsCounted(up, now', node, refs + [ref], before, middle[ref.storage := Get(middle, ref.storage) + size])
  {
    var after := middle[ref.storage := Get(middle, ref.storage) + size];
    if Fixed(up) {
      forall st ensures Get(after, st) == Get(before, st) + RefBytes(Visible(up(0)), node, refs + [ref], st) {
        RefAppend(Visible(up(0)), node, refs, ref, st);
      }
    }
    if ListingsShrink(up) {
      LookupLater(up, when, now', node, ref);
      forall st ensures Get(after, st) >= Get(before, st) + RefBytes(up(now').contents, node, refs + [ref], st) {
        RefAppend(up(now').contents, node, refs, ref, st);
        RefBytesLater(up, now, now', node, refs, st);
      }
    }
  }

  lemma GuestFolded(up: Upstream, now: nat, node: string, kind: string, cfg: Config, r: Resources,
                    before: Usage, middle: map<string, int>, disk: map<string, int>)
    requires r.cores == TotalCores(kind, cfg) && r.memoryMiB == MemoryOf(cfg)
    requires r.disks == SizedDisks(DrivesOf(cfg)) && UnsizedTallied(DrivesOf(cfg), r.unused)
    requires forall st :: Get(middle, st) == Get(before.diskBytes, st) + Get(r.disks, st)
    requires RefsCounted(up, now, node, r.unused, middle, disk)
    ensures GuestCounted(up, now, node, kind, cfg, before,
                         Usage(before.cores + r.cores, before.memoryMiB + r.memoryMiB, before.instances + 1, disk))
  {
    var drives := DrivesOf(cfg);
    var after := Usage(before.cores + r.cores, before.memoryMiB + r.memoryMiB, before.instances + 1, disk);
    forall st, contents
      ensures DriveBytes(contents, node, drives, st) == Get(r.disks, st) + RefBytes(contents, node, r.unused, st)
    {
      BytesSplit(contents, node, drives, st);
      if st !in SizedStorages(drives) { SizedElsewhere(drives, st); }
      assert RefBytes(contents, node, r.unused, st) == Unsized(contents, node, drives, st);
    }
    forall d
      ensures Fixed(up) ==> after.At(d) == before.At(d) + Foot(Visible(up(0)), node, kind, cfg, d)
      ensures ListingsShrink(up) ==> after.At(d) >= before.At(d) + Foot(up(now).contents, node, kind, cfg, d)
    {
      if d.Disk? {
        assert Get(middle, d.storage) == Get(before.diskBytes, d.storage) + Get(r.disks, d.storage);
      }
    }
  }

  /** Footprints are monotone in the listings. */
  lemma FootMono(small: Contents, large: Contents, node: string, kind: string, cfg: Config, d: Dim)
    requires forall ref :: Lookup(small, node, ref) <= Lookup(large, node, ref)
    ensures Foot(small, node, kind, cfg, d) <= Foot(large, node, kind, cfg, d)
  {
    if d.Disk? {
      var drives := DrivesOf(cfg);
      BytesMono(small, large, node, drives, d.storage);
    }
  }

  lemma BytesMono(small: Contents, large: Contents, node: string, drives: Drives, st: string)
    requires forall ref :: Lookup(small, node, ref) <= Lookup(large, node, ref)
    ensures DriveBytes(small, node, drives, st) <= DriveBytes(large, node, drives, st)
  {
    SumMono(DriveMap(small, node, drives, st), DriveMap(large, node, drives, st));
  }

  /** One more guest folded in: `m` was read at `read`, and its volumes were sized up to `now`. A
      member seen before counts again, which on a shrinking upstream only errs on the high side. */
  lemma MemberFolded(up: Upstream, read: nat, now: nat, done: seq<Member>, seen: map<Member, Seen>, m: Member,
                     u: Usage, u': Usage)
    requires MembersCounted(up, done, seen, u) && IsGuest(m) && KeyOf(m) in up(read).configs
    requires GuestCounted(up, now, m.node, m.kind, up(read).configs[KeyOf(m)], u, u')
    ensures MembersCounted(up, done + [m], if m in seen then seen else seen[m := Seen(read, now)], u')
  {
    var seen' := if m in seen then seen else seen[m := Seen(read, now)];
    forall d ensures Fixed(up) ==> u'.At(d) == ListTotal(Visible(up(0)), up(0), done + [m], d) {
      ListAppend(Visible(up(0)), up(0), done, m, d);
    }
    if ListingsShrink(up) {
      assert NonNegative(up(read)) && NonNegative(up(now));
      forall d ensures u'.At(d) >= SeenTotal(up, seen', d) {
        if m !in seen { SumChange(SeenMap(up, seen, d), SeenMap(up, seen', d), m); }
      }
    }
  }

  /** Members that are not guests weigh nothing. */
  lemma MemberSkipped(up: Upstream, done: seq<Member>, seen: map<Member, Seen>, m: Member, u: Usage)
    requires MembersCounted(up, done, seen, u) && !IsGuest(m)
    ensures MembersCounted(up, done + [m], seen, u)
  {
    forall d ensures ListTotal(Visible(up(0)), up(0), done + [m], d) == ListTotal(Visible(up(0)), up(0), done, d) {
      ListAppend(Visible(up(0)), up(0), done, m, d);
    }
  }

  lemma MembersStart(up: Upstream)
    ensures MembersCounted(up, [], map[], Usage(0, 0, 0, map[]))
  {
    forall d { SumZero(SeenMap(up, map[], d)); }
  }

  /** Every guest among `ms` was seen, between `start` and `now`. */
  ghost predicate AllSeen(up: Upstream, ms: set<Member>, start: nat, now: nat, seen: map<Member, Seen>) {
    && (forall m :: m in seen <==> m in ms && IsGuest(m))
    && (forall m <- seen :: start <= seen[m].cfgAt <= seen[m].sizedAt <= now && KeyOf(m) in up(seen[m].cfgAt).configs)
  }

  lemma OneMoreSeen(up: Upstream, ms: set<Member>, start: nat, read: nat, now: nat, m: Member, seen: map<Member, Seen>)
    requires AllSeen(up, ms, start, read, seen) && start <= read <= now
    requires IsGuest(m) ==> KeyOf(m) in up(read).configs
    ensures AllSeen(up, ms + {m}, start, now, if !IsGuest(m) || m in seen then seen else seen[m := Seen(read, now)])
  {}

  /** A guest that is still a member weighs no more later than when it was seen. */
  lemma SeenLater(up: Upstream, pool: string, x: Seen, now: nat, m: Member, d: Dim)
    requires Shrinking(up, pool) && x.cfgAt <= x.sizedAt <= now
    requires m in MembersIn(up(now), pool) && IsGuest(m)
    ensures KeyOf(m) in up(x.cfgAt).configs ==> SeenTerm(up, m, x, d) >= MemberTerm(up(now).contents, up(now), m, d)
  {
    ShrinksOver(up, pool, x.cfgAt, now);
    if KeyOf(m) in up(x.cfgAt).configs {
      var cfg := up(x.cfgAt).configs[KeyOf(m)];
      assert NonNegative(up(now));
      forall ref { LookupLater(up, x.sizedAt, now, m.node, ref); }
      FootMono(up(now).contents, up(x.sizedAt).contents, m.node, m.kind, cfg, d);
    }
  }

  /** What a scan saw of a shrinking upstream is at least the usage of the pool at its end. */
  lemma SeenCoversTotal(up: Upstream, pool: string, start: nat, now: nat, seen: map<Member, Seen>, d: Dim)
    requires Shrinking(up, pool) && start <= now && AllSeen(up, MembersIn(up(start), pool), start, now, seen)
    ensures SeenTotal(up, seen, d) >= PoolTotal(up(now), pool, d)
  {
    var a, b := SeenMap(up, seen, d), TotalMap(up(now).contents, up(now), MembersIn(up(now), pool), d);
    ShrinksOver(up, pool, start, now);
    forall m ensures Get(b, m) <= Get(a, m) {
      if m in b && IsGuest(m) {
        assert m in seen;
        SeenLater(up, pool, seen[m], now, m, d);
      } else if m in seen {
        assert NonNegative(up(seen[m].cfgAt)) && NonNegative(up(seen[m].sizedAt));
      }
    }
    SumMono(b, a);
  }

  // ---------------------------------------------------------------- the cached scan

  function Listing(api: Api, p: (string, string)): map<string, int> {
    match ReadContent(api, p.0, p.1) case Some(content) => content case None => map[]
  }

  /** Which listing a cache slot holds, and the read that fetched it. */
  datatype Slot = Slot(node: string, storage: string, when: nat)

  ghost predicate SlotHolds(up: Upstream, nodes: iset<string>, now: nat, key: string, content: map<string, int>,
      slot: Slot) {
    && slot.node in nodes && key == CacheKey(slot.node, slot.storage)
    && slot.when <= now && content == Listing(up(slot.when), (slot.node, slot.storage))
  }

  lemma SlotRead(up: Upstream, nodes: iset<string>, now: nat, key: string, content: map<string, int>, slot: Slot,
                 node: string, ref: Ref)
    requires Separable(nodes) && SlotHolds(up, nodes, now, key, content, slot)
    requires node in nodes && key == CacheKey(node, ref.storage)
    ensures Get(content, ref.volid) == Lookup(Visible(up(slot.when)), node, ref)
  {
    assert slot.node == node && slot.storage == ref.storage;
  }

  /** The loop over the sized disks of one guest, in any order. */
  method AddDisks(disk: map<string, int>, more: map<string, int>) returns (disk': map<string, int>)
    ensures forall st :: Get(disk', st) == Get(disk, st) + Get(more, st)
  {
    disk' := disk;
    var todo := more.Keys;
    while todo != {}
      invariant todo <= more.Keys
      invariant forall st :: Get(disk', st) == Get(disk, st) + if st in todo then 0 else Get(more, st)
      decreases todo
    {
      var st :| st in todo;
      todo := todo - {st};
      disk' := disk'[st := Get(disk', st) + more[st]];
    }
  }

  /** One call of `UserUsage` or `resourcesUsage`: the listing cache, the number of reads made, and
      the listings fetched. */
  class Scan {
    const up: Upstream
    var now: nat
    var cache: map<string, map<string, int>>
    var log: seq<(string, string)>
    ghost const nodes: iset<string>
    ghost var slots: map<string, Slot>

    ghost predicate Valid()
      reads this
    {
      && Separable(nodes) && NoDuplicates(log)
      && (forall i :: 0 <= i < |log| ==> CacheKey(log[i].0, log[i].1) in cache)
      && cache.Keys == slots.Keys
      && (forall k <- cache :: SlotHolds(up, nodes, now, k, cache[k], slots[k]))
    }

    constructor (up: Upstream, start: nat, ghost nodes: iset<string>)
      requires Separable(nodes)
      ensures Valid() && this.up == up && this.nodes == nodes && now == start && log == []
    {
      this.up, this.nodes, now, cache, log, slots := up, nodes, start, map[], [], map[];
    }

    /** Any other read of the upstream. */
    method Tick()
      requires Valid()
      modifies this`now
      ensures Valid() && now == old(now) + 1
    {
      now := now + 1;
    }

    /** `volumeSize`: the size in the listing of some earlier or present read. A listing is read
        on a cache miss only, so each one is fetched once; an unreadable one is cached as empty. */
    method VolumeSize(node: string, ref: Ref) returns (size: int, ghost when: nat)
      requires Valid() && node in nodes
      modifies this
      ensures Valid() && old(now) <= now && old(log) <= log
      ensures when <= now && size == Lookup(Visible(up(when)), node, ref)
    {
      var key := CacheKey(node, ref.storage);
      if key !in cache {
        cache := cache[key := Listing(up(now), (node, ref.storage))];
        slots := slots[key := Slot(node, ref.storage, now)];
        log := log + [(node, ref.storage)];
        now := now + 1;
      }
      SlotRead(up, nodes, now, key, cache[key], slots[key], node, ref);
      when := slots[key].when;
      size := Get(cache[key], ref.volid);
    }

    /** One unsized volume, after those of `done`. */
    method AddRef(node: string, ghost done: seq<Ref>, ref: Ref, ghost base: map<string, int>, disk: map<string, int>)
      returns (disk': map<string, int>)
      requires Valid() && node in nodes && RefsCounted(up, now, node, done, base, disk)
      modifies this
      ensures Valid() && old(now) <= now && old(log) <= log
      ensures RefsCounted(up, now, node, done + [ref], base, disk')
    {
      ghost var earlier := now;
      var size, when := VolumeSize(node, ref);
      RefCounted(up, earlier, when, now, node, done, ref, base, disk, size);
      disk' := disk[ref.storage := Get(disk, ref.storage) + size];
    }

    /** The loop over the unsized volumes of one guest. */
    method AddRefs(node: string, refs: seq<Ref>, disk: map<string, int>)
      returns (disk': map<string, int>)
      requires Valid() && node in nodes
      modifies this
      ensures Valid() && old(now) <= now && old(log) <= log
      ensures RefsCounted(up, now, node, refs, disk, disk')
    {
      disk' := disk;
      for i := 0 to |refs|
        invariant Valid() && old(now) <= now && old(log) <= log
        invariant RefsCounted(up, now, node, refs[..i], disk, disk')
      {
        disk' := AddRef(node, refs[..i], refs[i], disk, disk');
        assert refs[..i + 1] == refs[..i] + [refs[i]];
      }
      assert refs[..|refs|] == refs;
    }

    /** The body of the loop in `UserUsage`, and of `resourcesUsage`: one guest is added to `u`. */
    method AddGuest(node: string, kind: string, cfg: Config, u: Usage) returns (u': Usage)
      requires Valid() && node in nodes
      modifies this
      ensures Valid() && old(now) <= now && old(log) <= log
      ensures GuestCounted(up, now, node, kind, cfg, u, u')
    {
      var r := GuestResources(kind, cfg);
      var middle := AddDisks(u.diskBytes, r.disks);
      var disk := AddRefs(node, r.unused, middle);
      GuestFolded(up, now, node, kind, cfg, r, u, middle, disk);
      u' := Usage(u.cores + r.cores, u.memoryMiB + r.memoryMiB, u.instances + 1, disk);
    }
  }

  /** `PoolMemberSet`: the ids of the guests in a pool, which the settle loop polls. */
  method PoolMemberSet(api: Api, pool: string) returns (r: Option<set<int>>)
    ensures r.Some? <==> pool in api.members && PoolMembersOf(pool) !in api.down
    ensures r.Some? ==> r.value == set m | m in api.members[pool] && (m.kind == "qemu" || m.kind == "lxc") :: m.vmid
  {
    var answer := ReadMembers(api, pool);
    if answer.None? { return None; }
    var members, ids := answer.value, {};
    for i := 0 to |members|
      invariant ids == set m | m in members[..i] && IsGuest(m) :: m.vmid
    {
      assert members[..i + 1] == members[..i] + [members[i]];
      if IsGuest(members[i]) { ids := ids + {members[i].vmid}; }
    }
    assert members[..|members|] == members;
    return Some(ids);
  }

  /** Every guest among the first `n` members has a readable config. */
  predicate ConfigsReadable(api: Api, members: seq<Member>, n: nat)
    requires n <= |members|
  {
    forall i :: 0 <= i < n && IsGuest(members[i]) ==>
      ReadConfig(api, members[i].node, members[i].kind, members[i].vmid).Some?
  }

  predicate CanScan(api: Api, pool: string) {
    ReadMembers(api, pool).Some? && ConfigsReadable(api, api.members[pool], |api.members[pool]|)
  }

  /** What the upstream promises about its own answers: slash-free node names. */
  predicate Sane(api: Api) {
    forall pool <- api.members, m <- api.members[pool] :: SlashFree(m.node)
  }

  lemma OneMoreMember(members: seq<Member>, i: nat)
    requires i < |members|
    ensures members[..i + 1] == members[..i] + [members[i]]
    ensures MemberSet(members[..i + 1]) == MemberSet(members[..i]) + {members[i]}
  {}

  /** `UserUsage`. On a fixed upstream it succeeds exactly when the members and their configs can be
      read, and returns the plain sum over the list of members. On any upstream whose listings only
      shrink, a result is at least the sum over the guests listed at the start, each as it was seen;
      if the pool only shrinks as well, that is at least the true usage at the end of the scan.
      Either way no listing is fetched twice. */
  method UserUsage(up: Upstream, pool: string, start: nat)
    returns (r: Option<Usage>, now: nat, log: seq<(string, string)>, ghost seen: map<Member, Seen>)
    requires forall t :: Sane(up(t))
    ensures NoDuplicates(log) && start <= now
    ensures Fixed(up) ==> (r.Some? <==> CanScan(up(0), pool))
    ensures Fixed(up) && r.Some? ==>
              forall d :: r.value.At(d) == ListTotal(Visible(up(0)), up(0), up(0).members[pool], d)
    ensures r.Some? ==> AllSeen(up, MembersIn(up(start), pool), start, now, seen)
    ensures ListingsShrink(up) && r.Some? ==> forall d :: r.value.At(d) >= SeenTotal(up, seen, d)
    ensures Shrinking(up, pool) && r.Some? ==> forall d :: r.value.At(d) >= PoolTotal(up(now), pool, d)
  {
    SlashFreeSeparable();
    var scan := new Scan(up, start, iset n: string | SlashFree(n));
    var answer := ReadMembers(up(scan.now), pool);
    scan.Tick();
    seen := map[];
    if answer.None? { return None, scan.now, scan.log, seen; }
    var members := answer.value;
    var u := Usage(0, 0, 0, map[]);
    MembersStart(up);
    for i := 0 to |members|
      invariant scan.Valid() && scan.up == up && start <= scan.now && fresh(scan)
      invariant scan.nodes == iset n: string | SlashFree(n)
      invariant MembersCounted(up, members[..i], seen, u)
      invariant AllSeen(up, MemberSet(members[..i]), start, scan.now, seen)
      invariant Fixed(up) ==> ConfigsReadable(up(0), members, i)
    {
      var m := members[i];
      OneMoreMember(members, i);
      if IsGuest(m) {
        ghost var read := scan.now;
        var cfg := ReadConfig(up(scan.now), m.node, m.kind, m.vmid);
        scan.Tick();
        if cfg.None? { return None, scan.now, scan.log, seen; }
        ghost var before := u;
        u := scan.AddGuest(m.node, m.kind, cfg.value, u);
        MemberFolded(up, read, scan.now, members[..i], seen, m, before, u);
        OneMoreSeen(up, MemberSet(members[..i]), start, read, scan.now, m, seen);
        seen := if m in seen then seen else seen[m := Seen(read, scan.now)];
      } else {
        MemberSkipped(up, members[..i], seen, m, u);
        OneMoreSeen(up, MemberSet(members[..i]), start, scan.now, scan.now, m, seen);
      }
    }
    assert members[..|members|] == members;
    forall d | Shrinking(up, pool) ensures u.At(d) >= PoolTotal(up(scan.now), pool, d) {
      SeenCoversTotal(up, pool, start, scan.now, seen, d);
    }
    return Some(u), scan.now, scan.log, seen;
  }

  /** `GuestUsage`: one guest's footprint, with its own empty cache. */
  method GuestUsage(api: Api, node: string, kind: string, vmid: int) returns (r: Option<Usage>)
    ensures r.Some? <==> (node, kind, vmid) in api.configs && ConfigOf(node, kind, vmid) !in api.down
    ensures r.Some? ==>
              forall d :: r.value.At(d) == Foot(Visible(api), node, kind, api.configs[(node, kind, vmid)], d)
  {
    var cfg := ReadConfig(api, node, kind, vmid);
    if cfg.None? { return None; }
    var up := (t: nat) => api;
    OneNodeSeparable(node);
    var scan := new Scan(up, 0, iset{node});
    var u := scan.AddGuest(node, kind, cfg.value, Usage(0, 0, 0, map[]));
    assert Fixed(up);
    return Some(u);
  }
}
