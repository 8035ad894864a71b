/** The classifier of internal/classify/classify.go: which requests are reads, which are mediated,
    which are known to be harmless, and which are unknown. */
module Classify {
  import opened Wrappers
  import opened GoStrings

  datatype Action =
    | Read | Passthrough | GuestCreate | GuestConfig | Resize | Clone | MoveDisk | Rollback
    | StorageAlloc | StorageUpload | PoolMembership | UnknownWrite

  datatype Envelope = Json | ExtJs | Other

  datatype Phase = P4 | P5 | NoPhase

  /** What the method and the path segments say; fields that do not apply are empty. */
  datatype Route = Route(
    action: Action, guestKind: string, node: string, vmid: string, storage: string, snapshot: string,
    quotaRelevant: bool, phase: Phase)

  const READ_ROUTE := Route(Read, "", "", "", "", "", false, NoPhase)

  datatype Result = Result(verb: string, path: string, envelope: Envelope, route: Route)

  /** `strings.ToUpper` on the letters that request methods are made of. */
  function ToUpper(s: string): string {
    seq(|s|, i requires 0 <= i < |s| => if 'a' <= s[i] <= 'z' then (s[i] as int - 32) as char else s[i])
  }

  const JSON := "api2/json"
  const EXTJS := "api2/extjs"

  predicate Under(p: string, root: string) {
    p == root || root + "/" <= p
  }

  /** `splitEnvelope` */
  function SplitEnvelope(path: string): (Envelope, string) {
    var p := TrimPrefix(path, "/");
    if Under(p, JSON) then (Json, TrimPrefix(TrimPrefix(p, JSON), "/"))
    else if Under(p, EXTJS) then (ExtJs, TrimPrefix(TrimPrefix(p, EXTJS), "/"))
    else (Other, p)
  }

  /** `splitSegs` */
  function SplitSegs(p: string): seq<string> {
    var t := TrimChar(p, '/');
    if t == "" then [] else Split(t, '/')
  }

  predicate IsKind(s: string) {
    s == "qemu" || s == "lxc"
  }

  // ---------------------------------------------------------------- the allowlist

  predicate GuestPassthrough(m: string, segs: seq<string>) {
    if |segs| == 4 then m == "DELETE"
    else |segs| >= 5 &&
         segs[4] in {"status", "vncproxy", "termproxy", "spiceproxy", "vncwebsocket", "agent", "firewall",
                     "sendkey", "cloudinit", "unlink", "snapshot", "rrd", "rrddata", "feature", "spiceshell"}
  }

  predicate NodePassthrough(m: string, segs: seq<string>) {
    |segs| >= 3 &&
    if segs[2] == "vzdump" then true
    else if IsKind(segs[2]) then GuestPassthrough(m, segs)
    else segs[2] == "storage" && m == "DELETE" && |segs| >= 5 && segs[4] == "content"
  }

  predicate KnownPassthrough(m: string, segs: seq<string>) {
    |segs| > 0 &&
    if segs[0] == "access" then |segs| >= 2 && segs[1] in {"ticket", "password", "tfa", "openid"}
    else segs[0] == "nodes" && NodePassthrough(m, segs)
  }

  function PassOrUnknown(m: string, segs: seq<string>, res: Route): Route {
    res.(action := if KnownPassthrough(m, segs) then Passthrough else UnknownWrite)
  }

  function Quota(res: Route, action: Action, phase: Phase): Route {
    res.(action := action, quotaRelevant := true, phase := phase)
  }

  // ---------------------------------------------------------------- the classifier

  function ClassifyGuest(m: string, segs: seq<string>, res: Route): Route
    requires |segs| >= 3
  {
    if |segs| == 3 then
      if m == "POST" then Quota(res, GuestCreate, P4) else PassOrUnknown(m, segs, res)
    else
      var at := res.(vmid := segs[3]);
      if |segs| < 5 then PassOrUnknown(m, segs, at)
      else
        var op := segs[4];
        if op == "config" && (m == "PUT" || m == "POST") then Quota(at, GuestConfig, P4)
        else if op == "resize" && m == "PUT" then Quota(at, Resize, P4)
        else if op == "clone" && m == "POST" then Quota(at, Clone, P5)
        else if (op == "move_disk" || op == "move_volume") && m == "POST" then Quota(at, MoveDisk, P5)
        else if op == "snapshot" && m == "POST" && |segs| >= 7 && segs[6] == "rollback" then
          Quota(at.(snapshot := segs[5]), Rollback, P5)
        else PassOrUnknown(m, segs, at)
  }

  function ClassifyStorage(m: string, segs: seq<string>, res: Route): Route
    requires |segs| >= 3
  {
    var at := if |segs| >= 4 then res.(storage := segs[3]) else res;
    if m == "POST" && |segs| >= 5 && segs[4] == "content" then Quota(at, StorageAlloc, P5)
    else if m == "POST" && |segs| >= 5 && (segs[4] == "upload" || segs[4] == "download-url") then
      Quota(at, StorageUpload, P5)
    else PassOrUnknown(m, segs, at)
  }

  predicate IsReadMethod(m: string) {
    m == "GET" || m == "HEAD" || m == "OPTIONS"
  }

  function RouteOf(m: string, segs: seq<string>): Route {
    if IsReadMethod(m) then READ_ROUTE
    else if |segs| >= 1 && segs[0] == "pools" then
      if m == "PUT" || m == "POST" then Quota(READ_ROUTE, PoolMembership, P4) else PassOrUnknown(m, segs, READ_ROUTE)
    else if |segs| >= 3 && segs[0] == "nodes" then
      var at := READ_ROUTE.(node := segs[1]);
      if IsKind(segs[2]) then ClassifyGuest(m, segs, at.(guestKind := segs[2]))
      else if segs[2] == "storage" then ClassifyStorage(m, segs, at)
      else PassOrUnknown(m, segs, at)
    else PassOrUnknown(m, segs, READ_ROUTE)
  }

  function Classify(verb: string, path: string): Result {
    var (envelope, rest) := SplitEnvelope(path);
    Result(verb, path, envelope, RouteOf(ToUpper(verb), SplitSegs(rest)))
  }

  // ---------------------------------------------------------------- slashes and envelopes do not matter

  /** A part that does not end in the trimmed character is kept. */
  lemma {:induction false} TrimRightKeeps(a: string, b: string, c: char)
    requires a != "" && a[|a| - 1] != c
    ensures TrimRightChar(a + b, c) == a + TrimRightChar(b, c)
  {
    if b == "" {
      assert a + b == a;
    } else if b[|b| - 1] == c {
      assert (a + b)[..|a + b| - 1] == a + b[..|b| - 1];
      TrimRightKeeps(a, b[..|b| - 1], c);
    }
  }

  lemma TrimTrailing(s: string, c: char)
    ensures TrimRightChar(s + [c], c) == TrimRightChar(s, c)
  {
    assert (s + [c])[..|s|] == s;
  }

  lemma {:induction false} TrimLeftTrailing(s: string, c: char)
    ensures TrimChar(s + [c], c) == TrimChar(s, c)
  {
    if s != "" && s[0] == c {
      assert (s + [c])[1..] == s[1..] + [c];
      TrimLeftTrailing(s[1..], c);
    } else if s == "" {
      assert (s + [c])[1..] == "";
    } else {
      TrimTrailing(s, c);
    }
  }

  lemma SegsTrailing(p: string)
    ensures SplitSegs(p + "/") == SplitSegs(p)
  {
    TrimLeftTrailing(p, '/');
  }

  lemma UnderTrailing(p: string, root: string)
    requires root != "" && root[|root| - 1] != '/' && p != ""
    ensures Under(p + "/", root) <==> Under(p, root)
    ensures Under(p, root) ==>
              SplitSegs(TrimPrefix(TrimPrefix(p + "/", root), "/")) == SplitSegs(TrimPrefix(TrimPrefix(p, root), "/"))
  {
    var q := p + "/";
    assert q[|q| - 1] == '/';
    assert q[..|p|] == p;
    if root + "/" <= q {
      assert q[..|root| + 1] == root + "/";
      if |root| + 1 == |q| { assert p == root by { assert (root + "/")[..|root|] == root; } }
      else { assert p[..|root| + 1] == root + "/"; }
    }
    if root + "/" <= p { assert q[..|root| + 1] == root + "/"; }
    if Under(p, root) {
      assert q[|root|..] == p[|root|..] + "/";
      var rest := TrimPrefix(p[|root|..], "/");
      if p == root {
        assert TrimPrefix(q[|root|..], "/") == "";
      } else {
        assert TrimPrefix(q[|root|..], "/") == rest + "/";
        SegsTrailing(rest);
      }
    }
  }

  /** A trailing slash changes neither the envelope nor the route. */
  lemma TrailingSlash(verb: string, path: string)
    ensures Classify(verb, path + "/").route == Classify(verb, path).route
    ensures Classify(verb, path + "/").envelope == Classify(verb, path).envelope
  {
    var p := TrimPrefix(path, "/");
    if path == "" {
      assert TrimPrefix("/", "/") == "";
    } else if p == "" {
      assert path == "/" && TrimPrefix("//", "/") == "/";
      SegsTrailing("");
      assert "" + "/" == "/";
      assert !Under("/", JSON) && !Under("/", EXTJS);
    } else {
      assert TrimPrefix(path + "/", "/") == p + "/";
      UnderTrailing(p, JSON);
      UnderTrailing(p, EXTJS);
      SegsTrailing(p);
    }
  }

  /** Where a path with an API prefix ends up: in the prefix's envelope when a slash or nothing
      follows it, and nowhere otherwise. */
  lemma PrefixedPath(root: string, rest: string)
    requires root == JSON || root == EXTJS
    ensures rest == "" || rest[0] == '/' ==>
              SplitEnvelope("/" + root + rest) == (if root == JSON then Json else ExtJs, TrimPrefix(rest, "/"))
    ensures rest != "" && rest[0] != '/' ==> SplitEnvelope("/" + root + rest) == (Other, root + rest)
  {
    var path, p := "/" + root + rest, root + rest;
    assert path[1..] == p && path[0] == '/';
    assert TrimPrefix(path, "/") == p;
    assert p[..|root|] == root && p[|root|..] == rest;
    assert p[5] == if root == JSON then 'j' else 'e';
    assert Under(p, root) <==> rest == "" || rest[0] == '/' by {
      if root + "/" <= p { assert p[|root|] == '/'; }
      if rest != "" && rest[0] == '/' { assert p[..|root| + 1] == root + "/"; }
    }
    OtherRoot(p, root);
  }

  lemma OtherRoot(p: string, root: string)
    requires root == JSON || root == EXTJS
    requires |p| > 5 && p[5] == if root == JSON then 'j' else 'e'
    ensures root == EXTJS ==> !Under(p, JSON)
    ensures root == JSON ==> !Under(p, EXTJS)
  {
    assert JSON[5] == 'j' && EXTJS[5] == 'e';
    assert (JSON + "/")[5] == 'j' && (EXTJS + "/")[5] == 'e';
  }

  /** A path whose first segment is `api2` is nobody's. */
  lemma ApiSegment(tail: string)
    requires tail != "" && tail[0] != '/'
    ensures var segs := SplitSegs("api2/" + tail); |segs| >= 1 && segs[0] == "api2"
  {
    var head: string := "api2/" + [tail[0]];
    assert "api2/" + tail == head + tail[1..];
    assert head[|head| - 1] == tail[0];
    TrimRightKeeps(head, tail[1..], '/');
    var x := TrimRightChar(tail[1..], '/');
    assert head + x == "api2" + ['/'] + ([tail[0]] + x);
    SplitHead("api2", '/', [tail[0]] + x);
  }

  lemma NobodysRoute(m: string, tail: string)
    requires tail != "" && tail[0] != '/'
    ensures RouteOf(m, SplitSegs("api2/" + tail)) ==
            if IsReadMethod(m) then READ_ROUTE else READ_ROUTE.(action := UnknownWrite)
  {
    ApiSegment(tail);
  }

  /** What follows an API prefix decides the route; a prefix that runs on leads nowhere. */
  lemma PrefixedRoute(verb: string, root: string, rest: string)
    requires root == JSON || root == EXTJS
    ensures Classify(verb, "/" + root + rest).route ==
            if rest == "" || rest[0] == '/' then RouteOf(ToUpper(verb), SplitSegs(TrimPrefix(rest, "/")))
            else if IsReadMethod(ToUpper(verb)) then READ_ROUTE
            else READ_ROUTE.(action := UnknownWrite)
  {
    PrefixedPath(root, rest);
    if rest != "" && rest[0] != '/' { RunOnRoute(ToUpper(verb), root, rest); }
  }

  lemma Regroup(root: string, rest: string) returns (tail: string)
    requires root == JSON || root == EXTJS
    ensures root + rest == "api2/" + tail && tail != "" && tail[0] != '/'
  {
    tail := root[5..] + rest;
    assert root == "api2/" + root[5..];
    assert tail[0] == root[5];
  }

  lemma RunOnRoute(m: string, root: string, rest: string)
    requires root == JSON || root == EXTJS
    ensures RouteOf(m, SplitSegs(root + rest)) ==
            if IsReadMethod(m) then READ_ROUTE else READ_ROUTE.(action := UnknownWrite)
  {
    var tail := Regroup(root, rest);
    NobodysRoute(m, tail);
  }

  /** The json and extjs prefixes lead to the same route whatever follows them, and to their own
      envelopes unless what follows runs into the prefix. */
  lemma EnvelopesAgree(verb: string, rest: string)
    ensures Classify(verb, "/" + JSON + rest).route == Classify(verb, "/" + EXTJS + rest).route
    ensures var proper := rest == "" || rest[0] == '/';
            && Classify(verb, "/" + JSON + rest).envelope == (if proper then Json else Other)
            && Classify(verb, "/" + EXTJS + rest).envelope == (if proper then ExtJs else Other)
  {
    PrefixedPath(JSON, rest);
    PrefixedPath(EXTJS, rest);
    PrefixedRoute(verb, JSON, rest);
    PrefixedRoute(verb, EXTJS, rest);
  }

  // ---------------------------------------------------------------- printing and classifying

  /** The endpoints that admission intercepts. */
  datatype Endpoint =
    | CreateOn(node: string, kind: string)
    | ConfigOf(node: string, kind: string, vmid: string, verb: string)
    | ResizeOf(node: string, kind: string, vmid: string)
    | CloneOf(node: string, kind: string, vmid: string)
    | MoveOf(node: string, kind: string, vmid: string, volume: bool)
    | RollbackTo(node: string, kind: string, vmid: string, snapshot: string)
    | AllocOn(node: string, storage: string)
    | UploadTo(node: string, storage: string, fromUrl: bool)
    | PoolsOf(pool: string, verb: string)

  predicate Name(s: string) {
    s != "" && '/' !in s
  }

  predicate WellNamed(e: Endpoint) {
    match e
    case CreateOn(node, kind) => Name(node) && IsKind(kind)
    case ConfigOf(node, kind, vmid, verb) =>
      Name(node) && IsKind(kind) && Name(vmid) && (verb == "PUT" || verb == "POST")
    case ResizeOf(node, kind, vmid) => Name(node) && IsKind(kind) && Name(vmid)
    case CloneOf(node, kind, vmid) => Name(node) && IsKind(kind) && Name(vmid)
    case MoveOf(node, kind, vmid, _) => Name(node) && IsKind(kind) && Name(vmid)
    case RollbackTo(node, kind, vmid, snapshot) => Name(node) && IsKind(kind) && Name(vmid) && Name(snapshot)
    case AllocOn(node, storage) => Name(node) && Name(storage)
    case UploadTo(node, storage, _) => Name(node) && Name(storage)
    case PoolsOf(pool, verb) => Name(pool) && (verb == "PUT" || verb == "POST")
  }

  function VerbOf(e: Endpoint): string {
    match e
    case ConfigOf(_, _, _, verb) => verb
    case PoolsOf(_, verb) => verb
    case ResizeOf(_, _, _) => "PUT"
    case CreateOn(_, _) => "POST"
    case CloneOf(_, _, _) => "POST"
    case MoveOf(_, _, _, _) => "POST"
    case RollbackTo(_, _, _, _) => "POST"
    case AllocOn(_, _) => "POST"
    case UploadTo(_, _, _) => "POST"
  }

  function SegsOf(e: Endpoint): seq<string> {
    match e
    case CreateOn(node, kind) => ["nodes", node, kind]
    case ConfigOf(node, kind, vmid, _) => ["nodes", node, kind, vmid, "config"]
    case ResizeOf(node, kind, vmid) => ["nodes", node, kind, vmid, "resize"]
    case CloneOf(node, kind, vmid) => ["nodes", node, kind, vmid, "clone"]
    case MoveOf(node, kind, vmid, volume) => ["nodes", node, kind, vmid, if volume then "move_volume" else "move_disk"]
    case RollbackTo(node, kind, vmid, snapshot) => ["nodes", node, kind, vmid, "snapshot", snapshot, "rollback"]
    case AllocOn(node, storage) => ["nodes", node, "storage", storage, "content"]
    case UploadTo(node, storage, fromUrl) =>
      ["nodes", node, "storage", storage, if fromUrl then "download-url" else "upload"]
    case PoolsOf(pool, _) => ["pools", pool]
  }

  function PathOf(root: string, e: Endpoint): string {
    "/" + root + "/" + Join(SegsOf(e), '/')
  }

  /** What the endpoint means: its action with the names it was printed from. */
  function Meaning(e: Endpoint): Route {
    match e
    case CreateOn(node, kind) => Route(GuestCreate, kind, node, "", "", "", true, P4)
    case ConfigOf(node, kind, vmid, _) => Route(GuestConfig, kind, node, vmid, "", "", true, P4)
    case ResizeOf(node, kind, vmid) => Route(Resize, kind, node, vmid, "", "", true, P4)
    case CloneOf(node, kind, vmid) => Route(Clone, kind, node, vmid, "", "", true, P5)
    case MoveOf(node, kind, vmid, _) => Route(MoveDisk, kind, node, vmid, "", "", true, P5)
    case RollbackTo(node, kind, vmid, snapshot) => Route(Rollback, kind, node, vmid, "", snapshot, true, P5)
    case AllocOn(node, storage) => Route(StorageAlloc, "", node, "", storage, "", true, P5)
    case UploadTo(node, storage, _) => Route(StorageUpload, "", node, "", storage, "", true, P5)
    case PoolsOf(_, _) => Route(PoolMembership, "", "", "", "", "", true, P4)
  }

  /** Joined names stay untrimmed. */
  lemma {:induction false} JoinEdges(parts: seq<string>)
    requires |parts| >= 1 && forall p <- parts :: Name(p)
    ensures var s := Join(parts, '/'); s != "" && s[0] != '/' && s[|s| - 1] != '/'
  {
    assert Name(parts[0]);
    if |parts| > 1 {
      assert forall p <- parts[1..] :: p in parts;
      JoinEdges(parts[1..]);
    }
  }

  lemma SegsOfJoin(parts: seq<string>)
    requires |parts| >= 1 && forall p <- parts :: Name(p)
    ensures SplitSegs(Join(parts, '/')) == parts
    ensures Join(parts, '/') != ""
  {
    JoinEdges(parts);
    assert Name(parts[0]);
    SplitJoin(parts, '/');
  }

  lemma PrefixedSegs(root: string, s: string)
    requires root == JSON || root == EXTJS
    ensures SplitEnvelope("/" + root + "/" + s) == (if root == JSON then Json else ExtJs, s)
  {
    assert "/" + root + "/" + s == "/" + root + ("/" + s);
    PrefixedPath(root, "/" + s);
    assert TrimPrefix("/" + s, "/") == s by { assert ("/" + s)[1..] == s; }
  }

  lemma NamesInPath(e: Endpoint)
    requires WellNamed(e)
    ensures forall p <- SegsOf(e) :: Name(p)
  {}

  lemma SegsMean(e: Endpoint)
    requires WellNamed(e)
    ensures RouteOf(VerbOf(e), SegsOf(e)) == Meaning(e)
  {}

  lemma VerbUpper(e: Endpoint)
    requires WellNamed(e)
    ensures ToUpper(VerbOf(e)) == VerbOf(e)
  {}

  /** Classifying the printed path of an intercepted endpoint recovers its action and every name. */
  lemma ClassifyPath(root: string, e: Endpoint)
    requires (root == JSON || root == EXTJS) && WellNamed(e)
    ensures Classify(VerbOf(e), PathOf(root, e)) ==
            Result(VerbOf(e), PathOf(root, e), if root == JSON then Json else ExtJs, Meaning(e))
  {
    NamesInPath(e);
    SegsOfJoin(SegsOf(e));
    PrefixedSegs(root, Join(SegsOf(e), '/'));
    VerbUpper(e);
    SegsMean(e);
  }

  /** The endpoint that an intercepted route was recognised by. */
  function EndpointOf(m: string, segs: seq<string>, r: Route): Endpoint {
    match r.action
    case GuestConfig => ConfigOf(r.node, r.guestKind, r.vmid, m)
    case Resize => ResizeOf(r.node, r.guestKind, r.vmid)
    case Clone => CloneOf(r.node, r.guestKind, r.vmid)
    case MoveDisk => MoveOf(r.node, r.guestKind, r.vmid, |segs| > 4 && segs[4] == "move_volume")
    case Rollback => RollbackTo(r.node, r.guestKind, r.vmid, r.snapshot)
    case StorageAlloc => AllocOn(r.node, r.storage)
    case StorageUpload => UploadTo(r.node, r.storage, |segs| > 4 && segs[4] == "download-url")
    case PoolMembership => PoolsOf(if |segs| > 1 then segs[1] else "", m)
    case _ => CreateOn(r.node, r.guestKind)
  }

  /** Nothing else is intercepted: a mediated route, whatever the method and the segments, is that
      of an endpoint whose segments the path begins with, and a guest creation's whole path. */
  lemma OnlyEndpoints(m: string, segs: seq<string>)
    requires RouteOf(m, segs).quotaRelevant
    ensures var r := RouteOf(m, segs);
            var e := EndpointOf(m, segs, r);
            && Meaning(e) == r && VerbOf(e) == m
            && (if e.PoolsOf? then |segs| > 0 && segs[0] == "pools" else SegsOf(e) <= segs)
            && (e.CreateOn? ==> SegsOf(e) == segs)
  {
    if |segs| >= 3 && segs[0] == "nodes" {
      if IsKind(segs[2]) { GuestSegments(m, segs); } else { StorageSegments(m, segs); }
    }
  }

  lemma GuestSegments(m: string, segs: seq<string>)
    requires |segs| >= 3 && segs[0] == "nodes" && RouteOf(m, segs).quotaRelevant && IsKind(segs[2])
    ensures var r := RouteOf(m, segs);
            var e := EndpointOf(m, segs, r);
            Meaning(e) == r && VerbOf(e) == m && SegsOf(e) <= segs && (e.CreateOn? ==> SegsOf(e) == segs)
  {
    if |segs| >= 5 { ChangeSegments(m, segs); }
  }

  lemma ChangeSegments(m: string, segs: seq<string>)
    requires |segs| >= 5 && segs[0] == "nodes" && RouteOf(m, segs).quotaRelevant && IsKind(segs[2])
    ensures var r := RouteOf(m, segs);
            var e := EndpointOf(m, segs, r);
            Meaning(e) == r && VerbOf(e) == m && SegsOf(e) <= segs && !e.CreateOn?
  {}

  lemma StorageSegments(m: string, segs: seq<string>)
    requires |segs| >= 3 && segs[0] == "nodes" && RouteOf(m, segs).quotaRelevant && !IsKind(segs[2])
    ensures var r := RouteOf(m, segs);
            var e := EndpointOf(m, segs, r);
            Meaning(e) == r && VerbOf(e) == m && SegsOf(e) <= segs && !e.CreateOn? && !e.PoolsOf?
  {}

  /** And whatever follows the segments of an endpoint, other than a guest creation's, it stays intercepted. */
  lemma EndpointTails(e: Endpoint, tail: seq<string>)
    requires WellNamed(e) && (e.CreateOn? ==> tail == [])
    ensures RouteOf(VerbOf(e), SegsOf(e) + tail) == Meaning(e)
  {
    var segs := SegsOf(e) + tail;
    forall i | 0 <= i < |SegsOf(e)| ensures segs[i] == SegsOf(e)[i] {}
    if e.CreateOn? { assert segs == SegsOf(e); } else { TailMeans(e, segs); }
  }

  lemma TailMeans(e: Endpoint, segs: seq<string>)
    requires WellNamed(e) && !e.CreateOn? && SegsOf(e) <= segs
    ensures RouteOf(VerbOf(e), segs) == Meaning(e)
  {
    var own := SegsOf(e);
    assert segs[0] == own[0] && segs[1] == own[1];
    if !e.PoolsOf? { assert segs[2] == own[2] && segs[3] == own[3] && segs[4] == own[4]; }
    if e.RollbackTo? { assert segs[5] == own[5] && segs[6] == own[6]; }
  }

  // ---------------------------------------------------------------- reads and harmless writes

  lemma UpperIs(verb: string, upper: string)
    requires forall c <- upper :: 'A' <= c <= 'Z'
    ensures ToUpper(verb) == upper <==> SameButCase(verb, upper)
  {
    if SameButCase(verb, upper) {
      forall i | 0 <= i < |verb| ensures ToUpper(verb)[i] == upper[i] { assert upper[i] in upper; }
    } else if ToUpper(verb) == upper {
      forall i | 0 <= i < |verb| ensures SameLetter(verb[i], upper[i]) { assert ToUpper(verb)[i] == upper[i]; }
    }
  }

  /** A request is a read exactly if its method is GET, HEAD or OPTIONS in letters of any case. */
  lemma ReadsExactly(verb: string, path: string)
    ensures Classify(verb, path).route.action.Read? <==>
            SameButCase(verb, "GET") || SameButCase(verb, "HEAD") || SameButCase(verb, "OPTIONS")
    ensures Classify(verb, path).route.action.Read? ==> Classify(verb, path).route == READ_ROUTE
  {
    UpperIs(verb, "GET");
    UpperIs(verb, "HEAD");
    UpperIs(verb, "OPTIONS");
    ReadRoute(ToUpper(verb), SplitSegs(SplitEnvelope(path).1));
  }

  lemma ReadRoute(m: string, segs: seq<string>)
    ensures RouteOf(m, segs).action.Read? <==> m == "GET" || m == "HEAD" || m == "OPTIONS"
    ensures RouteOf(m, segs).action.Read? ==> RouteOf(m, segs) == READ_ROUTE
  {}

  /** The writes that are let through: logging in and looking after one's own account, backups,
      destroying a guest, what one does with a running guest, and deleting stored content. */
  datatype Harmless =
    | SelfService(service: string, rest: seq<string>)
    | Backup(node: string, rest: seq<string>)
    | DestroyGuest(node: string, kind: string, vmid: string)
    | Operate(node: string, kind: string, vmid: string, op: string, rest: seq<string>)
    | DropContent(node: string, storage: string, rest: seq<string>)

  const SERVICES := {"ticket", "password", "tfa", "openid"}
  const CONSOLES := {"vncproxy", "termproxy", "spiceproxy", "vncwebsocket", "spiceshell"}
  const OPERATIONS := {"status", "agent", "firewall", "sendkey", "cloudinit", "unlink", "snapshot", "feature"}
  const GRAPHS := {"rrd", "rrddata"}

  /** Such a write with its method; what a rollback does with snapshots is not harmless. */
  predicate LetThrough(m: string, h: Harmless) {
    match h
    case SelfService(service, _) => service in SERVICES
    case Backup(_, _) => true
    case DestroyGuest(_, kind, _) => m == "DELETE" && (kind == "qemu" || kind == "lxc")
    case Operate(_, kind, _, op, rest) =>
      && (kind == "qemu" || kind == "lxc") && op in CONSOLES + OPERATIONS + GRAPHS
      && !(op == "snapshot" && m == "POST" && |rest| >= 2 && rest[1] == "rollback")
    case DropContent(_, _, _) => m == "DELETE"
  }

  function HarmlessSegs(h: Harmless): seq<string> {
    match h
    case SelfService(service, rest) => ["access", service] + rest
    case Backup(node, rest) => ["nodes", node, "vzdump"] + rest
    case DestroyGuest(node, kind, vmid) => ["nodes", node, kind, vmid]
    case Operate(node, kind, vmid, op, rest) => ["nodes", node, kind, vmid, op] + rest
    case DropContent(node, storage, rest) => ["nodes", node, "storage", storage, "content"] + rest
  }

  lemma HarmlessPasses(m: string, h: Harmless)
    requires !IsReadMethod(m) && LetThrough(m, h)
    ensures RouteOf(m, HarmlessSegs(h)).action.Passthrough?
  {
    if h.Operate? { OperationPasses(m, h, HarmlessSegs(h)); }
  }

  lemma OperationPasses(m: string, h: Harmless, segs: seq<string>)
    requires !IsReadMethod(m) && LetThrough(m, h) && h.Operate? && segs == HarmlessSegs(h)
    ensures RouteOf(m, segs).action.Passthrough?
  {
    assert |segs| >= 5 && segs[0] == "nodes" && segs[2] == h.kind && segs[4] == h.op;
    assert segs[5..] == h.rest;
    assert GuestPassthrough(m, segs) && KnownPassthrough(m, segs);
  }

  /** What a harmless write's segments say it is. */
  function HarmlessOf(segs: seq<string>): Harmless
    requires |segs| >= 2
  {
    if segs[0] == "access" || |segs| < 3 then SelfService(segs[1], segs[2..])
    else if segs[2] == "vzdump" then Backup(segs[1], segs[3..])
    else if segs[2] == "storage" && |segs| >= 5 then DropContent(segs[1], segs[3], segs[5..])
    else if |segs| >= 5 then Operate(segs[1], segs[2], segs[3], segs[4], segs[5..])
    else DestroyGuest(segs[1], segs[2], if |segs| >= 4 then segs[3] else "")
  }

  lemma PassedIsHarmless(m: string, segs: seq<string>)
    requires RouteOf(m, segs).action.Passthrough?
    ensures |segs| >= 2 && LetThrough(m, HarmlessOf(segs)) && HarmlessSegs(HarmlessOf(segs)) == segs
  {}

  /** A write is let through exactly if it is one of these. */
  lemma HarmlessExactly(m: string, segs: seq<string>)
    requires !IsReadMethod(m)
    ensures RouteOf(m, segs).action.Passthrough? <==> exists h :: LetThrough(m, h) && HarmlessSegs(h) == segs
  {
    if RouteOf(m, segs).action.Passthrough? { PassedIsHarmless(m, segs); }
    if h :| LetThrough(m, h) && HarmlessSegs(h) == segs { HarmlessPasses(m, h); }
  }

  /** And what is neither intercepted nor one of these is unknown. */
  lemma UnknownExactly(m: string, segs: seq<string>)
    requires !IsReadMethod(m)
    ensures RouteOf(m, segs).action.UnknownWrite? <==>
            !RouteOf(m, segs).quotaRelevant && !exists h :: LetThrough(m, h) && HarmlessSegs(h) == segs
  {
    HarmlessExactly(m, segs);
    OneOfThree(m, segs);
  }

  lemma OneOfThree(m: string, segs: seq<string>)
    requires !IsReadMethod(m)
    ensures var r := RouteOf(m, segs);
            r.action.UnknownWrite? <==> !r.quotaRelevant && !r.action.Passthrough?
  {}

  /** The printed path of a harmless write is let through under either prefix. */
  lemma HarmlessPath(root: string, verb: string, h: Harmless)
    requires (root == JSON || root == EXTJS) && !IsReadMethod(ToUpper(verb)) && LetThrough(ToUpper(verb), h)
    requires forall p <- HarmlessSegs(h) :: Name(p)
    ensures Classify(verb, "/" + root + "/" + Join(HarmlessSegs(h), '/')).route.action.Passthrough?
  {
    SegsOfJoin(HarmlessSegs(h));
    PrefixedSegs(root, Join(HarmlessSegs(h), '/'));
    HarmlessPasses(ToUpper(verb), h);
  }
}
