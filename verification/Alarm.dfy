/** The reconciliation alarm of cmd/uq-proxy/main.go, a second statement of the limits. */
module Alarm {
  import opened MapSums
  import opened Accounting
  import opened Deltas
  import opened Quota
  import opened Admission

  /** Live usage exceeds a base limit; a storage in use that the quota does not list always does. */
  predicate Over(u: Usage, q: UserQuota) {
    || u.cores > q.cores || u.memoryMiB > q.memoryMiB || u.instances > q.instances
    || exists st <- u.diskBytes :: st !in q.diskGiB || RoundUpGiB(u.diskBytes[st]) > q.diskGiB[st]
  }

  /** `overQuota`, for every order in which the usage is ranged over. */
  method OverQuota(u: Usage, q: UserQuota) returns (over: bool)
    ensures over <==> Over(u, q)
  {
    if u.cores > q.cores || u.memoryMiB > q.memoryMiB || u.instances > q.instances { return true; }
    var todo := u.diskBytes.Keys;
    while todo != {}
      invariant todo <= u.diskBytes.Keys
      invariant forall st <- u.diskBytes.Keys - todo :: st in q.diskGiB && RoundUpGiB(u.diskBytes[st]) <= q.diskGiB[st]
      decreases todo
    {
      var st :| st in todo;
      todo := todo - {st};
      if st !in q.diskGiB || RoundUpGiB(u.diskBytes[st]) > q.diskGiB[st] { return true; }
    }
    return false;
  }

  /** The alarm and `DiskGiB` round up by truncating division; admission rounds negative bytes to
      zero. They agree down to just above -2 GiB, and nowhere below. */
  lemma RoundUpsCoincide(b: int)
    ensures RoundUpGiB(b) == CeilGiB(b) <==> b >= 2 - 2 * GIB
  {
    var n := b + GIB - 1;
    if n < 0 {
      assert RoundUpGiB(b) == -(-n / GIB);
      assert -n / GIB == 0 <==> -n < GIB;
    }
  }

  /** Usage after an increase. */
  function Raised(u: Usage, delta: Delta): Usage {
    Usage(u.cores + delta.cores, u.memoryMiB + delta.memoryMiB, u.instances + delta.instances,
          map st | st in u.diskBytes.Keys + delta.diskBytes.Keys :: Get(u.diskBytes, st) + Get(delta.diskBytes, st))
  }

  lemma RaisedAt(u: Usage, delta: Delta, d: Dim)
    ensures Raised(u, delta).At(d) == u.At(d) + delta.At(d)
  {}

  /** One storage: the alarm stays quiet exactly if the bytes are within the limit. */
  lemma QuietAt(b: int, limit: int)
    requires b >= 0
    ensures RoundUpGiB(b) <= limit <==> 0 <= limit && b <= limit * GIB
  {
    RoundUpsCoincide(b);
    CeilGiBAdjoint(b, limit);
  }

  predicate NonNegativeUsage(u: Usage) {
    forall st <- u.diskBytes :: u.diskBytes[st] >= 0
  }

  predicate NonNegativeDelta(delta: Delta) {
    && delta.cores >= 0 && delta.memoryMiB >= 0 && delta.instances >= 0
    && forall st <- delta.diskBytes :: delta.diskBytes[st] >= 0
  }

  lemma StorageAgrees(u: Usage, delta: Delta, q: UserQuota, node: string, st: string)
    requires NonNegativeUsage(u) && NonNegativeDelta(delta) && NonNegativeDisk(q.diskGiB)
    requires (node == "" || node !in q.nodes) && !Over(u, q)
    requires st in u.diskBytes.Keys + delta.diskBytes.Keys
    ensures st in q.diskGiB && RoundUpGiB(Raised(u, delta).diskBytes[st]) <= q.diskGiB[st] <==>
            st in q.diskGiB && FitsAt(Limit(q, node, Disk(st)), u.At(Disk(st)), delta.At(Disk(st)))
  {
    RaisedAt(u, delta, Disk(st));
    if st in q.diskGiB {
      QuietAt(Raised(u, delta).diskBytes[st], q.diskGiB[st]);
      if st in u.diskBytes {
        assert !(st !in q.diskGiB || RoundUpGiB(u.diskBytes[st]) > q.diskGiB[st]);
        QuietAt(u.diskBytes[st], q.diskGiB[st]);
      }
    }
  }

  /** The alarm agrees with admission: starting quiet, without a node override, it stays quiet after
      an increase exactly if admission accepts the increase and every storage the increase mentions
      is listed. */
  lemma AlarmAgrees(u: Usage, delta: Delta, q: UserQuota, node: string)
    requires NonNegativeUsage(u) && NonNegativeDelta(delta) && NonNegativeDisk(q.diskGiB)
    requires (node == "" || node !in q.nodes) && !Over(u, q)
    ensures !Over(Raised(u, delta), q) <==> Fits(q, node, u, delta) && delta.diskBytes.Keys <= q.diskGiB.Keys
  {
    var after := Raised(u, delta);
    forall st | st in after.diskBytes { StorageAgrees(u, delta, q, node, st); }
    if !Over(after, q) {
      forall d ensures FitsAt(Limit(q, node, d), u.At(d), delta.At(d)) {
        if d.Disk? && d.storage in delta.diskBytes { StorageAgrees(u, delta, q, node, d.storage); }
      }
      forall st | st in delta.diskBytes ensures st in q.diskGiB { StorageAgrees(u, delta, q, node, st); }
    } else if Fits(q, node, u, delta) {
      assert FitsAt(Limit(q, node, Cores), u.At(Cores), delta.At(Cores));
      assert FitsAt(Limit(q, node, Memory), u.At(Memory), delta.At(Memory));
      assert FitsAt(Limit(q, node, Instances), u.At(Instances), delta.At(Instances));
      var st :| st in after.diskBytes && (st !in q.diskGiB || RoundUpGiB(after.diskBytes[st]) > q.diskGiB[st]);
      assert FitsAt(Limit(q, node, Disk(st)), u.At(Disk(st)), delta.At(Disk(st)));
      StorageAgrees(u, delta, q, node, st);
    }
  }

  /** With positive disk entries only, acceptance alone decides. */
  lemma AlarmAgreesOnPositive(u: Usage, delta: Delta, q: UserQuota, node: string)
    requires NonNegativeUsage(u) && NonNegativeDelta(delta) && NonNegativeDisk(q.diskGiB)
    requires forall st <- delta.diskBytes :: delta.diskBytes[st] > 0
    requires (node == "" || node !in q.nodes) && !Over(u, q)
    ensures !Over(Raised(u, delta), q) <==> Fits(q, node, u, delta)
  {
    AlarmAgrees(u, delta, q, node);
    if Fits(q, node, u, delta) {
      forall st | st in delta.diskBytes ensures st in q.diskGiB {
        assert FitsAt(Limit(q, node, Disk(st)), u.At(Disk(st)), delta.At(Disk(st)));
      }
    }
  }
}
