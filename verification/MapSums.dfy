/** Sums over finite maps. Go ranges over maps in an arbitrary order; every total in
    the model is stated as a `Sum`, which does not depend on any order. */
module MapSums {

  /** Go's map read: a missing key reads as zero. */
  function Get<K>(m: map<K, int>, k: K): int {
    if k in m then m[k] else 0
  }

  ghost function PickFrom<K>(s: set<K>): (k: K)
    requires s != {}
    ensures k in s
  {
    var k :| k in s; k
  }

  /** The total of the readings of `m` at the keys of `s`. */
  ghost function SumOver<K>(s: set<K>, m: map<K, int>): int {
    if s == {} then 0
    else
      var k := PickFrom(s);
      Get(m, k) + SumOver(s - {k}, m)
  }

  ghost function Sum<K>(m: map<K, int>): int {
    SumOver(m.Keys, m)
  }

  lemma {:induction false} SumOverRemove<K>(s: set<K>, m: map<K, int>, k: K)
    requires k in s
    ensures SumOver(s, m) == Get(m, k) + SumOver(s - {k}, m)
    decreases s
  {
    var j := PickFrom(s);
    if j != k {
      SumOverRemove(s - {j}, m, k);
      SumOverRemove(s - {k}, m, j);
      assert s - {j} - {k} == s - {k} - {j};
    }
  }

  lemma {:induction false} SumOverAdd<K(!new)>(s: set<K>, a: map<K, int>, b: map<K, int>, c: map<K, int>)
    requires forall k :: k in s ==> Get(c, k) == Get(a, k) + Get(b, k)
    ensures SumOver(s, c) == SumOver(s, a) + SumOver(s, b)
  {
    if s != {} { SumOverAdd(s - {PickFrom(s)}, a, b, c); }
  }

  lemma {:induction false} SumOverMono<K(!new)>(s: set<K>, a: map<K, int>, b: map<K, int>)
    requires forall k :: k in s ==> Get(a, k) <= Get(b, k)
    ensures SumOver(s, a) <= SumOver(s, b)
  {
    if s != {} { SumOverMono(s - {PickFrom(s)}, a, b); }
  }

  /** Keys that read as zero can be added to the range of a sum. */
  lemma {:induction false} SumOverWiden<K(!new)>(s: set<K>, t: set<K>, m: map<K, int>)
    requires s <= t
    requires forall k :: k in t && k !in s ==> Get(m, k) == 0
    ensures SumOver(t, m) == SumOver(s, m)
    decreases t
  {
    if t - s != {} {
      var k :| k in t - s;
      SumOverRemove(t, m, k);
      SumOverWiden(s, t - {k}, m);
    } else {
      assert forall k <- t :: k in t - s || k in s;
      assert s == t;
    }
  }

  /** Sums are linear in the readings: only the pointwise readings matter, not the key sets. */
  lemma SumAdd<K(!new)>(a: map<K, int>, b: map<K, int>, c: map<K, int>)
    requires forall k :: Get(c, k) == Get(a, k) + Get(b, k)
    ensures Sum(c) == Sum(a) + Sum(b)
  {
    var s := a.Keys + b.Keys + c.Keys;
    SumOverWiden(a.Keys, s, a); SumOverWiden(b.Keys, s, b); SumOverWiden(c.Keys, s, c);
    SumOverAdd(s, a, b, c);
  }

  /** Pointwise smaller readings have a smaller sum. */
  lemma SumMono<K(!new)>(a: map<K, int>, b: map<K, int>)
    requires forall k :: Get(a, k) <= Get(b, k)
    ensures Sum(a) <= Sum(b)
  {
    var s := a.Keys + b.Keys;
    SumOverWiden(a.Keys, s, a); SumOverWiden(b.Keys, s, b);
    SumOverMono(s, a, b);
  }

  lemma SumEqual<K(!new)>(a: map<K, int>, b: map<K, int>)
    requires forall k :: Get(a, k) == Get(b, k)
    ensures Sum(a) == Sum(b)
  {
    SumMono(a, b); SumMono(b, a);
  }

  lemma SumSingle<K>(k: K, v: int)
    ensures Sum(map[k := v]) == v
  {
    var m := map[k := v];
    assert m.Keys == {k} && {k} - {k} == {};
    SumOverRemove(m.Keys, m, k);
  }

  /** Two maps that read the same except at one key. */
  lemma SumChange<K(!new)>(a: map<K, int>, b: map<K, int>, k: K)
    requires forall j :: j != k ==> Get(a, j) == Get(b, j)
    ensures Sum(b) == Sum(a) + Get(b, k) - Get(a, k)
  {
    var diff := map[k := Get(b, k) - Get(a, k)];
    SumSingle(k, diff[k]);
    forall j ensures Get(b, j) == Get(a, j) + Get(diff, j) {}
    SumAdd(a, diff, b);
  }

  lemma SumNonNegative<K(!new)>(m: map<K, int>)
    requires forall k :: Get(m, k) >= 0
    ensures Sum(m) >= 0
  {
    SumMono(map[], m);
  }

  lemma SumZero<K(!new)>(m: map<K, int>)
    requires forall k :: Get(m, k) == 0
    ensures Sum(m) == 0
  {
    SumEqual(map[], m);
  }

  /** Two pairs of maps, compared pointwise by what each pair reads together. */
  lemma SumPairs<K(!new)>(a1: map<K, int>, a2: map<K, int>, b1: map<K, int>, b2: map<K, int>)
    requires forall k :: Get(b1, k) + Get(b2, k) <= Get(a1, k) + Get(a2, k)
    ensures Sum(b1) + Sum(b2) <= Sum(a1) + Sum(a2)
  {
    var a := map k | k in a1.Keys + a2.Keys :: Get(a1, k) + Get(a2, k);
    var b := map k | k in b1.Keys + b2.Keys :: Get(b1, k) + Get(b2, k);
    forall k ensures Get(a, k) == Get(a1, k) + Get(a2, k) {}
    forall k ensures Get(b, k) == Get(b1, k) + Get(b2, k) {}
    SumAdd(a1, a2, a);
    SumAdd(b1, b2, b);
    forall k ensures Get(b, k) <= Get(a, k) { assert Get(b1, k) + Get(b2, k) <= Get(a1, k) + Get(a2, k); }
    SumMono(b, a);
  }

  /** Reindexing along an injection: values found again under distinct keys of a larger,
      non-negative map. */
  lemma {:induction false} SumInjection<K(!new), J(!new)>(a: map<K, int>, b: map<J, int>, f: map<K, J>)
    requires f.Keys == a.Keys
    requires forall k :: k in a ==> f[k] in b && a[k] == b[f[k]]
    requires forall k, l :: k in a && l in a && f[k] == f[l] ==> k == l
    requires forall j :: j in b ==> b[j] >= 0
    ensures Sum(a) <= Sum(b)
    decreases |a|
  {
    if a == map[] {
      SumNonNegative(b);
    } else {
      var k :| k in a;
      var a', b', f' := a - {k}, b - {f[k]}, f - {k};
      assert a'.Keys == a.Keys - {k} && |a'| < |a|;
      SumInjection(a', b', f');
      SumChange(a, a', k);
      SumChange(b, b', f[k]);
    }
  }
}
