/**
 * Shared vocabulary: options and results, two's complement wrapping and truncating division as the
 * machine has them, and sums over sequences and over hashes. A hash field that is missing counts as
 * zero, and `Bump` adds to a field as HINCRBY does. The sum of a hash is taken over its fields in
 * some order; the lemmas say that the order does not matter, by what one more or one less field
 * does to the sum.
 */
module Base {

  datatype Option<+T> = None | Some(value: T)

  datatype Result<+T, +E> = Ok(value: T) | Err(error: E)

  const MAX_INT64 := 0x7fff_ffff_ffff_ffff
  const MIN_INT64 := -0x8000_0000_0000_0000

  /** Two's-complement wrap-around of a 64-bit machine integer. */
  function Wrap(x: int): (w: int)
    ensures MIN_INT64 <= w <= MAX_INT64
    ensures MIN_INT64 <= x <= MAX_INT64 ==> w == x
  {
    (x + 0x8000_0000_0000_0000) % 0x1_0000_0000_0000_0000 - 0x8000_0000_0000_0000
  }

  /** Division as the machine does it: towards zero. */
  function TruncDiv(x: int, y: int): (q: int)
    requires y != 0
  {
    if x >= 0 then x / y else -((-x) / y)
  }

  // ---------- sums over sequences ----------

  function SumBy<T>(s: seq<T>, f: T -> int): int
  {
    if s == [] then 0 else SumBy(s[..|s| - 1], f) + f(s[|s| - 1])
  }

  lemma SumBySnoc<T>(s: seq<T>, x: T, f: T -> int)
    ensures SumBy(s + [x], f) == SumBy(s, f) + f(x)
  {
    assert (s + [x])[..|s|] == s;
  }

  lemma {:induction false} SumByConcat<T>(a: seq<T>, b: seq<T>, f: T -> int)
    ensures SumBy(a + b, f) == SumBy(a, f) + SumBy(b, f)
    decreases |b|
  {
    if b == [] {
      assert a + b == a;
    } else {
      var n := |b| - 1;
      assert a + b == (a + b[..n]) + [b[n]];
      SumBySnoc(a + b[..n], b[n], f);
      SumByConcat(a, b[..n], f);
    }
  }

  /** A pointwise bound carries over to the sums. */
  lemma {:induction false} SumByMonotone<T>(s: seq<T>, f: T -> int, g: T -> int)
    requires forall i :: 0 <= i < |s| ==> f(s[i]) <= g(s[i])
    ensures SumBy(s, f) <= SumBy(s, g)
  {
    if s != [] {
      SumByMonotone(s[..|s| - 1], f, g);
    }
  }

  lemma {:induction false} SumByAdd<T>(s: seq<T>, f: T -> int, g: T -> int, h: T -> int)
    requires forall i :: 0 <= i < |s| ==> h(s[i]) == f(s[i]) + g(s[i])
    ensures SumBy(s, h) == SumBy(s, f) + SumBy(s, g)
  {
    if s != [] {
      SumByAdd(s[..|s| - 1], f, g, h);
    }
  }

  // ---------- sums over hashes ----------

  /** A missing hash field reads as zero, as HINCRBY treats it. */
  function Get<K>(m: map<K, int>, k: K): int
  {
    if k in m then m[k] else 0
  }

  /** HINCRBY: add to a field, creating it when it is missing. */
  function Bump<K>(m: map<K, int>, k: K, d: int): map<K, int>
  {
    m[k := Get(m, k) + d]
  }

  ghost function MapSum<K>(m: map<K, int>): int
    decreases |m.Keys|
  {
    if m == map[] then 0 else
      var k :| k in m;
      assert (m - {k}).Keys == m.Keys - {k};
      m[k] + MapSum(m - {k})
  }

  /** The sum does not depend on the order in which fields are taken out. */
  lemma {:induction false} MapSumRemove<K>(m: map<K, int>, k: K)
    requires k in m
    ensures MapSum(m) == m[k] + MapSum(m - {k})
    decreases |m.Keys|
  {
    var j :| j in m && MapSum(m) == m[j] + MapSum(m - {j});
    if j != k {
      assert (m - {j}).Keys == m.Keys - {j} && (m - {k}).Keys == m.Keys - {k};
      MapSumRemove(m - {j}, k);
      MapSumRemove(m - {k}, j);
      assert m - {j} - {k} == m - {k} - {j};
    }
  }

  lemma MapSumSet<K>(m: map<K, int>, k: K, v: int)
    ensures MapSum(m[k := v]) == MapSum(m) - Get(m, k) + v
  {
    MapSumRemove(m[k := v], k);
    assert m[k := v] - {k} == m - {k};
    if k in m {
      MapSumRemove(m, k);
    } else {
      assert m - {k} == m;
    }
  }

  lemma {:induction false} MapSumBounds<K>(m: map<K, int>, k: K)
    requires forall j :: j in m ==> m[j] >= 0
    ensures 0 <= Get(m, k) <= MapSum(m)
    decreases |m.Keys|
  {
    if m != map[] {
      var j := if k in m then k else var i :| i in m; i;
      MapSumRemove(m, j);
      assert (m - {j}).Keys == m.Keys - {j};
      MapSumBounds(m - {j}, k);
    }
  }
}
