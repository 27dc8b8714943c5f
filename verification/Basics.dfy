/** Small notions shared by several models. */
module Basics {

  const TWO_16 := 0x1_0000
  const TWO_31 := 0x8000_0000
  const TWO_32 := 0x1_0000_0000
  const TWO_48 := 0x1_0000_0000_0000
  const TWO_64 := 0x1_0000_0000_0000_0000

  function One(b: bool): nat {
    if b then 1 else 0
  }

  function Pow2(k: nat): (r: nat)
    ensures r > 0
  {
    if k == 0 then 1 else 2 * Pow2(k - 1)
  }

  lemma SubsetSize<T>(a: set<T>, b: set<T>)
    requires a <= b
    ensures |a| <= |b|
  {
    assert b == a + (b - a);
  }

  ghost predicate Distinct(q: seq<nat>) {
    forall j, k :: 0 <= j < k < |q| ==> q[j] != q[k]
  }

  /** `q` without the first occurrence of `n`. */
  function Without(q: seq<nat>, n: nat): (r: seq<nat>)
    ensures n !in q ==> r == q
  {
    if q == [] then []
    else if q[0] == n then q[1..]
    else [q[0]] + Without(q[1..], n)
  }

  lemma CutTail(q: seq<nat>, k: nat)
    requires k + 1 < |q|
    ensures [q[0]] + (q[1..][..k] + q[1..][k + 1..]) == q[..k + 1] + q[k + 2..]
  {
    assert [q[0]] + q[1..][..k] == q[..k + 1] && q[1..][k + 1..] == q[k + 2..];
  }

  /** Removal cuts out one position that holds `n`. */
  lemma {:induction false} WithoutIs(q: seq<nat>, n: nat) returns (k: nat)
    requires n in q
    ensures k < |q| && q[k] == n && Without(q, n) == q[..k] + q[k + 1..]
  {
    if q[0] == n {
      k := 0;
    } else {
      k := WithoutIs(q[1..], n);
      CutTail(q, k);
      k := k + 1;
    }
  }

  lemma CutDistinct(q: seq<nat>, k: nat)
    requires k < |q| && Distinct(q)
    ensures Distinct(q[..k] + q[k + 1..])
    ensures forall m :: m in q[..k] + q[k + 1..] <==> m in q && m != q[k]
  {
    var r := q[..k] + q[k + 1..];
    forall m ensures m in r <==> m in q && m != q[k] {
      if m in q && m != q[k] {
        var j :| 0 <= j < |q| && q[j] == m;
        assert r[if j < k then j else j - 1] == m;
      }
    }
  }

  /** Removal from a sequence of distinct numbers removes exactly that number. */
  lemma WithoutMembers(q: seq<nat>, n: nat)
    requires Distinct(q)
    ensures Distinct(Without(q, n)) && |Without(q, n)| == |q| - One(n in q)
    ensures forall m :: m in Without(q, n) <==> m in q && m != n
  {
    if n in q {
      var k := WithoutIs(q, n);
      CutDistinct(q, k);
    }
  }

  // ------------------------------------------------------------------ division

  lemma Multiple(d: int, m: int)
    requires d > 0
    ensures m >= 1 ==> d * m >= d
    ensures m <= -1 ==> d * m <= -d
  {
  }

  lemma Difference(d: int, q: int, p: int)
    ensures d * (q - p) == d * q - d * p
  {
  }

  lemma DivModUnique(x: int, d: nat, q: int, r: int)
    requires d > 0 && x == d * q + r && 0 <= r < d
    ensures x / d == q && x % d == r
  {
    var p := x / d;
    Difference(d, q, p);
    Multiple(d, q - p);
  }
}
