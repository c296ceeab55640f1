/** The scalar field's ring operations: integers modulo M, for any modulus M > 0. */
module Scalars {
  import opened Bits
  import opened Folds

  /** `+=`, `-=` and `*=` of an arithmetic value. */
  function Add(M: nat, a: int, b: int): int
    requires M > 0
  { (a + b) % M }

  function Sub(M: nat, a: int, b: int): int
    requires M > 0
  { (a - b) % M }

  function Mul(M: nat, a: int, b: int): int
    requires M > 0
  { (a * b) % M }

  /** Equal as scalars. */
  predicate Same(M: nat, a: int, b: int)
    requires M > 0
  { a % M == b % M }

  lemma ModOf(M: nat, q: int, r: nat)
    requires r < M
    ensures (q * M + r) % M == r
  {
    var x := q * M + r;
    var d := x / M - q;
    assert M * d + x % M - r == 0;
    MulSign(M, d);
  }

  lemma ModShift(M: nat, a: int, k: int)
    requires M > 0
    ensures (a + k * M) % M == a % M
  {
    var q, r := a / M, a % M;
    assert a + k * M == (q + k) * M + r;
    ModOf(M, q + k, r);
  }

  /** Two integers are equal as scalars when they differ by a multiple of M. */
  lemma SameBy(M: nat, a: int, b: int, k: int)
    requires M > 0 && a == b + k * M
    ensures Same(M, a, b)
  {
    ModShift(M, b, k);
  }

  lemma Quotient(M: nat, a: int, b: int) returns (k: int)
    requires M > 0 && Same(M, a, b)
    ensures a == b + k * M
  {
    k := a / M - b / M;
    assert a == (a / M) * M + a % M && b == (b / M) * M + b % M;
    assert (a / M - b / M) * M == (a / M) * M - (b / M) * M;
  }

  lemma SameMod(M: nat, a: int)
    requires M > 0
    ensures Same(M, a % M, a)
  {
    assert a % M == a + (-(a / M)) * M;
    SameBy(M, a % M, a, -(a / M));
  }

  lemma SameAdd(M: nat, a: int, b: int, c: int, d: int)
    requires M > 0 && Same(M, a, b) && Same(M, c, d)
    ensures Same(M, a + c, b + d)
  {
    var i := Quotient(M, a, b);
    var j := Quotient(M, c, d);
    assert i * M + j * M == (i + j) * M;
    SameBy(M, a + c, b + d, i + j);
  }

  lemma SameMul(M: nat, a: int, b: int, c: int)
    requires M > 0 && Same(M, a, b)
    ensures Same(M, a * c, b * c)
  {
    var i := Quotient(M, a, b);
    assert a * c == b * c + (i * c) * M;
    SameBy(M, a * c, b * c, i * c);
  }

  lemma SameSub(M: nat, a: int, b: int, c: int, d: int)
    requires M > 0 && Same(M, a, b) && Same(M, c, d)
    ensures Same(M, a - c, b - d)
  {
    SameMul(M, c, d, -1);
    SameAdd(M, a, b, c * -1, d * -1);
  }

  /** Adding up reduced summands is adding up the summands. */
  lemma {:induction false} SameSum(M: nat, s: seq<int>, t: seq<int>)
    requires M > 0 && |s| == |t| && forall i :: 0 <= i < |s| ==> Same(M, s[i], t[i])
    ensures Same(M, Sum(s), Sum(t))
  {
    if |s| > 0 {
      var n := |s| - 1;
      SameSum(M, s[..n], t[..n]);
      SameAdd(M, Sum(s[..n]), Sum(t[..n]), s[n], t[n]);
    }
  }

  lemma {:induction false} SumAdd(a: seq<int>, b: seq<int>, c: seq<int>)
    requires |a| == |b| == |c| && forall i :: 0 <= i < |a| ==> c[i] == a[i] + b[i]
    ensures Sum(c) == Sum(a) + Sum(b)
  {
    if |a| > 0 {
      var n := |a| - 1;
      SumAdd(a[..n], b[..n], c[..n]);
    }
  }

  lemma {:induction false} SumScale(a: seq<int>, k: int, b: seq<int>)
    requires |a| == |b| && forall i :: 0 <= i < |a| ==> b[i] == a[i] * k
    ensures Sum(b) == Sum(a) * k
  {
    if |a| > 0 {
      var n := |a| - 1;
      SumScale(a[..n], k, b[..n]);
      assert Sum(a[..n]) * k + a[n] * k == (Sum(a[..n]) + a[n]) * k;
    }
  }

  /** Only the first summand may differ from zero. */
  lemma {:induction false} SumFirst(s: seq<int>)
    requires |s| > 0 && forall i :: 0 < i < |s| ==> s[i] == 0
    ensures Sum(s) == s[0]
  {
    var n := |s| - 1;
    if n == 0 {
      assert s[..0] == [];
    } else {
      SumFirst(s[..n]);
    }
  }

  /* ---------- prime moduli ---------- */

  predicate Prime(M: nat) { M >= 2 && forall d :: 1 < d < M ==> M % d != 0 }

  /** A product is zero exactly when one of its factors is. */
  lemma ZeroProduct(M: nat, a: int, b: int)
    requires Prime(M)
    ensures Same(M, a * b, 0) <==> Same(M, a, 0) || Same(M, b, 0)
  {
    SameMod(M, a);
    SameMul(M, a % M, a, b);
    if Same(M, a, 0) { SameMul(M, a, 0, b); }
    if Same(M, b, 0) { SameMul(M, b, 0, a); }
    if Same(M, a * b, 0) && !Same(M, a, 0) { Euclid(M, a % M, b); }
  }

  lemma RestZero(M: nat, a: nat, b: int, q: int, r: nat)
    requires M > 0 && M == q * a + r && Same(M, a * b, 0)
    ensures Same(M, r * b, 0)
  {
    RestTimes(M, a, b, q, r);
    SameMul(M, a * b, 0, -q);
    SameBy(M, r * b, (a * b) * -q, b);
  }

  lemma RestTimes(M: nat, a: nat, b: int, q: int, r: nat)
    requires M == q * a + r
    ensures r * b == (a * b) * -q + b * M
  {
    assert (q * a + r) * b == (q * a) * b + r * b;
    assert (q * a) * b == q * (a * b);
  }

  /** Euclid's lemma, dividing the modulus by the factor until that is 1. */
  lemma {:induction false} Euclid(M: nat, a: nat, b: int)
    requires Prime(M) && 0 < a < M && Same(M, a * b, 0)
    ensures Same(M, b, 0)
    decreases a
  {
    if a > 1 {
      RestZero(M, a, b, M / a, M % a);
      Euclid(M, M % a, b);
    }
  }
}
