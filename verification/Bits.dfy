/** Bits, parities, powers of two and the bitwise XOR of machine words: the vocabulary
    every other module is stated in. */
module Bits {

  type Bits = seq<bool>

  datatype Option<+T> = None | Some(value: T)

  /* ---------- powers of two and byte rounding ---------- */

  function Pow2(n: nat): (r: nat)
    ensures r > 0
  {
    if n == 0 then 1 else 2 * Pow2(n - 1)
  }

  lemma Twice(x: nat, y: nat)
    ensures 2 * (x * y) == (2 * x) * y
  {
  }

  lemma {:induction false} Pow2Add(a: nat, b: nat)
    ensures Pow2(a + b) == Pow2(a) * Pow2(b)
  {
    if a == 0 {
      assert 1 * Pow2(b) == Pow2(b);
    } else {
      Pow2Add(a - 1, b);
      Twice(Pow2(a - 1), Pow2(b));
    }
  }

  lemma {:induction false} Pow2Monotone(a: nat, b: nat)
    requires a <= b
    ensures Pow2(a) <= Pow2(b)
    decreases b
  {
    if a < b { Pow2Monotone(a, b - 1); }
  }

  /** A power of two of at least eight fills whole bytes. */
  lemma Pow2Bytes(k: nat)
    requires k >= 3
    ensures Pow2(k) == 8 * Pow2(k - 3)
  {
    Pow2Add(3, k - 3);
    assert Pow2(3) == 8;
  }

  /** The product, as repeated addition: keeps products out of the way of routing proofs. */
  function Times(n: nat, m: nat): nat { if n == 0 then 0 else Times(n - 1, m) + m }

  lemma {:induction false} TimesBound(q: nat, n: nat, m: nat)
    requires q < n
    ensures Times(q, m) + m <= Times(n, m)
    decreases n
  {
    if q < n - 1 { TimesBound(q, n - 1, m); }
  }

  lemma {:induction false} TimesIsProduct(n: nat, m: nat)
    ensures Times(n, m) == n * m
  {
    if n > 0 {
      TimesIsProduct(n - 1, m);
      assert (n - 1) * m + m == n * m;
    }
  }

  /** `usize::div_ceil(8)`: the bytes that `n` bits occupy. */
  function CeilDiv8(n: nat): nat { (n + 7) / 8 }

  lemma CeilDiv8Shift(a: nat, b: nat)
    ensures CeilDiv8(8 * a + b) == a + CeilDiv8(b)
  {
  }

  lemma MulSign(m: nat, d: int)
    ensures d >= 1 ==> m * d >= m
    ensures d <= -1 ==> m * d <= -(m as int)
  {
  }

  lemma DivModUnique(q: nat, r: nat, m: nat)
    requires r < m
    ensures (q * m + r) / m == q && (q * m + r) % m == r
  {
    var x := q * m + r;
    var d := x / m - q;
    assert m * d + x % m - r == 0;
    MulSign(m, d);
  }

  lemma DivBound(j: nat, n: nat, m: nat)
    requires n > 0 && j < n * m
    ensures j / n < m
  {
    MulSign(n, j / n - m + 1);
    assert n * (j / n - m) == n * (j / n) - n * m;
    MulSign(n, j / n - m);
  }

  /* ---------- parity of a sequence of bits ---------- */

  /** XOR of all the bits: how a column of boolean shares is reconstructed. */
  function Parity(s: Bits): bool
  {
    if |s| == 0 then false else Parity(s[..|s| - 1]) != s[|s| - 1]
  }

  lemma {:induction false} ParityOne(s: Bits)
    requires |s| == 1
    ensures Parity(s) == s[0]
  {
    assert s[..0] == [];
  }

  lemma {:induction false} ParityXor(a: Bits, b: Bits, c: Bits)
    requires |a| == |b| == |c|
    requires forall i :: 0 <= i < |a| ==> c[i] == (a[i] != b[i])
    ensures Parity(c) == (Parity(a) != Parity(b))
  {
    if |a| > 0 {
      var n := |a| - 1;
      ParityXor(a[..n], b[..n], c[..n]);
    }
  }

  lemma {:induction false} ParityAnd(k: bool, a: Bits, b: Bits)
    requires |a| == |b|
    requires forall i :: 0 <= i < |a| ==> b[i] == (k && a[i])
    ensures Parity(b) == (k && Parity(a))
  {
    if |a| > 0 {
      var n := |a| - 1;
      ParityAnd(k, a[..n], b[..n]);
    }
  }

  lemma {:induction false} ParityZero(a: Bits)
    requires forall i :: 0 <= i < |a| ==> !a[i]
    ensures !Parity(a)
  {
    if |a| > 0 { ParityZero(a[..|a| - 1]); }
  }

  /** A sequence whose only possible one sits at `k` has that bit as its parity. */
  lemma {:induction false} ParitySingle(a: Bits, k: nat)
    requires k < |a|
    requires forall i :: 0 <= i < |a| && i != k ==> !a[i]
    ensures Parity(a) == a[k]
  {
    var n := |a| - 1;
    if k == n {
      ParityZero(a[..n]);
    } else {
      ParitySingle(a[..n], k);
    }
  }

  lemma {:induction false} ParityConcat(a: Bits, b: Bits)
    ensures Parity(a + b) == (Parity(a) != Parity(b))
  {
    if |b| == 0 {
      assert a + b == a;
    } else {
      var n := |b| - 1;
      ParityConcat(a, b[..n]);
      assert (a + b)[..|a + b| - 1] == a + b[..n];
    }
  }

  function BoolSeq(n: nat, b: bool): (s: Bits)
    ensures |s| == n && forall i :: 0 <= i < n ==> s[i] == b
  {
    seq(n, i => b)
  }

  /** Pointwise XOR of two equally long streams. */
  function XorBits(a: Bits, b: Bits): (c: Bits)
    requires |a| == |b|
    ensures |c| == |a| && forall i :: 0 <= i < |a| ==> c[i] == (a[i] != b[i])
  {
    seq(|a|, i requires 0 <= i < |a| => a[i] != b[i])
  }

  function AndBits(a: Bits, b: Bits): (c: Bits)
    requires |a| == |b|
    ensures |c| == |a| && forall i :: 0 <= i < |a| ==> c[i] == (a[i] && b[i])
  {
    seq(|a|, i requires 0 <= i < |a| => a[i] && b[i])
  }

  /** Overwrites `dest` with `src` from bit `at` on: the effect of `copy_from`. */
  function Splice(dest: Bits, at: nat, src: Bits): (r: Bits)
    requires at + |src| <= |dest|
    ensures |r| == |dest|
    ensures forall j :: 0 <= j < |dest| ==>
              r[j] == if at <= j < at + |src| then src[j - at] else dest[j]
  {
    dest[..at] + src + dest[at + |src|..]
  }

  /** Two adjacent copies are one. */
  lemma SpliceMore(dest: Bits, at: nat, a: Bits, b: Bits)
    requires at + |a| + |b| <= |dest|
    ensures Splice(Splice(dest, at, a), at + |a|, b) == Splice(dest, at, a + b)
  {
  }

  /** The value of an owned bit array: every bit of its bytes, and how many of them are valid.
      The bits after the last valid one are padding and may hold anything. */
  datatype BitVec = BitVec(bits: Bits, size: nat) {
    predicate Valid() { |bits| == 8 * CeilDiv8(size) }

    function Data(): Bits
      requires Valid()
    {
      bits[..size]
    }
  }

  /* ---------- shares of a stream: one row per party ---------- */

  /** All rows of the matrix have length `w`. */
  predicate Rect(m: seq<Bits>, w: nat) { forall i :: 0 <= i < |m| ==> |m[i]| == w }

  /** Bit `j`, or zero past the end. */
  predicate At(s: Bits, j: nat) { j < |s| && s[j] }

  /** Column `j`: every party's share of bit `j`. */
  function Col(m: seq<Bits>, j: nat): (c: Bits)
    ensures |c| == |m| && forall i :: 0 <= i < |m| ==> c[i] == At(m[i], j)
  {
    seq(|m|, i requires 0 <= i < |m| => At(m[i], j))
  }

  /** Bit `j` of the value shared by the rows of `m`. */
  predicate Rec(m: seq<Bits>, j: nat) { Parity(Col(m, j)) }

  lemma SameColumn(a: seq<Bits>, j: nat, b: seq<Bits>, k: nat)
    requires |a| == |b| && forall i :: 0 <= i < |a| ==> At(a[i], j) == At(b[i], k)
    ensures Rec(a, j) == Rec(b, k)
  {
    assert Col(a, j) == Col(b, k);
  }

  /** The value shared by the rows of `m`. */
  function RecBits(m: seq<Bits>, w: nat): (r: Bits)
    requires Rect(m, w)
    ensures |r| == w && forall j :: 0 <= j < w ==> r[j] == Rec(m, j)
  {
    seq(w, j requires 0 <= j < w => Rec(m, j))
  }

  function RowParities(m: seq<Bits>): (r: Bits)
    ensures |r| == |m| && forall i :: 0 <= i < |m| ==> r[i] == Parity(m[i])
  {
    seq(|m|, i requires 0 <= i < |m| => Parity(m[i]))
  }

  /** Parity is linear over shares: the parties' parities are shares of the parity. */
  lemma {:induction false} ParityOfShares(m: seq<Bits>, w: nat)
    requires Rect(m, w)
    ensures Parity(RowParities(m)) == Parity(RecBits(m, w))
  {
    if |m| == 0 {
      assert RecBits(m, w) == BoolSeq(w, false);
      ParityZero(RecBits(m, w));
    } else {
      var k := |m| - 1;
      var top := m[..k];
      ParityOfShares(top, w);
      assert RowParities(m)[..k] == RowParities(top);
      forall j | 0 <= j < w
        ensures RecBits(m, w)[j] == (RecBits(top, w)[j] != m[k][j])
      {
        assert Col(m, j)[..k] == Col(top, j);
      }
      ParityXor(RecBits(top, w), m[k], RecBits(m, w));
    }
  }

  /* ---------- bitwise XOR of machine words ---------- */

  function XorNat(x: nat, y: nat): nat
    decreases x + y
  {
    if x == 0 && y == 0 then 0
    else 2 * XorNat(x / 2, y / 2) + if x % 2 != y % 2 then 1 else 0
  }

  lemma HalfSplit(x: nat, m: nat)
    requires m > 0
    ensures x / (2 * m) == (x / 2) / m
    ensures x % (2 * m) == 2 * ((x / 2) % m) + x % 2
  {
    var q, r := (x / 2) / m, (x / 2) % m;
    assert x / 2 == q * m + r;
    assert x == q * (2 * m) + (2 * r + x % 2);
    DivModUnique(q, 2 * r + x % 2, 2 * m);
  }

  lemma {:induction false} XorStep(x: nat, y: nat)
    ensures XorNat(x, y) / 2 == XorNat(x / 2, y / 2)
    ensures XorNat(x, y) % 2 == if x % 2 != y % 2 then 1 else 0
  {
  }

  /** `x >> k`, one bit at a time. */
  function Shr(x: nat, k: nat): nat { if k == 0 then x else Shr(x / 2, k - 1) }

  /** `x & ((1 << k) - 1)`, one bit at a time. */
  function Mask(x: nat, k: nat): nat { if k == 0 then 0 else 2 * Mask(x / 2, k - 1) + x % 2 }

  /** Shifting and masking divide by a power of two. */
  lemma {:induction false} ShrMask(x: nat, k: nat)
    ensures Shr(x, k) == x / Pow2(k)
    ensures Mask(x, k) == x % Pow2(k)
  {
    if k > 0 {
      ShrMask(x / 2, k - 1);
      HalfSplit(x, Pow2(k - 1));
    }
  }

  lemma QuotRem(x: nat, m: nat)
    requires m > 0
    ensures x == (x / m) * m + x % m
  {
  }

  /** x = (x >> k) * 2^k + (x & (2^k - 1)) */
  lemma {:induction false} ShrMaskJoin(x: nat, k: nat)
    ensures x == Times(Shr(x, k), Pow2(k)) + Mask(x, k)
  {
    ShrMask(x, k);
    TimesIsProduct(Shr(x, k), Pow2(k));
    QuotRem(x, Pow2(k));
  }

  /** The two parts of a word below 2^k. */
  lemma PartBelow(j: nat, k: nat, s: nat)
    requires s <= k && j < Pow2(k)
    ensures Mask(j, s) < Pow2(s) && Shr(j, s) < Pow2(k - s)
  {
    Pow2Add(s, k - s);
    ShrMask(j, s);
    DivBound(j, Pow2(s), Pow2(k - s));
  }

  /** XOR acts on the low and the high bits of a word separately. */
  lemma {:induction false} XorSplit(x: nat, y: nat, k: nat)
    ensures Shr(XorNat(x, y), k) == XorNat(Shr(x, k), Shr(y, k))
    ensures Mask(XorNat(x, y), k) == XorNat(Mask(x, k), Mask(y, k))
  {
    XorHigh(x, y, k);
    XorLow(x, y, k);
  }

  lemma {:induction false} XorHigh(x: nat, y: nat, k: nat)
    ensures Shr(XorNat(x, y), k) == XorNat(Shr(x, k), Shr(y, k))
    decreases k
  {
    if k > 0 {
      XorHigh(x / 2, y / 2, k - 1);
      XorStep(x, y);
    }
  }

  lemma MaskStep(x: nat, k: nat)
    requires k > 0
    ensures Mask(x, k) / 2 == Mask(x / 2, k - 1) && Mask(x, k) % 2 == x % 2
  {
  }

  /** Two numbers with equal halves and equal low bits. */
  lemma {:induction false} XorFrom(x: nat, y: nat, r: nat)
    requires r / 2 == XorNat(x / 2, y / 2) && r % 2 == if x % 2 != y % 2 then 1 else 0
    ensures r == XorNat(x, y)
  {
    XorStep(x, y);
  }

  lemma {:induction false} XorLow(x: nat, y: nat, k: nat)
    ensures Mask(XorNat(x, y), k) == XorNat(Mask(x, k), Mask(y, k))
    decreases k
  {
    if k > 0 {
      XorLow(x / 2, y / 2, k - 1);
      MaskStep(x, k);
      MaskStep(y, k);
      XorStep(x, y);
      MaskStep(XorNat(x, y), k);
      XorFrom(Mask(x, k), Mask(y, k), Mask(XorNat(x, y), k));
    }
  }

  lemma {:induction false} XorBelow(x: nat, y: nat, k: nat)
    requires x < Pow2(k) && y < Pow2(k)
    ensures XorNat(x, y) < Pow2(k)
  {
    if k > 0 { XorBelow(x / 2, y / 2, k - 1); }
  }

  /** `fold(0, |acc, s| acc ^ s)` */
  function XorAll(s: seq<nat>): nat
  {
    if |s| == 0 then 0 else XorNat(XorAll(s[..|s| - 1]), s[|s| - 1])
  }

  function LowParts(s: seq<nat>, k: nat): (r: seq<nat>)
    ensures |r| == |s| && forall i :: 0 <= i < |s| ==> r[i] == Mask(s[i], k)
  {
    seq(|s|, i requires 0 <= i < |s| => Mask(s[i], k))
  }

  function HighParts(s: seq<nat>, k: nat): (r: seq<nat>)
    ensures |r| == |s| && forall i :: 0 <= i < |s| ==> r[i] == Shr(s[i], k)
  {
    seq(|s|, i requires 0 <= i < |s| => Shr(s[i], k))
  }

  lemma {:induction false} XorAllSplit(s: seq<nat>, k: nat)
    ensures XorAll(LowParts(s, k)) == Mask(XorAll(s), k)
    ensures XorAll(HighParts(s, k)) == Shr(XorAll(s), k)
  {
    ShrMask(0, k);
    if |s| > 0 {
      var n := |s| - 1;
      XorAllSplit(s[..n], k);
      assert LowParts(s, k)[..n] == LowParts(s[..n], k);
      assert HighParts(s, k)[..n] == HighParts(s[..n], k);
      XorSplit(XorAll(s[..n]), s[n], k);
    }
  }

  /** Bit `i` of a word: `(value >> i) & 1 != 0`. */
  predicate BitAt(x: nat, i: nat) { Shr(x, i) % 2 == 1 }

  function BitCol(s: seq<nat>, i: nat): (r: Bits)
    ensures |r| == |s| && forall p :: 0 <= p < |s| ==> r[p] == BitAt(s[p], i)
  {
    seq(|s|, p requires 0 <= p < |s| => BitAt(s[p], i))
  }

  /** Bit `i` of the XOR of words is the parity of their bits `i`. */
  lemma {:induction false} BitOfXorAll(s: seq<nat>, i: nat)
    ensures BitAt(XorAll(s), i) == Parity(BitCol(s, i))
  {
    if |s| == 0 {
      ShrMask(0, i);
      assert Shr(0, i) == 0;
    } else {
      var n := |s| - 1;
      BitOfXorAll(s[..n], i);
      assert BitCol(s, i)[..n] == BitCol(s[..n], i);
      BitOfXor(XorAll(s[..n]), s[n], i);
    }
  }

  lemma {:induction false} BitOfXor(x: nat, y: nat, i: nat)
    ensures BitAt(XorNat(x, y), i) == (BitAt(x, i) != BitAt(y, i))
  {
    XorSplit(x, y, i);
    XorStep(Shr(x, i), Shr(y, i));
  }

  lemma {:induction false} XorAllBelow(s: seq<nat>, k: nat)
    requires forall i :: 0 <= i < |s| ==> s[i] < Pow2(k)
    ensures XorAll(s) < Pow2(k)
  {
    if |s| > 0 {
      var n := |s| - 1;
      XorAllBelow(s[..n], k);
      XorBelow(XorAll(s[..n]), s[n], k);
    }
  }
}
