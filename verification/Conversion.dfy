/** From boolean to arithmetic shares with daBits. */
module Conversion {
  import opened Bits
  import opened Folds
  import opened Scalars

  /** A share of a value of `bitLen` bits. */
  datatype BooleanValue = BooleanValue(bitLen: nat, value: nat) {
    predicate Valid() { bitLen <= 32 && value < Pow2(bitLen) }
  }

  /** A share of one random bit, in both domains. */
  datatype DaBit = DaBit(r2: bool, rp: int)

  function ToInt(b: bool): int { if b then 1 else 0 }

  /** `bit_A = e + [r_A] - 2e[r_A]`, weighted by 2^i, in the order the code computes it. */
  function BitTerm(M: nat, isConst: bool, e: bool, rp: int, i: nat): int
    requires M > 0
  {
    var blinded := Sub(M, rp, Mul(M, rp, 2 * ToInt(e)));
    var round := if isConst then Add(M, blinded, ToInt(e)) else blinded;
    Mul(M, round, Pow2(i))
  }

  /** One party's arithmetic share of the first `len` bits of a value, whose opened bits `e` and
      daBits `ds` start at `off`. */
  function ValueShare(M: nat, isConst: bool, e: Bits, ds: seq<DaBit>, off: nat, len: nat): int
    requires M > 0 && off + len <= |e| == |ds|
    decreases len
  {
    if len == 0 then 0
    else Add(M, ValueShare(M, isConst, e, ds, off, len - 1),
             BitTerm(M, isConst, e[off + len - 1], ds[off + len - 1].rp, len - 1))
  }

  function RawTerm(isConst: bool, e: bool, rp: int, i: nat): int {
    (rp - rp * (2 * ToInt(e)) + ToInt(isConst && e)) * Pow2(i)
  }

  lemma TermIsRaw(M: nat, isConst: bool, e: bool, rp: int, i: nat)
    requires M > 0
    ensures Same(M, BitTerm(M, isConst, e, rp, i), RawTerm(isConst, e, rp, i))
  {
    var t := 2 * ToInt(e);
    SameMod(M, rp * t);
    SameSub(M, rp, rp, Mul(M, rp, t), rp * t);
    var blinded := Sub(M, rp, Mul(M, rp, t));
    SameMod(M, rp - Mul(M, rp, t));
    SameAdd(M, blinded, rp - rp * t, ToInt(e), ToInt(e));
    SameMod(M, blinded + ToInt(e));
    var round := if isConst then Add(M, blinded, ToInt(e)) else blinded;
    SameMul(M, round, rp - rp * t + ToInt(isConst && e), Pow2(i));
    SameMod(M, round * Pow2(i));
  }

  /* ---------- one bit, over all parties ---------- */

  function Rps(ds: seq<seq<DaBit>>, j: nat): (r: seq<int>)
    requires forall p :: 0 <= p < |ds| ==> j < |ds[p]|
    ensures |r| == |ds| && forall p :: 0 <= p < |ds| ==> r[p] == ds[p][j].rp
  {
    seq(|ds|, p requires 0 <= p < |ds| => ds[p][j].rp)
  }

  function R2s(ds: seq<seq<DaBit>>, j: nat): (r: Bits)
    requires forall p :: 0 <= p < |ds| ==> j < |ds[p]|
    ensures |r| == |ds| && forall p :: 0 <= p < |ds| ==> r[p] == ds[p][j].r2
  {
    seq(|ds|, p requires 0 <= p < |ds| => ds[p][j].r2)
  }

  predicate DaBitsFit(ds: seq<seq<DaBit>>, w: nat) { forall p :: 0 <= p < |ds| ==> |ds[p]| == w }

  /** The parties' daBits share the same bit in both domains. */
  predicate GoodDaBits(M: nat, ds: seq<seq<DaBit>>, w: nat)
    requires M > 0 && DaBitsFit(ds, w)
  {
    forall j :: 0 <= j < w ==> Same(M, Sum(Rps(ds, j)), ToInt(Parity(R2s(ds, j))))
  }

  function RawTerms(rs: seq<int>, e: bool, i: nat): (r: seq<int>)
    ensures |r| == |rs| && forall p :: 0 <= p < |rs| ==> r[p] == RawTerm(p == 0, e, rs[p], i)
  {
    seq(|rs|, p requires 0 <= p < |rs| => RawTerm(p == 0, e, rs[p], i))
  }

  function Flips(n: nat, e: bool): (r: seq<int>)
    ensures |r| == n && forall p :: 0 <= p < n ==> r[p] == ToInt(p == 0 && e)
  {
    seq(n, p => ToInt(p == 0 && e))
  }

  function Blinds(rs: seq<int>, e: bool): (r: seq<int>)
    ensures |r| == |rs| && forall p :: 0 <= p < |rs| ==> r[p] == rs[p] * (1 - 2 * ToInt(e))
  {
    seq(|rs|, p requires 0 <= p < |rs| => rs[p] * (1 - 2 * ToInt(e)))
  }

  /** e + r - 2er acts as XOR, and the constant e is added once. */
  lemma {:induction false} RawSum(rs: seq<int>, e: bool, i: nat)
    requires |rs| > 0
    ensures Sum(RawTerms(rs, e, i)) == (Sum(rs) * (1 - 2 * ToInt(e)) + ToInt(e)) * Pow2(i)
  {
    var n := |rs|;
    var inner := seq(n, p requires 0 <= p < n => Blinds(rs, e)[p] + Flips(n, e)[p]);
    SumScale(rs, 1 - 2 * ToInt(e), Blinds(rs, e));
    SumFirst(Flips(n, e));
    SumAdd(Blinds(rs, e), Flips(n, e), inner);
    forall p | 0 <= p < n ensures RawTerms(rs, e, i)[p] == inner[p] * Pow2(i) {
      RawInner(p == 0, e, rs[p], i);
    }
    SumScale(inner, Pow2(i), RawTerms(rs, e, i));
  }

  lemma {:induction false} RawInner(isConst: bool, e: bool, rp: int, i: nat)
    ensures RawTerm(isConst, e, rp, i) == (rp * (1 - 2 * ToInt(e)) + ToInt(isConst && e)) * Pow2(i)
  {
    assert rp * (1 - 2 * ToInt(e)) == rp - rp * (2 * ToInt(e));
  }

  /** The opened bit e = b ^ r turns shares of r into shares of b. */
  lemma {:induction false} OpenedBit(M: nat, rs: seq<int>, r: bool, e: bool, i: nat)
    requires M > 0 && |rs| > 0 && Same(M, Sum(rs), ToInt(r))
    ensures Same(M, Sum(RawTerms(rs, e, i)), ToInt(e != r) * Pow2(i))
  {
    RawSum(rs, e, i);
    var k := 1 - 2 * ToInt(e);
    SameMul(M, Sum(rs), ToInt(r), k);
    SameAdd(M, Sum(rs) * k, ToInt(r) * k, ToInt(e), ToInt(e));
    assert ToInt(r) * k + ToInt(e) == ToInt(e != r);
    SameMul(M, Sum(rs) * k + ToInt(e), ToInt(e != r), Pow2(i));
  }

  /* ---------- one value, over all parties ---------- */

  function ValueShares(M: nat, e: Bits, ds: seq<seq<DaBit>>, off: nat, len: nat): (r: seq<int>)
    requires M > 0 && off + len <= |e| && DaBitsFit(ds, |e|)
    ensures |r| == |ds| && forall p :: 0 <= p < |ds| ==> r[p] == ValueShare(M, p == 0, e, ds[p], off, len)
  {
    seq(|ds|, p requires 0 <= p < |ds| => ValueShare(M, p == 0, e, ds[p], off, len))
  }

  /** The bits opened at [off, off + len) hide the value `v`. */
  predicate Hides(e: Bits, ds: seq<seq<DaBit>>, off: nat, len: nat, v: nat)
    requires off + len <= |e| && DaBitsFit(ds, |e|)
  {
    forall i :: 0 <= i < len ==> HidesAt(e, ds, off, i, v)
  }

  predicate HidesAt(e: Bits, ds: seq<seq<DaBit>>, off: nat, i: nat, v: nat)
    requires off + i < |e| && DaBitsFit(ds, |e|)
  {
    (e[off + i] != Parity(R2s(ds, off + i))) == BitAt(v, i)
  }

  lemma {:induction false} MaskHigh(v: nat, k: nat)
    ensures Mask(v, k + 1) == Mask(v, k) + ToInt(BitAt(v, k)) * Pow2(k)
  {
    if k == 0 {
      assert Mask(v / 2, 0) == 0 && Shr(v, 0) == v;
    } else {
      MaskHigh(v / 2, k - 1);
    }
  }

  lemma ShareStep(M: nat, e: Bits, ds: seq<seq<DaBit>>, off: nat, len: nat)
    requires M > 0 && off + len < |e| && DaBitsFit(ds, |e|)
    ensures Same(M, Sum(ValueShares(M, e, ds, off, len + 1)),
                 Sum(ValueShares(M, e, ds, off, len)) + Sum(RawTerms(Rps(ds, off + len), e[off + len], len)))
  {
    var a, b := ValueShares(M, e, ds, off, len), ValueShares(M, e, ds, off, len + 1);
    var c := RawTerms(Rps(ds, off + len), e[off + len], len);
    var t := seq(|ds|, p requires 0 <= p < |ds| => a[p] + c[p]);
    forall p | 0 <= p < |ds| ensures Same(M, b[p], t[p]) {
      var bit := BitTerm(M, p == 0, e[off + len], ds[p][off + len].rp, len);
      TermIsRaw(M, p == 0, e[off + len], ds[p][off + len].rp, len);
      SameAdd(M, a[p], a[p], bit, c[p]);
      SameMod(M, a[p] + bit);
    }
    SameSum(M, b, t);
    SumAdd(a, c, t);
  }

  lemma HidesBack(e: Bits, ds: seq<seq<DaBit>>, off: nat, i: nat, j: nat, v: nat)
    requires j == off + i && j < |e| && DaBitsFit(ds, |e|) && HidesAt(e, ds, off, i, v)
    ensures (e[j] != Parity(R2s(ds, j))) == BitAt(v, i)
  {
  }

  /** The terms of one opened bit sum to the bit it hides, at its weight. */
  lemma {:induction false} BitCorrect(M: nat, e: Bits, ds: seq<seq<DaBit>>, off: nat, k: nat, v: nat)
    requires M > 0 && off + k < |e| && |ds| > 0 && DaBitsFit(ds, |e|) && GoodDaBits(M, ds, |e|)
    requires HidesAt(e, ds, off, k, v)
    ensures Same(M, Sum(RawTerms(Rps(ds, off + k), e[off + k], k)), ToInt(BitAt(v, k)) * Pow2(k))
  {
    var j := off + k;
    HidesBack(e, ds, off, k, j, v);
    OpenedBit(M, Rps(ds, j), Parity(R2s(ds, j)), e[j], k);
  }

  /** Boolean to arithmetic: the parties' outputs sum to the value their inputs XOR to. */
  lemma {:induction false} ValueCorrect(M: nat, e: Bits, ds: seq<seq<DaBit>>, off: nat, len: nat, v: nat)
    requires M > 0 && off + len <= |e| && |ds| > 0 && DaBitsFit(ds, |e|) && GoodDaBits(M, ds, |e|)
    requires Hides(e, ds, off, len, v)
    ensures Same(M, Sum(ValueShares(M, e, ds, off, len)), Mask(v, len))
    decreases len
  {
    if len == 0 {
      SumConstZero(ValueShares(M, e, ds, off, 0));
    } else {
      var k := len - 1;
      ValueCorrect(M, e, ds, off, k, v);
      ShareStep(M, e, ds, off, k);
      assert HidesAt(e, ds, off, k, v);
      BitCorrect(M, e, ds, off, k, v);
      MaskHigh(v, k);
      SameAdd(M, Sum(ValueShares(M, e, ds, off, k)), Mask(v, k),
              Sum(RawTerms(Rps(ds, off + k), e[off + k], k)), ToInt(BitAt(v, k)) * Pow2(k));
    }
  }

  lemma {:induction false} SumConstZero(s: seq<int>)
    requires forall i :: 0 <= i < |s| ==> s[i] == 0
    ensures Sum(s) == 0
  {
    if |s| > 0 { SumConstZero(s[..|s| - 1]); }
  }

  /** A value of `len` bits is all of its low `len` bits. */
  lemma {:induction false} MaskAll(v: nat, len: nat)
    requires v < Pow2(len)
    ensures Mask(v, len) == v
  {
    ShrMaskJoin(v, len);
    PartBelow(v, len, len);
    assert Pow2(0) == 1;
  }

  /* ---------- lists of values ---------- */

  function TotalBits(bvs: seq<BooleanValue>): nat {
    if |bvs| == 0 then 0 else TotalBits(bvs[..|bvs| - 1]) + bvs[|bvs| - 1].bitLen
  }

  /** Where the bits of value `v` start. */
  function Offset(bvs: seq<BooleanValue>, v: nat): nat
    requires v <= |bvs|
  {
    TotalBits(bvs[..v])
  }

  function ValueBits(x: nat, len: nat): (r: Bits)
    ensures |r| == len && forall i :: 0 <= i < len ==> r[i] == BitAt(x, i)
  {
    seq(len, i requires 0 <= i < len => BitAt(x, i))
  }

  /** The bits of all values, one after the other. */
  function Decompose(bvs: seq<BooleanValue>): (r: Bits)
    ensures |r| == TotalBits(bvs)
  {
    if |bvs| == 0 then []
    else Decompose(bvs[..|bvs| - 1]) + ValueBits(bvs[|bvs| - 1].value, bvs[|bvs| - 1].bitLen)
  }

  lemma {:induction false} OffsetFits(bvs: seq<BooleanValue>, v: nat)
    requires v < |bvs|
    ensures Offset(bvs, v) + bvs[v].bitLen <= TotalBits(bvs)
  {
    var n := |bvs| - 1;
    if v < n {
      OffsetFits(bvs[..n], v);
      assert bvs[..n][..v] == bvs[..v];
    }
  }

  lemma {:induction false} DecomposeLast(bvs: seq<BooleanValue>, i: nat)
    requires |bvs| > 0 && i < bvs[|bvs| - 1].bitLen
    ensures At(Decompose(bvs), TotalBits(bvs[..|bvs| - 1]) + i) == BitAt(bvs[|bvs| - 1].value, i)
  {
  }

  lemma {:induction false} DecomposePrefix(bvs: seq<BooleanValue>, j: nat)
    requires |bvs| > 0 && j < TotalBits(bvs[..|bvs| - 1])
    ensures At(Decompose(bvs), j) == At(Decompose(bvs[..|bvs| - 1]), j)
  {
  }

  lemma {:induction false} DecomposeAt(bvs: seq<BooleanValue>, v: nat, i: nat)
    requires v < |bvs| && i < bvs[v].bitLen
    ensures At(Decompose(bvs), Offset(bvs, v) + i) == BitAt(bvs[v].value, i)
    decreases |bvs|
  {
    var n := |bvs| - 1;
    if v == n {
      DecomposeLast(bvs, i);
    } else {
      DecomposeAt(bvs[..n], v, i);
      assert bvs[..n][..v] == bvs[..v];
      OffsetFits(bvs[..n], v);
      DecomposePrefix(bvs, Offset(bvs, v) + i);
    }
  }

  function R2Of(ds: seq<DaBit>): (r: Bits)
    ensures |r| == |ds| && forall j :: 0 <= j < |ds| ==> r[j] == ds[j].r2
  {
    seq(|ds|, j requires 0 <= j < |ds| => ds[j].r2)
  }

  /** What a party broadcasts: its bits blinded with its daBits. */
  function BlindBits(bvs: seq<BooleanValue>, ds: seq<DaBit>): (e: Bits)
    requires |ds| == TotalBits(bvs)
    ensures |e| == |ds|
  {
    XorBits(Decompose(bvs), R2Of(ds))
  }

  /** `interact` after the exchange: one arithmetic share for every value. */
  function ArithShares(M: nat, isConst: bool, bvs: seq<BooleanValue>, e: Bits, ds: seq<DaBit>): (r: seq<int>)
    requires M > 0 && |e| == |ds| == TotalBits(bvs)
    ensures |r| == |bvs|
    ensures forall v :: 0 <= v < |bvs| ==>
              && Offset(bvs, v) + bvs[v].bitLen <= |e|
              && r[v] == ValueShare(M, isConst, e, ds, Offset(bvs, v), bvs[v].bitLen)
  {
    assert forall v :: 0 <= v < |bvs| ==> Offset(bvs, v) + bvs[v].bitLen <= |e| by {
      forall v | 0 <= v < |bvs| ensures Offset(bvs, v) + bvs[v].bitLen <= |e| { OffsetFits(bvs, v); }
    }
    seq(|bvs|, v requires 0 <= v < |bvs| => ValueShare(M, isConst, e, ds, Offset(bvs, v), bvs[v].bitLen))
  }

  /* ---------- lists of values, over all parties ---------- */

  predicate SameLens(a: seq<BooleanValue>, b: seq<BooleanValue>) {
    |a| == |b| && forall v :: 0 <= v < |a| ==> a[v].bitLen == b[v].bitLen
  }

  lemma {:induction false} SameLensTotal(a: seq<BooleanValue>, b: seq<BooleanValue>)
    requires SameLens(a, b)
    ensures TotalBits(a) == TotalBits(b)
  {
    if |a| > 0 { SameLensTotal(a[..|a| - 1], b[..|a| - 1]); }
  }

  lemma SameLensOffset(a: seq<BooleanValue>, b: seq<BooleanValue>, v: nat)
    requires SameLens(a, b) && v <= |a|
    ensures Offset(a, v) == Offset(b, v)
  {
    SameLensTotal(a[..v], b[..v]);
  }

  /** All parties convert values of the lengths in `shape` with `w` daBits each. */
  predicate ConvFits(ins: seq<seq<BooleanValue>>, ds: seq<seq<DaBit>>, shape: seq<BooleanValue>) {
    && |ins| == |ds| > 0 && DaBitsFit(ds, TotalBits(shape))
    && forall p :: 0 <= p < |ins| ==> SameLens(ins[p], shape)
  }

  function BlindRows(ins: seq<seq<BooleanValue>>, ds: seq<seq<DaBit>>, shape: seq<BooleanValue>): (r: seq<Bits>)
    requires ConvFits(ins, ds, shape)
    ensures |r| == |ins| && Rect(r, TotalBits(shape))
    ensures forall p :: 0 <= p < |ins| ==> |ds[p]| == TotalBits(ins[p]) && r[p] == BlindBits(ins[p], ds[p])
  {
    assert forall p :: 0 <= p < |ins| ==> |ds[p]| == TotalBits(ins[p]) by {
      forall p | 0 <= p < |ins| ensures |ds[p]| == TotalBits(ins[p]) { SameLensTotal(ins[p], shape); }
    }
    seq(|ins|, p requires 0 <= p < |ins| => BlindBits(ins[p], ds[p]))
  }

  function ValuesAt(ins: seq<seq<BooleanValue>>, v: nat): (r: seq<nat>)
    requires forall p :: 0 <= p < |ins| ==> v < |ins[p]|
    ensures |r| == |ins| && forall p :: 0 <= p < |ins| ==> r[p] == ins[p][v].value
  {
    seq(|ins|, p requires 0 <= p < |ins| => ins[p][v].value)
  }

  lemma {:induction false} BlindBitAt(bvs: seq<BooleanValue>, ds: seq<DaBit>, shape: seq<BooleanValue>, v: nat, i: nat)
    requires |ds| == TotalBits(bvs) && SameLens(bvs, shape) && v < |shape| && i < shape[v].bitLen
    ensures Offset(shape, v) + i < |ds|
    ensures At(BlindBits(bvs, ds), Offset(shape, v) + i) == (BitAt(bvs[v].value, i) != ds[Offset(shape, v) + i].r2)
  {
    SameLensOffset(bvs, shape, v);
    OffsetFits(bvs, v);
    DecomposeAt(bvs, v, i);
  }

  lemma {:induction false} BlindColumn(ins: seq<seq<BooleanValue>>, ds: seq<seq<DaBit>>, shape: seq<BooleanValue>,
                                       v: nat, i: nat)
    requires ConvFits(ins, ds, shape) && v < |shape| && i < shape[v].bitLen && Offset(shape, v) + i < TotalBits(shape)
    ensures forall p :: 0 <= p < |ins| ==>
      At(BlindRows(ins, ds, shape)[p], Offset(shape, v) + i)
      == (BitAt(ins[p][v].value, i) != ds[p][Offset(shape, v) + i].r2)
  {
    var rows := BlindRows(ins, ds, shape);
    forall p | 0 <= p < |ins|
      ensures At(BlindRows(ins, ds, shape)[p], Offset(shape, v) + i)
           == (BitAt(ins[p][v].value, i) != ds[p][Offset(shape, v) + i].r2)
    {
      BlindBitAt(ins[p], ds[p], shape, v, i);
    }
  }

  lemma {:induction false} ColumnXor(rows: seq<Bits>, a: Bits, b: Bits, j: nat)
    requires |rows| == |a| == |b| && forall p :: 0 <= p < |rows| ==> At(rows[p], j) == (a[p] != b[p])
    ensures Rec(rows, j) == (Parity(a) != Parity(b))
  {
    ParityXor(a, b, Col(rows, j));
  }

  /** The opened bits hide the XOR of the parties' values. */
  lemma {:induction false} OpenedHides(ins: seq<seq<BooleanValue>>, ds: seq<seq<DaBit>>, shape: seq<BooleanValue>,
                                       v: nat, i: nat, j: nat)
    requires ConvFits(ins, ds, shape) && v < |shape| && i < shape[v].bitLen && j == Offset(shape, v) + i
    ensures j < TotalBits(shape)
    ensures Rec(BlindRows(ins, ds, shape), j) == (BitAt(XorAll(ValuesAt(ins, v)), i) != Parity(R2s(ds, j)))
  {
    OffsetFits(shape, v);
    var rows := BlindRows(ins, ds, shape);
    var bits := BitCol(ValuesAt(ins, v), i);
    BlindColumn(ins, ds, shape, v, i);
    ColumnXor(rows, bits, R2s(ds, j), j);
    BitOfXorAll(ValuesAt(ins, v), i);
  }

  lemma {:induction false} HidesOne(ins: seq<seq<BooleanValue>>, e: Bits, ds: seq<seq<DaBit>>,
                                    shape: seq<BooleanValue>, v: nat, i: nat, j: nat, off: nat)
    requires ConvFits(ins, ds, shape) && v < |shape| && e == RecBits(BlindRows(ins, ds, shape), TotalBits(shape))
    requires i < shape[v].bitLen && off == Offset(shape, v) && j == off + i
    ensures j < |e| && (e[j] != Parity(R2s(ds, j))) == BitAt(XorAll(ValuesAt(ins, v)), i)
  {
    OpenedHides(ins, ds, shape, v, i, j);
  }

  lemma HidesFrom(e: Bits, ds: seq<seq<DaBit>>, off: nat, i: nat, j: nat, v: nat)
    requires j == off + i && j < |e| && DaBitsFit(ds, |e|) && (e[j] != Parity(R2s(ds, j))) == BitAt(v, i)
    ensures HidesAt(e, ds, off, i, v)
  {
  }

  lemma {:induction false} HidesAll(ins: seq<seq<BooleanValue>>, e: Bits, ds: seq<seq<DaBit>>,
                                    shape: seq<BooleanValue>, v: nat)
    requires ConvFits(ins, ds, shape) && v < |shape| && e == RecBits(BlindRows(ins, ds, shape), TotalBits(shape))
    ensures Offset(shape, v) + shape[v].bitLen <= |e|
    ensures Hides(e, ds, Offset(shape, v), shape[v].bitLen, XorAll(ValuesAt(ins, v)))
  {
    OffsetFits(shape, v);
    var off := Offset(shape, v);
    forall i | 0 <= i < shape[v].bitLen ensures HidesAt(e, ds, off, i, XorAll(ValuesAt(ins, v))) {
      var j := off + i;
      HidesOne(ins, e, ds, shape, v, i, j, off);
      HidesFrom(e, ds, off, i, j, XorAll(ValuesAt(ins, v)));
    }
  }

  function Outputs(M: nat, ins: seq<seq<BooleanValue>>, e: Bits, ds: seq<seq<DaBit>>, shape: seq<BooleanValue>,
                   v: nat): (r: seq<int>)
    requires M > 0 && ConvFits(ins, ds, shape) && |e| == TotalBits(shape) && v < |shape|
    ensures |r| == |ins|
    ensures forall p :: 0 <= p < |ins| ==>
      |ds[p]| == |e| == TotalBits(ins[p]) && v < |ins[p]| && r[p] == ArithShares(M, p == 0, ins[p], e, ds[p])[v]
  {
    assert forall p :: 0 <= p < |ins| ==> |ds[p]| == |e| == TotalBits(ins[p]) by {
      forall p | 0 <= p < |ins| ensures |ds[p]| == |e| == TotalBits(ins[p]) { SameLensTotal(ins[p], shape); }
    }
    seq(|ins|, p requires 0 <= p < |ins| => ArithShares(M, p == 0, ins[p], e, ds[p])[v])
  }

  lemma {:induction false} OutputsAreShares(M: nat, ins: seq<seq<BooleanValue>>, e: Bits, ds: seq<seq<DaBit>>,
                                            shape: seq<BooleanValue>, v: nat)
    requires M > 0 && ConvFits(ins, ds, shape) && |e| == TotalBits(shape) && v < |shape|
    ensures Offset(shape, v) + shape[v].bitLen <= |e|
    ensures Outputs(M, ins, e, ds, shape, v) == ValueShares(M, e, ds, Offset(shape, v), shape[v].bitLen)
  {
    OffsetFits(shape, v);
    forall p | 0 <= p < |ins|
      ensures Outputs(M, ins, e, ds, shape, v)[p] == ValueShares(M, e, ds, Offset(shape, v), shape[v].bitLen)[p]
    {
      SameLensOffset(ins[p], shape, v);
    }
  }

  /** Boolean to arithmetic, for every list of values: position by position, the parties' outputs
      sum to the value their inputs XOR to. */
  lemma {:induction false} ConversionCorrect(M: nat, ins: seq<seq<BooleanValue>>, e: Bits, ds: seq<seq<DaBit>>,
                                             shape: seq<BooleanValue>, v: nat)
    requires M > 0 && ConvFits(ins, ds, shape) && GoodDaBits(M, ds, TotalBits(shape)) && v < |shape|
    requires e == RecBits(BlindRows(ins, ds, shape), TotalBits(shape))
    requires XorAll(ValuesAt(ins, v)) < Pow2(shape[v].bitLen)
    ensures Same(M, Sum(Outputs(M, ins, e, ds, shape, v)), XorAll(ValuesAt(ins, v)))
  {
    OutputsAreShares(M, ins, e, ds, shape, v);
    HidesAll(ins, e, ds, shape, v);
    ValueCorrect(M, e, ds, Offset(shape, v), shape[v].bitLen, XorAll(ValuesAt(ins, v)));
    MaskAll(XorAll(ValuesAt(ins, v)), shape[v].bitLen);
  }
}
