/** Secret sharing by the client: words by XOR, scalars by addition, and the two halves of an index. */
module Sharing {
  import opened Bits
  import opened Folds
  import opened Scalars
  import opened Conversion
  import opened Retrieval

  /* ---------- sharing words ---------- */

  lemma {:induction false} XorZero(x: nat)
    ensures XorNat(0, x) == x
  {
    if x > 0 { XorZero(x / 2); }
  }

  lemma {:induction false} XorCancel(a: nat, b: nat, y: nat)
    ensures XorNat(XorNat(a, y), XorNat(b, y)) == XorNat(a, b)
    decreases a + b + y
  {
    XorStep(a, y);
    XorStep(b, y);
    XorStep(a, b);
    XorStep(XorNat(a, y), XorNat(b, y));
    if a + b + y > 0 { XorCancel(a / 2, b / 2, y / 2); }
  }

  /** `fold(x, |acc, s| acc ^ s)` */
  function XorFrom(x: nat, s: seq<nat>): nat {
    if |s| == 0 then x else XorNat(XorFrom(x, s[..|s| - 1]), s[|s| - 1])
  }

  lemma {:induction false} XorFromInverse(x: nat, s: seq<nat>)
    ensures XorNat(XorAll(s), XorFrom(x, s)) == x
  {
    if |s| == 0 {
      XorZero(x);
    } else {
      var n := |s| - 1;
      XorFromInverse(x, s[..n]);
      XorCancel(XorAll(s[..n]), XorFrom(x, s[..n]), s[n]);
    }
  }

  lemma {:induction false} XorFromBelow(x: nat, s: seq<nat>, k: nat)
    requires x < Pow2(k) && forall i :: 0 <= i < |s| ==> s[i] < Pow2(k)
    ensures XorFrom(x, s) < Pow2(k)
  {
    if |s| > 0 {
      var n := |s| - 1;
      XorFromBelow(x, s[..n], k);
      XorBelow(XorFrom(x, s[..n]), s[n], k);
    }
  }

  lemma {:induction false} MaskBelow(x: nat, k: nat)
    ensures Mask(x, k) < Pow2(k)
  {
    if k > 0 { MaskBelow(x / 2, k - 1); }
  }

  lemma {:induction false} MasksBelow(draws: seq<nat>, k: nat)
    ensures forall i :: 0 <= i < |draws| ==> LowParts(draws, k)[i] < Pow2(k)
  {
    forall i | 0 <= i < |draws| ensures LowParts(draws, k)[i] < Pow2(k) { MaskBelow(draws[i], k); }
  }

  /** The values of all shares: the masked draws, then what is missing. */
  function ShareValues(x: nat, k: nat, draws: seq<nat>): (r: seq<nat>)
    ensures |r| == |draws| + 1
  {
    LowParts(draws, k) + [XorFrom(x, LowParts(draws, k))]
  }

  function AsValues(vals: seq<nat>, k: nat): (r: seq<BooleanValue>)
    ensures |r| == |vals| && forall p :: 0 <= p < |vals| ==> r[p] == BooleanValue(k, vals[p])
  {
    seq(|vals|, p requires 0 <= p < |vals| => BooleanValue(k, vals[p]))
  }

  /** `secret_share_boolean` for one more party than there are draws; the mask is built with
      `1 << bit_len`, so lengths are below 32. */
  function ShareBoolean(x: BooleanValue, draws: seq<nat>): (r: seq<BooleanValue>)
    requires x.Valid() && x.bitLen < 32
    ensures |r| == |draws| + 1
  {
    AsValues(ShareValues(x.value, x.bitLen, draws), x.bitLen)
  }

  /** `reconstruct_boolean` */
  function ReconstructBoolean(shares: seq<BooleanValue>): nat { XorAll(Values(shares)) }

  function Values(shares: seq<BooleanValue>): (r: seq<nat>)
    ensures |r| == |shares| && forall p :: 0 <= p < |shares| ==> r[p] == shares[p].value
  {
    seq(|shares|, p requires 0 <= p < |shares| => shares[p].value)
  }

  lemma {:induction false} ShareValuesBelow(x: nat, k: nat, draws: seq<nat>)
    requires x < Pow2(k)
    ensures forall p :: 0 <= p < |draws| + 1 ==> ShareValues(x, k, draws)[p] < Pow2(k)
  {
    MasksBelow(draws, k);
    XorFromBelow(x, LowParts(draws, k), k);
  }

  lemma ShareValuesXor(x: nat, k: nat, draws: seq<nat>)
    ensures XorAll(ShareValues(x, k, draws)) == x
  {
    var s := LowParts(draws, k);
    XorFromInverse(x, s);
    assert ShareValues(x, k, draws)[..|s|] == s;
  }

  /** Every share has the value's length and fits it, and the shares XOR back, whatever was drawn. */
  lemma ShareBooleanCorrect(x: BooleanValue, draws: seq<nat>)
    requires x.Valid() && x.bitLen < 32
    ensures forall p :: 0 <= p <= |draws| ==>
              ShareBoolean(x, draws)[p].Valid() && ShareBoolean(x, draws)[p].bitLen == x.bitLen
    ensures ReconstructBoolean(ShareBoolean(x, draws)) == x.value
  {
    ShareValuesBelow(x.value, x.bitLen, draws);
    ShareValuesXor(x.value, x.bitLen, draws);
    assert Values(ShareBoolean(x, draws)) == ShareValues(x.value, x.bitLen, draws);
  }

  /** The shares of all servers but the last are the draws, cut to the value's length. */
  lemma SharesAreDraws(x: BooleanValue, draws: seq<nat>, p: nat)
    requires x.Valid() && x.bitLen < 32 && p < |draws|
    ensures ShareBoolean(x, draws)[p].value == draws[p] % Pow2(x.bitLen)
  {
    ShrMask(draws[p], x.bitLen);
  }

  lemma {:induction false} XorInjective(a: nat, b: nat, c: nat)
    requires XorNat(a, b) == XorNat(a, c)
    ensures b == c
    decreases a + b + c
  {
    XorStep(a, b);
    XorStep(a, c);
    if a + b + c > 0 { XorInjective(a / 2, b / 2, c / 2); }
  }

  lemma {:induction false} MasksKeep(vals: seq<nat>, k: nat)
    requires forall p :: 0 <= p < |vals| ==> vals[p] < Pow2(k)
    ensures LowParts(vals, k) == vals
  {
    forall p | 0 <= p < |vals| ensures Mask(vals[p], k) == vals[p] { MaskAll(vals[p], k); }
  }

  /** Any values of `k` bits that XOR to the secret are its shares, when all but the last are drawn. */
  lemma {:induction false} EverySharing(x: BooleanValue, vals: seq<nat>)
    requires x.Valid() && x.bitLen < 32 && |vals| > 0 && XorAll(vals) == x.value
    requires forall p :: 0 <= p < |vals| ==> vals[p] < Pow2(x.bitLen)
    ensures Values(ShareBoolean(x, vals[..|vals| - 1])) == vals
  {
    var n := |vals| - 1;
    EveryShareValues(x.value, x.bitLen, vals, n);
    ValuesOfShares(x, vals[..n]);
  }

  lemma ValuesOfShares(x: BooleanValue, draws: seq<nat>)
    requires x.Valid() && x.bitLen < 32
    ensures Values(ShareBoolean(x, draws)) == ShareValues(x.value, x.bitLen, draws)
  {
  }

  lemma {:induction false} EveryShareValues(x: nat, k: nat, vals: seq<nat>, n: nat)
    requires n == |vals| - 1 && XorAll(vals) == x && forall p :: 0 <= p < |vals| ==> vals[p] < Pow2(k)
    ensures ShareValues(x, k, vals[..n]) == vals
  {
    LastShare(x, vals, n);
    MasksKeep(vals[..n], k);
    assert vals == vals[..n] + [vals[n]];
  }

  lemma {:induction false} LastShare(x: nat, vals: seq<nat>, n: nat)
    requires n == |vals| - 1 && XorAll(vals) == x
    ensures XorFrom(x, vals[..n]) == vals[n]
  {
    XorFromInverse(x, vals[..n]);
    XorInjective(XorAll(vals[..n]), XorFrom(x, vals[..n]), vals[n]);
  }

  lemma {:induction false} XorAllUpdate(s: seq<nat>, p: nat, d: nat)
    requires p < |s|
    ensures XorAll(s[p := XorNat(s[p], d)]) == XorNat(XorAll(s), d)
  {
    var n := |s| - 1;
    var t := s[p := XorNat(s[p], d)];
    if p == n {
      assert t[..n] == s[..n];
      XorAssoc(XorAll(s[..n]), s[n], d);
    } else {
      XorAllUpdate(s[..n], p, d);
      assert t[..n] == s[..n][p := XorNat(s[p], d)];
      XorSwap(XorAll(s[..n]), d, s[n]);
    }
  }

  lemma {:induction false} XorAssoc(a: nat, b: nat, c: nat)
    ensures XorNat(a, XorNat(b, c)) == XorNat(XorNat(a, b), c)
    decreases a + b + c
  {
    XorStep(b, c);
    XorStep(a, b);
    XorStep(a, XorNat(b, c));
    XorStep(XorNat(a, b), c);
    if a + b + c > 0 { XorAssoc(a / 2, b / 2, c / 2); }
  }

  lemma {:induction false} XorSwap(a: nat, b: nat, c: nat)
    ensures XorNat(XorNat(a, b), c) == XorNat(XorNat(a, c), b)
    decreases a + b + c
  {
    XorStep(a, b);
    XorStep(a, c);
    XorStep(XorNat(a, b), c);
    XorStep(XorNat(a, c), b);
    if a + b + c > 0 { XorSwap(a / 2, b / 2, c / 2); }
  }

  /** All servers but one learn nothing: whatever they see of one secret, other draws show them of any
      other secret of that length. */
  lemma SharesHide(x: BooleanValue, y: BooleanValue, draws: seq<nat>, p: nat) returns (other: seq<nat>)
    requires x.Valid() && y.Valid() && x.bitLen == y.bitLen < 32 && p <= |draws|
    ensures |other| == |draws|
    ensures forall i :: 0 <= i <= |draws| && i != p ==> ShareBoolean(y, other)[i] == ShareBoolean(x, draws)[i]
  {
    var k := x.bitLen;
    var vals := ShareValues(x.value, k, draws);
    var d := XorNat(x.value, y.value);
    ShareValuesBelow(x.value, k, draws);
    ShareValuesXor(x.value, k, draws);
    XorBelow(x.value, y.value, k);
    XorBelow(vals[p], d, k);
    XorAllUpdate(vals, p, d);
    XorAssoc(x.value, x.value, y.value);
    XorSelf(x.value);
    XorZero(y.value);
    var moved := vals[p := XorNat(vals[p], d)];
    EverySharing(y, moved);
    other := moved[..|draws|];
    forall i | 0 <= i <= |draws| && i != p ensures ShareBoolean(y, other)[i] == ShareBoolean(x, draws)[i] {
      assert Values(ShareBoolean(y, other))[i] == vals[i];
    }
  }

  lemma {:induction false} XorSelf(x: nat)
    ensures XorNat(x, x) == 0
  {
    if x > 0 { XorSelf(x / 2); }
  }

  /* ---------- sharing scalars ---------- */

  function SubFrom(M: nat, x: int, s: seq<int>): int
    requires M > 0
  {
    if |s| == 0 then x else Sub(M, SubFrom(M, x, s[..|s| - 1]), s[|s| - 1])
  }

  /** `secret_share_arith` */
  function ShareArith(M: nat, x: int, draws: seq<int>): (r: seq<int>)
    requires M > 0
    ensures |r| == |draws| + 1
  {
    draws + [SubFrom(M, x, draws)]
  }

  lemma {:induction false} SubFromSum(M: nat, x: int, s: seq<int>)
    requires M > 0
    ensures Same(M, SubFrom(M, x, s), x - Sum(s))
  {
    if |s| > 0 {
      var n := |s| - 1;
      SubFromSum(M, x, s[..n]);
      SameSub(M, SubFrom(M, x, s[..n]), x - Sum(s[..n]), s[n], s[n]);
      SameMod(M, SubFrom(M, x, s[..n]) - s[n]);
    }
  }

  /** The shares of a scalar add up to it, whatever was drawn. */
  lemma ShareArithCorrect(M: nat, x: int, draws: seq<int>)
    requires M > 0
    ensures Same(M, Sum(ShareArith(M, x, draws)), x)
  {
    SubFromSum(M, x, draws);
    assert ShareArith(M, x, draws)[..|draws|] == draws;
    SameAdd(M, Sum(draws), Sum(draws), SubFrom(M, x, draws), x - Sum(draws));
  }

  /** Any scalars that add up to the secret are its shares, when all but the last are drawn. */
  lemma EveryArithSharing(M: nat, x: int, vals: seq<int>)
    requires M > 0 && |vals| > 0 && Same(M, Sum(vals), x)
    ensures var r := ShareArith(M, x, vals[..|vals| - 1]);
            && |r| == |vals| && r[..|vals| - 1] == vals[..|vals| - 1] && Same(M, r[|vals| - 1], vals[|vals| - 1])
  {
    var n := |vals| - 1;
    var draws := vals[..n];
    SubFromSum(M, x, draws);
    SameSub(M, x, Sum(vals), Sum(draws), Sum(draws));
  }

  lemma MovedSum(M: nat, x: int, y: int, vals: seq<int>, p: nat)
    requires M > 0 && p < |vals| && Same(M, Sum(vals), x)
    ensures Same(M, Sum(vals[p := vals[p] + (y - x)]), y)
  {
    SumUpdate(vals, p, vals[p] + (y - x));
    SameAdd(M, Sum(vals), x, y - x, y - x);
  }

  /** All servers but one learn nothing of a scalar either. */
  lemma ArithSharesHide(M: nat, x: int, y: int, draws: seq<int>, p: nat) returns (other: seq<int>)
    requires M > 0 && p <= |draws|
    ensures |other| == |draws|
    ensures forall i :: 0 <= i <= |draws| && i != p ==>
              Same(M, ShareArith(M, y, other)[i], ShareArith(M, x, draws)[i])
  {
    var vals := ShareArith(M, x, draws);
    var moved := vals[p := vals[p] + (y - x)];
    ShareArithCorrect(M, x, draws);
    MovedSum(M, x, y, vals, p);
    EveryArithSharing(M, y, moved);
    other := moved[..|draws|];
    assert forall i :: 0 <= i < |draws| ==> ShareArith(M, y, other)[i] == moved[i];
  }

  /* ---------- joining the two halves of an index ---------- */

  /** Bitwise OR. */
  function OrNat(x: nat, y: nat): nat
    decreases x + y
  {
    if x == 0 && y == 0 then 0
    else 2 * OrNat(x / 2, y / 2) + if x % 2 == 1 || y % 2 == 1 then 1 else 0
  }

  lemma {:induction false} OrBit(x: nat, y: nat, i: nat)
    ensures BitAt(OrNat(x, y), i) == (BitAt(x, i) || BitAt(y, i))
    decreases i
  {
    if i == 0 {
      OrStep(x, y);
    } else {
      OrStep(x, y);
      OrBit(x / 2, y / 2, i - 1);
    }
  }

  lemma {:induction false} OrStep(x: nat, y: nat)
    ensures OrNat(x, y) / 2 == OrNat(x / 2, y / 2)
    ensures OrNat(x, y) % 2 == if x % 2 == 1 || y % 2 == 1 then 1 else 0
  {
  }

  /** `x << k` in 32 bits: bits shifted past the top are lost. */
  function Shl32(x: nat, k: nat): nat { Mask(Times(x, Pow2(k)), 32) }

  lemma TimesPow(h: nat, k: nat)
    requires k > 0
    ensures Times(h, Pow2(k)) == 2 * Times(h, Pow2(k - 1))
  {
    TimesIsProduct(h, Pow2(k));
    TimesIsProduct(h, Pow2(k - 1));
    Twice(Pow2(k - 1), h);
    assert h * Pow2(k) == Pow2(k) * h && h * Pow2(k - 1) == Pow2(k - 1) * h;
  }

  lemma {:induction false} OrZero(h: nat)
    ensures OrNat(h, 0) == h
  {
    if h > 0 { OrZero(h / 2); }
  }

  /** OR of a shifted word and a word below the shift is their sum. */
  lemma {:induction false} OrIsSum(h: nat, l: nat, k: nat)
    requires l < Pow2(k)
    ensures OrNat(Times(h, Pow2(k)), l) == Times(h, Pow2(k)) + l
    decreases k
  {
    if k == 0 {
      TimesIsProduct(h, 1);
      OrZero(h);
    } else {
      TimesPow(h, k);
      OrIsSum(h, l / 2, k - 1);
    }
  }

  /** `join_boolean`: shifts in 32 bits, so the lower part is shorter than 32 bits, and the
      constructor rejects a joint length above 32. */
  function JoinBoolean(lower: BooleanValue, higher: BooleanValue): BooleanValue
    requires lower.bitLen < 32 && lower.bitLen + higher.bitLen <= 32
  {
    BooleanValue(lower.bitLen + higher.bitLen, OrNat(Shl32(higher.value, lower.bitLen), lower.value))
  }

  lemma JoinBelow(l: nat, h: nat, a: nat, b: nat)
    requires l < Pow2(a) && h < Pow2(b)
    ensures Times(h, Pow2(a)) + l < Pow2(a + b)
  {
    TimesBound(h, Pow2(b), Pow2(a));
    TimesIsProduct(Pow2(b), Pow2(a));
    Pow2Add(b, a);
  }

  /** The shift stays within 32 bits. */
  lemma ShiftKeeps(l: nat, h: nat, a: nat, b: nat)
    requires a + b <= 32 && Times(h, Pow2(a)) + l < Pow2(a + b)
    ensures Shl32(h, a) == Times(h, Pow2(a))
  {
    Pow2Monotone(a + b, 32);
    MaskAll(Times(h, Pow2(a)), 32);
  }

  /** No bit is lost: the joined value is higher * 2^len + lower. */
  lemma JoinIsSum(lower: BooleanValue, higher: BooleanValue)
    requires lower.Valid() && higher.Valid() && lower.bitLen < 32 && lower.bitLen + higher.bitLen <= 32
    ensures JoinBoolean(lower, higher).Valid()
    ensures JoinBoolean(lower, higher).value == Times(higher.value, Pow2(lower.bitLen)) + lower.value
  {
    var a, b := lower.bitLen, higher.bitLen;
    JoinBelow(lower.value, higher.value, a, b);
    ShiftKeeps(lower.value, higher.value, a, b);
    OrIsSum(higher.value, lower.value, a);
  }

  lemma JoinParts(l: nat, h: nat, k: nat)
    requires l < Pow2(k)
    ensures Mask(Times(h, Pow2(k)) + l, k) == l && Shr(Times(h, Pow2(k)) + l, k) == h
  {
    ShrMask(Times(h, Pow2(k)) + l, k);
    TimesIsProduct(h, Pow2(k));
    DivModUnique(h, l, Pow2(k));
  }

  function Joined(l1s: seq<BooleanValue>, l2s: seq<BooleanValue>, k1: nat, k2: nat): (r: seq<BooleanValue>)
    requires |l1s| == |l2s| && k1 < 32 && k1 + k2 <= 32
    requires forall p :: 0 <= p < |l1s| ==> l1s[p].bitLen == k1 && l2s[p].bitLen == k2
    ensures |r| == |l1s| && forall p :: 0 <= p < |r| ==> r[p] == JoinBoolean(l1s[p], l2s[p])
  {
    seq(|l1s|, p requires 0 <= p < |l1s| => JoinBoolean(l1s[p], l2s[p]))
  }

  /** All parties hold valid shares of `k` bits. */
  predicate ValuesFit(vs: seq<BooleanValue>, k: nat) {
    forall p :: 0 <= p < |vs| ==> vs[p].Valid() && vs[p].bitLen == k
  }

  lemma JoinedPart(l1: BooleanValue, l2: BooleanValue)
    requires l1.Valid() && l2.Valid() && l1.bitLen < 32 && l1.bitLen + l2.bitLen <= 32
    ensures Mask(JoinBoolean(l1, l2).value, l1.bitLen) == l1.value
    ensures Shr(JoinBoolean(l1, l2).value, l1.bitLen) == l2.value
  {
    JoinIsSum(l1, l2);
    JoinParts(l1.value, l2.value, l1.bitLen);
  }

  lemma JoinedParts(l1s: seq<BooleanValue>, l2s: seq<BooleanValue>, k1: nat, k2: nat)
    requires |l1s| == |l2s| && k1 < 32 && k1 + k2 <= 32 && ValuesFit(l1s, k1) && ValuesFit(l2s, k2)
    ensures LowParts(Values(Joined(l1s, l2s, k1, k2)), k1) == Values(l1s)
    ensures HighParts(Values(Joined(l1s, l2s, k1, k2)), k1) == Values(l2s)
  {
    forall p | 0 <= p < |l1s|
      ensures Mask(JoinBoolean(l1s[p], l2s[p]).value, k1) == l1s[p].value
      ensures Shr(JoinBoolean(l1s[p], l2s[p]).value, k1) == l2s[p].value
    {
      JoinedPart(l1s[p], l2s[p]);
    }
  }

  /** Joining commutes with reconstruction. */
  lemma {:induction false} JoinCommutes(l1s: seq<BooleanValue>, l2s: seq<BooleanValue>, k1: nat, k2: nat)
    requires |l1s| == |l2s| && k1 < 32 && k1 + k2 <= 32 && ValuesFit(l1s, k1) && ValuesFit(l2s, k2)
    ensures ReconstructBoolean(Joined(l1s, l2s, k1, k2))
         == Times(ReconstructBoolean(l2s), Pow2(k1)) + ReconstructBoolean(l1s)
  {
    JoinedParts(l1s, l2s, k1, k2);
    XorAllSplit(Values(Joined(l1s, l2s, k1, k2)), k1);
    ShrMaskJoin(ReconstructBoolean(Joined(l1s, l2s, k1, k2)), k1);
  }

  /** The two dimensions are shareable and their lengths fit a word together. */
  predicate Shareable(db: Database) { db.Valid() && db.k1 < 32 && db.k1 + db.k2 <= 32 }

  /** The two index shares `_query_index` makes, before sharing. */
  function L1Value(db: Database, idx: nat): BooleanValue { BooleanValue(db.k1, db.To2Dim(idx).0) }
  function L2Value(db: Database, idx: nat): BooleanValue { BooleanValue(db.k2, db.To2Dim(idx).1) }

  lemma HalvesValid(db: Database, idx: nat)
    requires Shareable(db) && idx < db.Size()
    ensures L1Value(db, idx).Valid() && L2Value(db, idx).Valid() && db.k2 < 32
    ensures idx < Pow2(32)
  {
    db.To2DimOk(idx);
    JoinBelow(db.To2Dim(idx).0, db.To2Dim(idx).1, db.k1, db.k2);
    Pow2Monotone(db.k1 + db.k2, 32);
  }

  /** The index path: splitting, sharing each half, joining each server's halves and XORing over the
      servers gives back the index. */
  lemma IndexPath(db: Database, idx: nat, draws1: seq<nat>, draws2: seq<nat>)
    requires Shareable(db) && idx < db.Size() && |draws1| == |draws2|
    ensures L1Value(db, idx).Valid() && L2Value(db, idx).Valid() && db.k2 < 32
    ensures var l1s, l2s := ShareBoolean(L1Value(db, idx), draws1), ShareBoolean(L2Value(db, idx), draws2);
            && ValuesFit(l1s, db.k1) && ValuesFit(l2s, db.k2)
            && ReconstructBoolean(Joined(l1s, l2s, db.k1, db.k2)) == idx
  {
    HalvesValid(db, idx);
    ShareBooleanCorrect(L1Value(db, idx), draws1);
    ShareBooleanCorrect(L2Value(db, idx), draws2);
    var l1s, l2s := ShareBoolean(L1Value(db, idx), draws1), ShareBoolean(L2Value(db, idx), draws2);
    JoinCommutes(l1s, l2s, db.k1, db.k2);
    db.To2DimOk(idx);
  }
}
