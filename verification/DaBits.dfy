/** The provider of daBits: dealing, and handing them out in lockstep. */
module DaBits {
  import opened Bits
  import opened Folds
  import opened Scalars
  import opened Conversion

  /* ---------- dealing ---------- */

  /** `sub`: XOR in the boolean domain, subtraction in the arithmetic one. */
  function SubDaBit(M: nat, a: DaBit, b: DaBit): DaBit
    requires M > 0
  {
    DaBit(a.r2 != b.r2, Sub(M, a.rp, b.rp))
  }

  /** The dealer's share of one daBit for the bit `val`, given everyone else's shares. */
  function DealerDaBit(M: nat, val: bool, others: seq<DaBit>): DaBit
    requires M > 0
  {
    if |others| == 0 then DaBit(val, ToInt(val))
    else SubDaBit(M, DealerDaBit(M, val, others[..|others| - 1]), others[|others| - 1])
  }

  function R2Col(ds: seq<DaBit>): (r: Bits)
    ensures |r| == |ds| && forall p :: 0 <= p < |ds| ==> r[p] == ds[p].r2
  {
    seq(|ds|, p requires 0 <= p < |ds| => ds[p].r2)
  }

  function RpCol(ds: seq<DaBit>): (r: seq<int>)
    ensures |r| == |ds| && forall p :: 0 <= p < |ds| ==> r[p] == ds[p].rp
  {
    seq(|ds|, p requires 0 <= p < |ds| => ds[p].rp)
  }

  lemma {:induction false} DealerR2(M: nat, val: bool, others: seq<DaBit>)
    requires M > 0
    ensures DealerDaBit(M, val, others).r2 == (val != Parity(R2Col(others)))
  {
    if |others| > 0 {
      var n := |others| - 1;
      DealerR2(M, val, others[..n]);
      assert R2Col(others)[..n] == R2Col(others[..n]);
    }
  }

  lemma {:induction false} DealerRp(M: nat, val: bool, others: seq<DaBit>)
    requires M > 0
    ensures Same(M, DealerDaBit(M, val, others).rp, ToInt(val) - Sum(RpCol(others)))
  {
    if |others| > 0 {
      var n := |others| - 1;
      var rest := DealerDaBit(M, val, others[..n]);
      DealerRp(M, val, others[..n]);
      assert RpCol(others)[..n] == RpCol(others[..n]);
      SameMod(M, rest.rp - others[n].rp);
      SameSub(M, rest.rp, ToInt(val) - Sum(RpCol(others[..n])), others[n].rp, others[n].rp);
    }
  }

  /** The parties' shares of one daBit share `val` in both domains. */
  lemma {:induction false} DealerShares(M: nat, val: bool, others: seq<DaBit>)
    requires M > 0
    ensures Parity(R2Col([DealerDaBit(M, val, others)] + others)) == val
    ensures Same(M, Sum(RpCol([DealerDaBit(M, val, others)] + others)), ToInt(val))
  {
    var d := DealerDaBit(M, val, others);
    DealerR2(M, val, others);
    DealerRp(M, val, others);
    assert R2Col([d] + others) == [d.r2] + R2Col(others);
    assert RpCol([d] + others) == [d.rp] + RpCol(others);
    ParityConcat([d.r2], R2Col(others));
    ParityOne([d.r2]);
    SumConcat([d.rp], RpCol(others));
    assert [d.rp][..0] == [];
    SameAdd(M, d.rp, ToInt(val) - Sum(RpCol(others)), Sum(RpCol(others)), Sum(RpCol(others)));
  }

  /** Everyone else's shares of daBit `j`. */
  function ColOf(others: seq<seq<DaBit>>, j: nat): (r: seq<DaBit>)
    requires forall p :: 0 <= p < |others| ==> j < |others[p]|
    ensures |r| == |others| && forall p :: 0 <= p < |others| ==> r[p] == others[p][j]
  {
    seq(|others|, p requires 0 <= p < |others| => others[p][j])
  }

  function DealerDaBits(M: nat, vals: Bits, others: seq<seq<DaBit>>): (r: seq<DaBit>)
    requires M > 0 && DaBitsFit(others, |vals|)
    ensures |r| == |vals| && forall j :: 0 <= j < |vals| ==> r[j] == DealerDaBit(M, vals[j], ColOf(others, j))
  {
    seq(|vals|, j requires 0 <= j < |vals| => DealerDaBit(M, vals[j], ColOf(others, j)))
  }

  lemma ColumnOf(d: seq<DaBit>, others: seq<seq<DaBit>>, j: nat, w: nat)
    requires |d| == w && DaBitsFit(others, w) && j < w
    ensures DaBitsFit([d] + others, w)
    ensures R2s([d] + others, j) == R2Col([d[j]] + ColOf(others, j))
    ensures Rps([d] + others, j) == RpCol([d[j]] + ColOf(others, j))
  {
  }

  /** Dealt daBits share the same bit in both domains, whatever was drawn. */
  lemma DealerDeals(M: nat, vals: Bits, others: seq<seq<DaBit>>)
    requires M > 0 && DaBitsFit(others, |vals|)
    ensures DaBitsFit([DealerDaBits(M, vals, others)] + others, |vals|)
    ensures GoodDaBits(M, [DealerDaBits(M, vals, others)] + others, |vals|)
    ensures forall j :: 0 <= j < |vals| ==> Parity(R2s([DealerDaBits(M, vals, others)] + others, j)) == vals[j]
  {
    var d := DealerDaBits(M, vals, others);
    forall j | 0 <= j < |vals|
      ensures DaBitsFit([d] + others, |vals|)
      ensures Same(M, Sum(Rps([d] + others, j)), ToInt(Parity(R2s([d] + others, j))))
      ensures Parity(R2s([d] + others, j)) == vals[j]
    {
      ColumnOf(d, others, j, |vals|);
      DealerShares(M, vals[j], ColOf(others, j));
    }
  }

  /** Matching daBits determine the dealer's: whatever it holds beside the others' is, as a scalar, what it
      deals itself for the bit they share. */
  lemma {:induction false} DealerRecovers(M: nat, d: DaBit, others: seq<DaBit>)
    requires M > 0 && Same(M, Sum(RpCol([d] + others)), ToInt(Parity(R2Col([d] + others))))
    ensures var dealt := DealerDaBit(M, Parity(R2Col([d] + others)), others);
            dealt.r2 == d.r2 && Same(M, dealt.rp, d.rp)
  {
    var val := Parity(R2Col([d] + others));
    DealerR2(M, val, others);
    DealerRp(M, val, others);
    assert R2Col([d] + others) == [d.r2] + R2Col(others) && RpCol([d] + others) == [d.rp] + RpCol(others);
    ParityConcat([d.r2], R2Col(others));
    ParityOne([d.r2]);
    SumConcat([d.rp], RpCol(others));
    assert [d.rp][..0] == [];
    SameSub(M, d.rp + Sum(RpCol(others)), ToInt(val), Sum(RpCol(others)), Sum(RpCol(others)));
  }

  /* ---------- slices ---------- */

  function SlicesOf(ds: seq<seq<DaBit>>, w: nat, st: nat, end: nat): (r: seq<seq<DaBit>>)
    requires st <= end <= w && DaBitsFit(ds, w)
    ensures |r| == |ds| && DaBitsFit(r, end - st)
    ensures forall p :: 0 <= p < |ds| ==> r[p] == ds[p][st..end]
  {
    seq(|ds|, p requires 0 <= p < |ds| => ds[p][st..end])
  }

  /** Parties that take the same range hold matching daBits. */
  lemma SliceGood(M: nat, ds: seq<seq<DaBit>>, w: nat, st: nat, end: nat)
    requires M > 0 && st <= end <= w && DaBitsFit(ds, w) && GoodDaBits(M, ds, w)
    ensures GoodDaBits(M, SlicesOf(ds, w, st, end), end - st)
  {
    var r := SlicesOf(ds, w, st, end);
    forall j | 0 <= j < end - st ensures Same(M, Sum(Rps(r, j)), ToInt(Parity(R2s(r, j)))) {
      assert Rps(r, j) == Rps(ds, st + j);
      assert R2s(r, j) == R2s(ds, st + j);
    }
  }

  /* ---------- the provider ---------- */

  class DaBitProvider {
    var storage: Option<seq<DaBit>>
    var used: nat
    var lastReport: nat

    predicate Valid()
      reads this
    {
      lastReport <= used && (storage.Some? ==> used <= |storage.value|) && (storage.None? ==> used == 0)
    }

    constructor ()
      ensures Valid() && storage == None && used == 0 && lastReport == 0
    {
      storage, used, lastReport := None, 0, 0;
    }

    /** `drawn` is what the seeded generator yields. */
    method GenerateWithSeed(drawn: seq<DaBit>)
      modifies this
      ensures Valid() && storage == Some(drawn) && used == lastReport == 0
    {
      storage, used, lastReport := Some(drawn), 0, 0;
    }

    /** `vals` are the bits the dealer draws, `others` what the other parties draw. */
    method GenerateAsDealer(M: nat, vals: Bits, others: seq<seq<DaBit>>)
      requires M > 0 && DaBitsFit(others, |vals|)
      modifies this
      ensures Valid() && storage == Some(DealerDaBits(M, vals, others)) && used == lastReport == 0
      ensures DaBitsFit([storage.value] + others, |vals|) && GoodDaBits(M, [storage.value] + others, |vals|)
      ensures forall j :: 0 <= j < |vals| ==> Parity(R2s([storage.value] + others, j)) == vals[j]
    {
      var dealt: seq<DaBit> := [];
      for i := 0 to |vals|
        invariant |dealt| == i
        invariant forall j :: 0 <= j < i ==> dealt[j] == DealerDaBit(M, vals[j], ColOf(others, j))
      {
        var acc := DaBit(vals[i], ToInt(vals[i]));
        for p := 0 to |others|
          invariant acc == DealerDaBit(M, vals[i], ColOf(others, i)[..p])
        {
          assert ColOf(others, i)[..p + 1][..p] == ColOf(others, i)[..p];
          acc := SubDaBit(M, acc, others[p][i]);
        }
        assert ColOf(others, i)[..|others|] == ColOf(others, i);
        dealt := dealt + [acc];
      }
      assert dealt == DealerDaBits(M, vals, others);
      storage, used, lastReport := Some(dealt), 0, 0;
      DealerDeals(M, vals, others);
    }

    /** `take`: the next `reqSize` daBits. */
    method Take(reqSize: nat) returns (ds: seq<DaBit>)
      requires Valid() && storage.Some? && used + reqSize <= |storage.value|
      modifies this`used
      ensures Valid() && used == old(used) + reqSize
      ensures ds == storage.value[old(used)..used] && |ds| == reqSize
    {
      ds := storage.value[used..used + reqSize];
      used := used + reqSize;
    }

    /** `report_dabit_usage_then_reset` */
    method ReportThenReset() returns (count: nat)
      requires Valid()
      modifies this`lastReport
      ensures Valid() && lastReport == used && count == used - old(lastReport)
    {
      count := used - lastReport;
      lastReport := used;
    }
  }
}
