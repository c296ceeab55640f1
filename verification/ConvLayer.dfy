/** The conversion of boolean to arithmetic shares, step by step as the program does it. */
module ConvLayer {
  import opened Bits
  import opened Folds
  import opened Scalars
  import opened Conversion
  import opened DaBits

  lemma {:induction false} TotalPrefix(bvs: seq<BooleanValue>, v: nat)
    requires v < |bvs|
    ensures TotalBits(bvs[..v + 1]) == TotalBits(bvs[..v]) + bvs[v].bitLen && TotalBits(bvs[..v + 1]) <= TotalBits(bvs)
  {
    assert bvs[..v + 1][..v] == bvs[..v];
    OffsetFits(bvs, v);
  }

  lemma DecomposeNext(bvs: seq<BooleanValue>, v: nat)
    requires v < |bvs|
    ensures Decompose(bvs[..v + 1]) == Decompose(bvs[..v]) + ValueBits(bvs[v].value, bvs[v].bitLen)
  {
    assert bvs[..v + 1][..v] == bvs[..v];
  }

  lemma ValueBitsNext(x: nat, i: nat)
    ensures ValueBits(x, i + 1) == ValueBits(x, i) + [BitAt(x, i)]
  {
  }

  /** The sum of the bit lengths. */
  method CountBits(bvs: seq<BooleanValue>) returns (total: nat)
    ensures total == TotalBits(bvs)
  {
    total := 0;
    for v := 0 to |bvs|
      invariant total == TotalBits(bvs[..v])
    {
      TotalPrefix(bvs, v);
      total := total + bvs[v].bitLen;
    }
    assert bvs[..|bvs|] == bvs;
  }

  /** The first `current` bits are `done`. */
  predicate Filled(b: Bits, current: nat, done: Bits, total: nat) {
    |b| == total && current == |done| <= total && b[..current] == done
  }

  lemma FillOne(b: Bits, current: nat, done: Bits, total: nat, bit: bool)
    requires Filled(b, current, done, total) && current < total
    ensures Filled(b[current := bit], current + 1, done + [bit], total)
  {
    assert b[current := bit][..current] == b[..current];
  }

  /** One value's bits, from `current` on. */
  method PutValue(b: Bits, current: nat, bv: BooleanValue, ghost done: Bits, total: nat) returns (b': Bits, next: nat)
    requires Filled(b, current, done, total) && current + bv.bitLen <= total
    ensures next == current + bv.bitLen && Filled(b', next, done + ValueBits(bv.value, bv.bitLen), total)
  {
    b', next := b, current;
    assert done + ValueBits(bv.value, 0) == done;
    for i := 0 to bv.bitLen
      invariant next == current + i && Filled(b', next, done + ValueBits(bv.value, i), total)
    {
      FillOne(b', next, done + ValueBits(bv.value, i), total, BitAt(bv.value, i));
      ValueBitsNext(bv.value, i);
      assert done + ValueBits(bv.value, i + 1) == done + ValueBits(bv.value, i) + [BitAt(bv.value, i)];
      b' := b'[next := BitAt(bv.value, i)];
      next := next + 1;
    }
  }

  /** Decomposes all values into one array of bits. */
  method DecomposeBits(bvs: seq<BooleanValue>, total: nat) returns (b: Bits)
    requires total == TotalBits(bvs)
    ensures b == Decompose(bvs)
  {
    b := BoolSeq(total, false);
    var current: nat := 0;
    assert bvs[..0] == [] && b[..0] == [];
    for v := 0 to |bvs|
      invariant Filled(b, current, Decompose(bvs[..v]), total)
    {
      TotalPrefix(bvs, v);
      DecomposeNext(bvs, v);
      b, current := PutValue(b, current, bvs[v], Decompose(bvs[..v]), total);
    }
    assert bvs[..|bvs|] == bvs && b[..current] == b;
  }

  /** Blinds the bits with the daBits, one by one. */
  method BlindAll(b: Bits, ds: seq<DaBit>) returns (e: Bits)
    requires |b| == |ds|
    ensures e == XorBits(b, R2Of(ds))
  {
    e := BoolSeq(|b|, false);
    for i := 0 to |ds|
      invariant |e| == |b| && forall j :: 0 <= j < i ==> e[j] == (b[j] != ds[j].r2)
    {
      e := e[i := b[i] != ds[i].r2];
    }
  }

  /** `inplace_reconstruct` */
  method Reconstruct(own: Bits, inbox: seq<Bits>) returns (e: Bits)
    requires |inbox| > 0 && AllLong(inbox, |own|)
    ensures e == XorIn(own, inbox)
  {
    e := own;
    assert inbox[..0] == [];
    for i := 0 to |inbox|
      invariant AllLong(inbox[..i], |own|) && e == XorIn(own, inbox[..i])
    {
      assert inbox[..i + 1][..i] == inbox[..i] && inbox[i] in inbox;
      e := XorBits(e, inbox[i]);
    }
    assert inbox[..|inbox|] == inbox;
  }

  /** One value's arithmetic share: bit_A = e + [r_A] - 2e[r_A], weighted and accumulated. */
  method ConvertValue(M: nat, isConst: bool, e: Bits, ds: seq<DaBit>, current: nat, len: nat)
      returns (val: int, next: nat)
    requires M > 0 && current + len <= |e| == |ds|
    ensures val == ValueShare(M, isConst, e, ds, current, len) && next == current + len
  {
    val, next := 0, current;
    for i := 0 to len
      invariant next == current + i && val == ValueShare(M, isConst, e, ds, current, i)
    {
      var round := ds[next].rp;
      var eRaMul2 := ds[next].rp;
      eRaMul2 := Mul(M, eRaMul2, 2 * ToInt(e[next]));
      round := Sub(M, round, eRaMul2);
      if isConst { round := Add(M, round, ToInt(e[next])); }
      round := Mul(M, round, Pow2(i));
      val := Add(M, val, round);
      next := next + 1;
    }
  }

  lemma {:induction false} OffsetNext(bvs: seq<BooleanValue>, v: nat)
    requires v < |bvs|
    ensures Offset(bvs, v + 1) == Offset(bvs, v) + bvs[v].bitLen && Offset(bvs, v) + bvs[v].bitLen <= TotalBits(bvs)
  {
    TotalPrefix(bvs, v);
  }

  /** The first `v` shares are there. */
  predicate Converted(M: nat, isConst: bool, bvs: seq<BooleanValue>, e: Bits, ds: seq<DaBit>, arith: seq<int>, v: nat)
    requires M > 0 && |e| == |ds| == TotalBits(bvs)
  {
    |arith| == v <= |bvs| && arith == ArithShares(M, isConst, bvs, e, ds)[..v]
  }

  lemma {:induction false} ConvertedNext(M: nat, isConst: bool, bvs: seq<BooleanValue>, e: Bits, ds: seq<DaBit>,
                                         arith: seq<int>, v: nat, n: nat, off: nat, val: int)
    requires n == v + 1
    requires M > 0 && |e| == |ds| == TotalBits(bvs) && Converted(M, isConst, bvs, e, ds, arith, v) && v < |bvs|
    requires off == Offset(bvs, v)
    requires off + bvs[v].bitLen <= |e| && val == ValueShare(M, isConst, e, ds, off, bvs[v].bitLen)
    ensures Converted(M, isConst, bvs, e, ds, arith + [val], n)
  {
    var all := ArithShares(M, isConst, bvs, e, ds);
    assert all[..n] == all[..v] + [all[v]];
  }

  /** All values' arithmetic shares. */
  method ConvertAll(M: nat, isConst: bool, bvs: seq<BooleanValue>, e: Bits, ds: seq<DaBit>) returns (arith: seq<int>)
    requires M > 0 && |e| == |ds| == TotalBits(bvs)
    ensures arith == ArithShares(M, isConst, bvs, e, ds)
  {
    arith := [];
    var current: nat := 0;
    assert bvs[..0] == [];
    for v := 0 to |bvs|
      invariant Converted(M, isConst, bvs, e, ds, arith, v) && current == Offset(bvs, v)
    {
      OffsetNext(bvs, v);
      ghost var off := current;
      var val;
      val, current := ConvertValue(M, isConst, e, ds, current, bvs[v].bitLen);
      ConvertedNext(M, isConst, bvs, e, ds, arith, v, v + 1, off, val);
      arith := arith + [val];
    }
  }

  /** `ConvLayer::interact`: `inbox` is what the peers broadcast, `sent` what this party broadcasts. */
  method Interact(M: nat, isConst: bool, bvs: seq<BooleanValue>, provider: DaBitProvider, inbox: seq<Bits>)
      returns (sent: Bits, arith: seq<int>)
    requires M > 0 && TotalBits(bvs) > 0 && |inbox| > 0 && AllLong(inbox, TotalBits(bvs))
    requires provider.Valid() && provider.storage.Some? && provider.used + TotalBits(bvs) <= |provider.storage.value|
    modifies provider`used
    ensures provider.Valid() && provider.used == old(provider.used) + TotalBits(bvs)
    ensures var ds := provider.storage.value[old(provider.used)..provider.used];
            && sent == BlindBits(bvs, ds)
            && arith == ArithShares(M, isConst, bvs, XorIn(sent, inbox), ds)
  {
    var total := CountBits(bvs);
    var b := DecomposeBits(bvs, total);
    var ds := provider.Take(total);
    sent := BlindAll(b, ds);
    var e := Reconstruct(sent, inbox);
    arith := ConvertAll(M, isConst, bvs, e, ds);
  }
}
