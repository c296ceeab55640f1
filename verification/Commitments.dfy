/** Pedersen commitments to (randomness, index, response). The group has prime order M, so its
    elements are written as multiples of one generator: integers modulo M. */
module Commitments {
  import opened Folds
  import opened Scalars

  /** The three fixed generators. */
  datatype Generators = Generators(h: int, g1: int, g2: int)

  datatype Opening = Opening(rnd: int, idx: int, resp: int)

  function Raw(g: Generators, op: Opening): int { op.rnd * g.h + op.idx * g.g1 + op.resp * g.g2 }

  /** `commit` */
  function Commit(M: nat, g: Generators, op: Opening): (c: int)
    requires M > 0
    ensures 0 <= c < M
  {
    Raw(g, op) % M
  }

  /** `verify` */
  predicate Verify(M: nat, g: Generators, c: int, op: Opening)
    requires M > 0
  {
    c == Commit(M, g, op)
  }

  /** What `Commitment::aggregate` computes. */
  function Aggregate(M: nat, cs: seq<int>): (c: int)
    requires M > 0
    ensures 0 <= c < M
  {
    Sum(cs) % M
  }

  method AggregateCommits(M: nat, cs: seq<int>) returns (c: int)
    requires M > 0
    ensures c == Aggregate(M, cs)
  {
    c := 0;
    for i := 0 to |cs|
      invariant c == Sum(cs[..i]) % M
    {
      assert cs[..i + 1][..i] == cs[..i];
      SameMod(M, Sum(cs[..i]));
      SameAdd(M, c, Sum(cs[..i]), cs[i], cs[i]);
      c := Add(M, c, cs[i]);
    }
    assert cs[..|cs|] == cs;
  }

  function Rnds(ops: seq<Opening>): (r: seq<int>)
    ensures |r| == |ops| && forall i :: 0 <= i < |ops| ==> r[i] == ops[i].rnd
  { seq(|ops|, i requires 0 <= i < |ops| => ops[i].rnd) }

  function Idxs(ops: seq<Opening>): (r: seq<int>)
    ensures |r| == |ops| && forall i :: 0 <= i < |ops| ==> r[i] == ops[i].idx
  { seq(|ops|, i requires 0 <= i < |ops| => ops[i].idx) }

  function Resps(ops: seq<Opening>): (r: seq<int>)
    ensures |r| == |ops| && forall i :: 0 <= i < |ops| ==> r[i] == ops[i].resp
  { seq(|ops|, i requires 0 <= i < |ops| => ops[i].resp) }

  /** What `Opening::aggregate` computes, component by component. */
  function SumOpening(ops: seq<Opening>): Opening { Opening(Sum(Rnds(ops)), Sum(Idxs(ops)), Sum(Resps(ops))) }

  method AggregateOpenings(M: nat, ops: seq<Opening>) returns (op: Opening)
    requires M > 0 && |ops| > 0
    ensures SameOpening(M, op, SumOpening(ops))
  {
    op := ops[0];
    assert ops[..1] == [ops[0]];
    SumOne(Rnds(ops[..1]));
    SumOne(Idxs(ops[..1]));
    SumOne(Resps(ops[..1]));
    for i := 1 to |ops|
      invariant SameOpening(M, op, SumOpening(ops[..i]))
    {
      OpeningStep(M, op, ops, i);
      op := Opening(Add(M, op.rnd, ops[i].rnd), Add(M, op.idx, ops[i].idx), Add(M, op.resp, ops[i].resp));
    }
    assert ops[..|ops|] == ops;
  }

  lemma {:induction false} SumOne(s: seq<int>)
    requires |s| == 1
    ensures Sum(s) == s[0]
  {
    assert s[..0] == [];
  }

  /** Equal as openings: component by component as scalars. */
  predicate SameOpening(M: nat, a: Opening, b: Opening)
    requires M > 0
  {
    Same(M, a.rnd, b.rnd) && Same(M, a.idx, b.idx) && Same(M, a.resp, b.resp)
  }

  lemma OpeningStep(M: nat, op: Opening, ops: seq<Opening>, i: nat)
    requires M > 0 && i < |ops| && SameOpening(M, op, SumOpening(ops[..i]))
    ensures SameOpening(M, Opening(Add(M, op.rnd, ops[i].rnd), Add(M, op.idx, ops[i].idx),
                                   Add(M, op.resp, ops[i].resp)),
                        SumOpening(ops[..i + 1]))
  {
    assert Rnds(ops[..i + 1])[..i] == Rnds(ops[..i]);
    assert Idxs(ops[..i + 1])[..i] == Idxs(ops[..i]);
    assert Resps(ops[..i + 1])[..i] == Resps(ops[..i]);
    AddStep(M, op.rnd, Sum(Rnds(ops[..i])), ops[i].rnd);
    AddStep(M, op.idx, Sum(Idxs(ops[..i])), ops[i].idx);
    AddStep(M, op.resp, Sum(Resps(ops[..i])), ops[i].resp);
  }

  lemma AddStep(M: nat, a: int, b: int, x: int)
    requires M > 0 && Same(M, a, b)
    ensures Same(M, Add(M, a, x), b + x)
  {
    SameAdd(M, a, b, x, x);
    SameMod(M, a + x);
  }

  /** Equal openings have equal commitments. */
  lemma CommitSame(M: nat, g: Generators, a: Opening, b: Opening)
    requires M > 0 && SameOpening(M, a, b)
    ensures Commit(M, g, a) == Commit(M, g, b)
  {
    SameMul(M, a.rnd, b.rnd, g.h);
    SameMul(M, a.idx, b.idx, g.g1);
    SameMul(M, a.resp, b.resp, g.g2);
    SameAdd(M, a.rnd * g.h, b.rnd * g.h, a.idx * g.g1, b.idx * g.g1);
    SameAdd(M, a.rnd * g.h + a.idx * g.g1, b.rnd * g.h + b.idx * g.g1, a.resp * g.g2, b.resp * g.g2);
  }

  function Commits(M: nat, g: Generators, ops: seq<Opening>): (r: seq<int>)
    requires M > 0
    ensures |r| == |ops| && forall i :: 0 <= i < |ops| ==> r[i] == Commit(M, g, ops[i])
  { seq(|ops|, i requires 0 <= i < |ops| => Commit(M, g, ops[i])) }

  function Raws(g: Generators, ops: seq<Opening>): (r: seq<int>)
    ensures |r| == |ops| && forall i :: 0 <= i < |ops| ==> r[i] == Raw(g, ops[i])
  { seq(|ops|, i requires 0 <= i < |ops| => Raw(g, ops[i])) }

  lemma {:induction false} RawsSum(g: Generators, ops: seq<Opening>)
    ensures Sum(Raws(g, ops)) == Raw(g, SumOpening(ops))
  {
    if |ops| > 0 {
      var n := |ops| - 1;
      RawsSum(g, ops[..n]);
      assert Raws(g, ops)[..n] == Raws(g, ops[..n]);
      assert Rnds(ops)[..n] == Rnds(ops[..n]) && Idxs(ops)[..n] == Idxs(ops[..n]) && Resps(ops)[..n] == Resps(ops[..n]);
      RawAdds(g, SumOpening(ops[..n]), ops[n]);
    }
  }

  lemma RawAdds(g: Generators, a: Opening, b: Opening)
    ensures Raw(g, Opening(a.rnd + b.rnd, a.idx + b.idx, a.resp + b.resp)) == Raw(g, a) + Raw(g, b)
  {
    assert (a.rnd + b.rnd) * g.h == a.rnd * g.h + b.rnd * g.h;
    assert (a.idx + b.idx) * g.g1 == a.idx * g.g1 + b.idx * g.g1;
    assert (a.resp + b.resp) * g.g2 == a.resp * g.g2 + b.resp * g.g2;
  }

  /** Commitments are additively homomorphic: the aggregate of the parties' commitments is the
      commitment to any opening equal to the sum of theirs. */
  lemma AggregateOpens(M: nat, g: Generators, ops: seq<Opening>, op: Opening)
    requires M > 0 && SameOpening(M, SumOpening(ops), op)
    ensures Verify(M, g, Aggregate(M, Commits(M, g, ops)), op)
  {
    forall i | 0 <= i < |ops| ensures Same(M, Commits(M, g, ops)[i], Raws(g, ops)[i]) {
      SameMod(M, Raw(g, ops[i]));
    }
    SameSum(M, Commits(M, g, ops), Raws(g, ops));
    RawsSum(g, ops);
    CommitSame(M, g, SumOpening(ops), op);
  }

  /** The aggregate does not depend on the order in which commitments arrive. */
  lemma AggregateAnyOrder(M: nat, a: seq<int>, b: seq<int>)
    requires M > 0 && multiset(a) == multiset(b)
    ensures Aggregate(M, a) == Aggregate(M, b)
  {
    var id := (x: int) => x;
    SumPerm(id, a, b);
    assert Map(id, a) == a && Map(id, b) == b;
  }

  /** The three generators commit to one part of an opening each. As commitments are additive, this
      says what every commitment is. */
  lemma CommitUnits(M: nat, g: Generators)
    requires M > 0
    ensures Commit(M, g, Opening(1, 0, 0)) == g.h % M
    ensures Commit(M, g, Opening(0, 1, 0)) == g.g1 % M
    ensures Commit(M, g, Opening(0, 0, 1)) == g.g2 % M
  {
  }

  /** Two openings have the same commitment exactly when their difference commits to nothing. */
  lemma SameCommitIff(M: nat, g: Generators, a: Opening, b: Opening)
    requires M > 0
    ensures Commit(M, g, a) == Commit(M, g, b)
       <==> Same(M, (a.rnd - b.rnd) * g.h + (a.idx - b.idx) * g.g1 + (a.resp - b.resp) * g.g2, 0)
  {
    var d := (a.rnd - b.rnd) * g.h + (a.idx - b.idx) * g.g1 + (a.resp - b.resp) * g.g2;
    RawDiffers(g, a, b);
    if Same(M, Raw(g, a), Raw(g, b)) { SameSub(M, Raw(g, a), Raw(g, b), Raw(g, b), Raw(g, b)); }
    if Same(M, d, 0) { SameAdd(M, d, 0, Raw(g, b), Raw(g, b)); }
  }

  lemma RawDiffers(g: Generators, a: Opening, b: Opening)
    ensures Raw(g, a) - Raw(g, b)
         == (a.rnd - b.rnd) * g.h + (a.idx - b.idx) * g.g1 + (a.resp - b.resp) * g.g2
  {
    assert (a.rnd - b.rnd) * g.h == a.rnd * g.h - b.rnd * g.h;
    assert (a.idx - b.idx) * g.g1 == a.idx * g.g1 - b.idx * g.g1;
    assert (a.resp - b.resp) * g.g2 == a.resp * g.g2 - b.resp * g.g2;
  }

  /** Generator `g` takes `a` and `b` to the same element. */
  predicate Meets(M: nat, a: int, b: int, g: int)
    requires M > 0
  {
    Same(M, (a - b) * g, 0)
  }

  lemma IndexMeets(M: nat, g: Generators, rnd: int, i: int, j: int, resp: int)
    requires M > 0
    ensures Commit(M, g, Opening(rnd, i, resp)) == Commit(M, g, Opening(rnd, j, resp)) <==> Meets(M, i, j, g.g1)
  {
    SameCommitIff(M, g, Opening(rnd, i, resp), Opening(rnd, j, resp));
    assert (rnd - rnd) * g.h == 0 && (resp - resp) * g.g2 == 0;
  }

  lemma RandomnessMeets(M: nat, g: Generators, a: int, b: int, idx: int, resp: int)
    requires M > 0
    ensures Commit(M, g, Opening(a, idx, resp)) == Commit(M, g, Opening(b, idx, resp)) <==> Meets(M, a, b, g.h)
  {
    SameCommitIff(M, g, Opening(a, idx, resp), Opening(b, idx, resp));
    assert (idx - idx) * g.g1 == 0 && (resp - resp) * g.g2 == 0;
  }

  /** In a group of prime order, a commitment to index `i` opens to `j` exactly when the two are equal as
      scalars or the index generator is the neutral element. */
  lemma BindsIndex(M: nat, g: Generators, rnd: int, i: int, j: int, resp: int)
    requires M > 0
    ensures Verify(M, g, Commit(M, g, Opening(rnd, i, resp)), Opening(rnd, j, resp)) <==> Meets(M, i, j, g.g1)
    ensures Prime(M) ==> (Meets(M, i, j, g.g1) <==> Same(M, i, j) || Same(M, g.g1, 0))
  {
    IndexMeets(M, g, rnd, i, j, resp);
    FactorZero(M, i, j, g.g1);
  }

  /** The same for the randomness and its generator. */
  lemma BindsRandomness(M: nat, g: Generators, a: int, b: int, idx: int, resp: int)
    requires M > 0
    ensures Verify(M, g, Commit(M, g, Opening(a, idx, resp)), Opening(b, idx, resp)) <==> Meets(M, a, b, g.h)
    ensures Prime(M) ==> (Meets(M, a, b, g.h) <==> Same(M, a, b) || Same(M, g.h, 0))
  {
    RandomnessMeets(M, g, a, b, idx, resp);
    FactorZero(M, a, b, g.h);
  }

  lemma FactorZero(M: nat, a: int, b: int, g: int)
    requires M > 0
    ensures Prime(M) ==> (Meets(M, a, b, g) <==> Same(M, a, b) || Same(M, g, 0))
  {
    if Prime(M) { ZeroProduct(M, a - b, g); }
    if Same(M, a, b) { SameSub(M, a, b, b, b); }
    if Same(M, a - b, 0) { SameAdd(M, a - b, 0, b, b); }
  }

  /** A commitment to one response bit opens to the other exactly when the response generator is
      the neutral element. */
  lemma BindsResponse(M: nat, g: Generators, rnd: int, idx: int, bit: bool)
    requires M > 0
    ensures Verify(M, g, Commit(M, g, Opening(rnd, idx, if bit then 1 else 0)), Opening(rnd, idx, if bit then 0 else 1))
       <==> Same(M, g.g2, 0)
  {
    var r0, r1 := Raw(g, Opening(rnd, idx, 0)), Raw(g, Opening(rnd, idx, 1));
    assert r1 == r0 + g.g2;
    if Same(M, g.g2, 0) { SameAdd(M, r0, r0, g.g2, 0); }
    if Same(M, r1, r0) { SameSub(M, r1, r0, r0, r0); }
  }
}
