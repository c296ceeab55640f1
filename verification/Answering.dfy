/** One query, answered by all servers in lockstep: its circuits and its four kinds of rounds. */
module Answering {
  import opened Bits
  import opened Folds
  import opened Circuit
  import opened OneHot
  import opened AndLayer
  import opened Evaluation
  import opened Beaver
  import opened Conversion
  import opened Retrieval
  import opened Sharing
  import opened Budget
  import opened Party
  import opened Lockstep

  /* ---------- the circuit of one server ---------- */

  /** Both one-hot circuits of a server's query, and their outputs. */
  function Built1(s: Server): (seq<Gates>, Source)
    requires |s.queries| > 0 && s.queries[0].l1.bitLen >= 1
  {
    Ohe([], 0, s.queries[0].l1.bitLen, s.queries[0].l1.value, s.isConst)
  }

  function Built2(s: Server): (seq<Gates>, Source)
    requires |s.queries| > 0 && s.queries[0].l1.bitLen >= 1 && s.queries[0].l2.bitLen >= 1
  {
    Ohe(Built1(s).0, 0, s.queries[0].l2.bitLen, s.queries[0].l2.value, s.isConst)
  }

  function Tree1(k1: nat): Tree
    requires k1 >= 1
  {
    Plan([], 0, k1).1
  }

  function Tree2(k1: nat, k2: nat): Tree
    requires k1 >= 1 && k2 >= 1
  {
    Plan(Plan([], 0, k1).0, 0, k2).1
  }

  /** The circuit a server builds for a query: well formed, without empty layers, of the planned
      shape, and holding both trees. */
  predicate QueryCircuit(c: seq<Gates>, k1: nat, k2: nat, x1: nat, x2: nat, isConst: bool)
    requires k1 >= 1 && k2 >= 1
  {
    && CircuitOk(c) && NonEmptyFrom(c, 0) && Sizes(c) == QueryPlan(k1, k2)
    && Holds(c, 0, Tree1(k1), k1, x1, isConst) && Holds(c, 0, Tree2(k1, k2), k2, x2, isConst)
  }

  lemma BuiltOk(s: Server, k1: nat, k2: nat, x1: nat, x2: nat)
    requires |s.queries| > 0 && k1 >= 1 && k2 >= 1
    requires s.queries[0].l1 == BooleanValue(k1, x1) && s.queries[0].l2 == BooleanValue(k2, x2)
    ensures QueryCircuit(Built2(s).0, k1, k2, x1, x2, s.isConst)
    ensures Built1(s).1 == RootOf(Tree1(k1), x1, s.isConst)
    ensures Built2(s).1 == RootOf(Tree2(k1, k2), x2, s.isConst)
  {
    assert Sizes([]) == [];
    OheFaithful([], [], 0, k1, x1, s.isConst);
    OheFaithful(Built1(s).0, Plan([], 0, k1).0, 0, k2, x2, s.isConst);
    HoldsGrows(Built1(s).0, Built2(s).0, 0, Tree1(k1), k1, x1, s.isConst);
  }

  /** Tickets and triples are taken for every layer: none is empty, and there is at least one. */
  lemma PlanPositive(c: seq<Gates>, k1: nat, k2: nat, x1: nat, x2: nat, isConst: bool)
    requires k1 >= 2 && k2 >= 1 && QueryCircuit(c, k1, k2, x1, x2, isConst)
    ensures |QueryPlan(k1, k2)| > 0 && forall l :: 0 <= l < |QueryPlan(k1, k2)| ==> QueryPlan(k1, k2)[l] > 0
  {
    assert forall l :: 0 <= l < |c| ==> Sizes(c)[l] == c[l].size;
    assert Tree1(k1).Node?;
  }

  /* ---------- the bytes the layers take ---------- */

  lemma {:induction false} SumCons(x: int, s: seq<int>)
    ensures Sum([x] + s) == x + Sum(s)
  {
    SumConcat([x], s);
    assert [x][..0] == [];
  }

  lemma {:induction false} TailIsSum(z: seq<nat>, l: nat)
    requires l <= |z|
    ensures Tail(z, l) == Sum(z[l..])
    decreases |z| - l
  {
    if l < |z| {
      TailIsSum(z, l + 1);
      SumCons(z[l], z[l + 1..]);
      assert z[l..] == [z[l]] + z[l + 1..];
    }
  }

  lemma {:induction false} PlanTail(k1: nat, k2: nat)
    requires k1 >= 1 && k2 >= 1
    ensures Tail(QueryPlan(k1, k2), 0) + CeilDiv8(Pow2(k2)) == QueryBytes(k1, k2)
  {
    TailIsSum(QueryPlan(k1, k2), 0);
    assert QueryPlan(k1, k2)[0..] == QueryPlan(k1, k2);
    QueryPlanBytes(k1, k2);
  }

  predicate Holding(t: Triple, bytes: nat) { TripleFits(t, |t.a|) && 8 * bytes <= |t.a| }

  function LayerTriple(t: Triple, z: seq<nat>, u: nat, l: nat): (r: Triple)
    requires l < |z| && Holding(t, u + Tail(z, 0))
    ensures TripleFits(r, 8 * z[l])
  {
    TailShrinks(z, l);
    Slice(t, u + Tail(z, l + 1), u + Tail(z, l))
  }

  function LayerTriples(t: Triple, z: seq<nat>, u: nat): (r: seq<Triple>)
    requires Holding(t, u + Tail(z, 0))
    ensures |r| == |z| && forall l :: 0 <= l < |z| ==> r[l] == LayerTriple(t, z, u, l)
  {
    seq(|z|, l requires 0 <= l < |z| => LayerTriple(t, z, u, l))
  }

  function SideOf(s: Server, z: seq<nat>, u: nat): Side
    requires |s.queries| > 0 && s.queries[0].l1.bitLen >= 1 && s.queries[0].l2.bitLen >= 1
    requires Holding(s.triples, u + Tail(z, 0))
  {
    Side(Built2(s).0, LayerTriples(s.triples, z, u))
  }

  lemma {:induction false} LayerTriplesTake(side: Side, s: Server, z: seq<nat>, u: nat, l: nat)
    requires l < |z| && Holding(s.triples, u + Tail(z, 0)) && side.triples == LayerTriples(s.triples, z, u)
    ensures LayerTakesFrom(side, s.triples, z, u, l)
  {
    TailShrinks(z, l);
  }

  lemma {:induction false} SideTakes(side: Side, s: Server, z: seq<nat>, u: nat)
    requires Holding(s.triples, u + Tail(z, 0)) && side.triples == LayerTriples(s.triples, z, u)
    requires CircuitOk(side.circuit) && Sizes(side.circuit) == z
    ensures TakesFrom(side, s, z, u)
  {
    forall l | 0 <= l < |z| ensures LayerTakesFrom(side, s.triples, z, u, l) { LayerTriplesTake(side, s, z, u, l); }
    assert forall l :: 0 <= l < |z| ==> Sizes(side.circuit)[l] == side.circuit[l].size;
  }

  /* ---------- the situation before a query ---------- */

  /** Servers `bases` are about to answer the query at the head of their lists, with `u` bytes of
      triples and `v` daBits used. */
  datatype Situation = Situation(setup: Setup, bases: seq<Server>, u: nat, v: nat) {
    function K1(): nat { setup.db.k1 }
    function K2(): nat { setup.db.k2 }
  }

  predicate BaseOk(s: Server, setup: Setup, isConst: bool, u: nat, v: nat) {
    && s.setup == setup && s.isConst == isConst && s.usedB == u && s.usedD == v && |s.queries| > 0
    && s.queries[0].l1.Valid() && s.queries[0].l1.bitLen == setup.db.k1
    && s.queries[0].l2.Valid() && s.queries[0].l2.bitLen == setup.db.k2
  }

  predicate Legal(setup: Setup) { Shareable(setup.db) && setup.db.k2 >= 1 }

  predicate BasesOk(c: Situation) {
    && |c.bases| >= 2 && Legal(c.setup)
    && forall p :: 0 <= p < |c.bases| ==> BaseOk(c.bases[p], c.setup, p == 0, c.u, c.v)
  }

  function Storages(bases: seq<Server>): (r: seq<Triple>)
    ensures |r| == |bases| && forall p :: 0 <= p < |r| ==> r[p] == bases[p].triples
  {
    seq(|bases|, p requires 0 <= p < |bases| => bases[p].triples)
  }

  /** Enough matching triples are left for the query. */
  predicate Stocked(c: Situation, w: nat)
    requires BasesOk(c)
  {
    GoodTriples(Storages(c.bases), w) && 8 * (c.u + QueryBytes(c.K1(), c.K2())) <= w
  }

  lemma StockHolds(c: Situation, w: nat, p: nat)
    requires BasesOk(c) && Stocked(c, w) && p < |c.bases|
    ensures TripleFits(c.bases[p].triples, w)
    ensures Holding(c.bases[p].triples, c.u + Tail(QueryPlan(c.K1(), c.K2()), 0))
    ensures BaseOk(c.bases[p], c.setup, p == 0, c.u, c.v)
  {
    PlanTail(c.K1(), c.K2());
    assert Storages(c.bases)[p] == c.bases[p].triples;
  }

  function Sides(c: Situation, w: nat, z: seq<nat>): (r: seq<Side>)
    requires BasesOk(c) && Stocked(c, w) && z == QueryPlan(c.K1(), c.K2())
    ensures |r| == |c.bases|
    ensures forall p :: 0 <= p < |r| ==>
              && BaseOk(c.bases[p], c.setup, p == 0, c.u, c.v) && Holding(c.bases[p].triples, c.u + Tail(z, 0))
              && r[p] == SideOf(c.bases[p], z, c.u)
  {
    assert forall p :: 0 <= p < |c.bases| ==>
      BaseOk(c.bases[p], c.setup, p == 0, c.u, c.v) && Holding(c.bases[p].triples, c.u + Tail(z, 0)) by {
      forall p | 0 <= p < |c.bases|
        ensures BaseOk(c.bases[p], c.setup, p == 0, c.u, c.v) && Holding(c.bases[p].triples, c.u + Tail(z, 0))
      {
        StockHolds(c, w, p);
      }
    }
    seq(|c.bases|, p requires 0 <= p < |c.bases| => SideOf(c.bases[p], z, c.u))
  }

  /** The servers' shares of the two halves of the index. */
  function L1Values(c: Situation): (r: seq<nat>)
    requires BasesOk(c)
    ensures |r| == |c.bases|
    ensures forall p :: 0 <= p < |r| ==> |c.bases[p].queries| > 0 && r[p] == c.bases[p].queries[0].l1.value
  {
    assert forall p :: 0 <= p < |c.bases| ==> BaseOk(c.bases[p], c.setup, p == 0, c.u, c.v);
    seq(|c.bases|, p requires 0 <= p < |c.bases| => c.bases[p].queries[0].l1.value)
  }

  function L2Values(c: Situation): (r: seq<nat>)
    requires BasesOk(c)
    ensures |r| == |c.bases|
    ensures forall p :: 0 <= p < |r| ==> |c.bases[p].queries| > 0 && r[p] == c.bases[p].queries[0].l2.value
  {
    assert forall p :: 0 <= p < |c.bases| ==> BaseOk(c.bases[p], c.setup, p == 0, c.u, c.v);
    seq(|c.bases|, p requires 0 <= p < |c.bases| => c.bases[p].queries[0].l2.value)
  }

  /** Where every server finds its share of a tree's vector. */
  function RootsOf(tree: Tree, vals: seq<nat>): (r: seq<Source>)
    ensures |r| == |vals| && forall p :: 0 <= p < |r| ==> r[p] == RootOf(tree, vals[p], p == 0)
  {
    seq(|vals|, p requires 0 <= p < |vals| => RootOf(tree, vals[p], p == 0))
  }

  function TurnOf(c: Situation, w: nat, z: seq<nat>): (t: Turn)
    requires BasesOk(c) && Stocked(c, w) && z == QueryPlan(c.K1(), c.K2())
  {
    Turn(c.bases, Sides(c, w, z), z, c.u,
         RootsOf(Tree1(c.K1()), L1Values(c)), RootsOf(Tree2(c.K1(), c.K2()), L2Values(c)))
  }

  /** What is true of one server's side of the turn. */
  predicate SideFact(s: Server, side: Side, z: seq<nat>, u: nat, k1: nat, k2: nat, x1: nat, x2: nat, isConst: bool)
    requires k1 >= 1 && k2 >= 1
  {
    TakesFrom(side, s, z, u) && s.isConst == isConst && QueryCircuit(side.circuit, k1, k2, x1, x2, isConst)
  }

  lemma {:induction false} SideFacts(s: Server, setup: Setup, isConst: bool, u: nat, v: nat, z: seq<nat>)
    requires Legal(setup) && BaseOk(s, setup, isConst, u, v) && z == QueryPlan(setup.db.k1, setup.db.k2)
    requires Holding(s.triples, u + Tail(z, 0))
    ensures SideFact(s, SideOf(s, z, u), z, u, setup.db.k1, setup.db.k2, s.queries[0].l1.value, s.queries[0].l2.value,
                     isConst)
  {
    BuiltOk(s, setup.db.k1, setup.db.k2, s.queries[0].l1.value, s.queries[0].l2.value);
    SideTakes(SideOf(s, z, u), s, z, u);
  }

  lemma TurnFacts(c: Situation, w: nat, z: seq<nat>, p: nat)
    requires BasesOk(c) && Stocked(c, w) && z == QueryPlan(c.K1(), c.K2()) && p < |c.bases|
    ensures SideFact(c.bases[p], Sides(c, w, z)[p], z, c.u, c.K1(), c.K2(), L1Values(c)[p], L2Values(c)[p], p == 0)
  {
    StockHolds(c, w, p);
    SideFacts(c.bases[p], c.setup, p == 0, c.u, c.v, z);
  }

  lemma TurnPlan(c: Situation, w: nat, z: seq<nat>)
    requires BasesOk(c) && Stocked(c, w) && z == QueryPlan(c.K1(), c.K2())
    ensures |z| > 0 && forall l :: 0 <= l < |z| ==> z[l] > 0
  {
    TurnFacts(c, w, z, 0);
    PlanPositive(Sides(c, w, z)[0].circuit, c.K1(), c.K2(), L1Values(c)[0], L2Values(c)[0], true);
  }

  lemma TurnOfOk(c: Situation, w: nat, z: seq<nat>)
    requires BasesOk(c) && Stocked(c, w) && z == QueryPlan(c.K1(), c.K2())
    ensures TurnOk(TurnOf(c, w, z)) && |z| > 0
  {
    TurnPlan(c, w, z);
    var ps := Sides(c, w, z);
    forall p | 0 <= p < |c.bases|
      ensures TakesFrom(ps[p], c.bases[p], z, c.u) && Shaped(ps[p], z) && c.bases[p].isConst == (p == 0)
    {
      TurnFacts(c, w, z, p);
    }
  }

  lemma TreesEverywhere(c: Situation, w: nat, z: seq<nat>)
    requires BasesOk(c) && Stocked(c, w) && z == QueryPlan(c.K1(), c.K2())
    ensures AllCircuitsOk(Sides(c, w, z))
    ensures TreeEverywhere(Sides(c, w, z), 0, Tree1(c.K1()), c.K1(), L1Values(c))
    ensures TreeEverywhere(Sides(c, w, z), 0, Tree2(c.K1(), c.K2()), c.K2(), L2Values(c))
  {
    var ps := Sides(c, w, z);
    forall p | 0 <= p < |c.bases|
      ensures CircuitOk(ps[p].circuit)
      ensures Holds(ps[p].circuit, 0, Tree1(c.K1()), c.K1(), L1Values(c)[p], p == 0)
      ensures Holds(ps[p].circuit, 0, Tree2(c.K1(), c.K2()), c.K2(), L2Values(c)[p], p == 0)
    {
      TurnFacts(c, w, z, p);
    }
  }

  lemma TriplesAreSlices(c: Situation, w: nat, z: seq<nat>, ps: seq<Side>, l: nat, st: nat, end: nat)
    requires BasesOk(c) && Stocked(c, w) && z == QueryPlan(c.K1(), c.K2()) && ps == Sides(c, w, z) && AllShaped(ps, z)
    requires l < |z|
    requires st == c.u + Tail(z, l + 1) && end == c.u + Tail(z, l) && 8 * end <= w
    ensures TriplesAt(ps, z, l) == Slices(Storages(c.bases), w, st, end)
  {
    var a, b := TriplesAt(ps, z, l), Slices(Storages(c.bases), w, st, end);
    forall p | 0 <= p < |c.bases| ensures a[p] == b[p] {
      assert ps[p] == SideOf(c.bases[p], z, c.u);
    }
  }

  lemma LayerDealt(c: Situation, w: nat, z: seq<nat>, ps: seq<Side>, l: nat)
    requires BasesOk(c) && Stocked(c, w) && z == QueryPlan(c.K1(), c.K2()) && ps == Sides(c, w, z) && AllShaped(ps, z)
    requires l < |z|
    ensures Dealt(TriplesAt(ps, z, l), 8 * z[l])
  {
    PlanTail(c.K1(), c.K2());
    TailShrinks(z, l);
    var st, end := c.u + Tail(z, l + 1), c.u + Tail(z, l);
    TriplesAreSlices(c, w, z, ps, l, st, end);
    SliceDealt(Storages(c.bases), w, st, end);
    assert end - st == z[l];
  }

  lemma SidesFamily(c: Situation, w: nat, z: seq<nat>, ps: seq<Side>)
    requires BasesOk(c) && Stocked(c, w) && z == QueryPlan(c.K1(), c.K2()) && ps == Sides(c, w, z)
    ensures FamilyOk(ps, z)
  {
    TurnOfOk(c, w, z);
    TreesEverywhere(c, w, z);
    forall l | 0 <= l < |z| ensures Dealt(TriplesAt(ps, z, l), 8 * z[l]) { LayerDealt(c, w, z, ps, l); }
  }

  /* ---------- the outputs of the one-hot circuits ---------- */

  function VecOf(src: Source, prev: Option<Finished>): (v: BitVec)
    ensures v.Valid() && v.Data() == SourceBits(src, prev)
  {
    if SourceOk(src, BelowOf(prev)) then Extract(src, prev) else BitVec([], 0)
  }

  function VecsOf(srcs: seq<Source>, prevs: seq<Option<Finished>>): (r: seq<BitVec>)
    requires |srcs| == |prevs|
    ensures |r| == |srcs| && forall p :: 0 <= p < |r| ==> r[p] == VecOf(srcs[p], prevs[p])
  {
    seq(|srcs|, p requires 0 <= p < |srcs| => VecOf(srcs[p], prevs[p]))
  }

  /** The source can be read and has `n` bits. */
  predicate Readable(src: Source, prev: Option<Finished>, n: nat) {
    SourceOk(src, BelowOf(prev)) && SourceLen(src) == n
  }

  predicate AllReadable(srcs: seq<Source>, prevs: seq<Option<Finished>>, n: nat) {
    |srcs| == |prevs| && forall p :: 0 <= p < |srcs| ==> Readable(srcs[p], prevs[p], n)
  }

  lemma ReadableFit(srcs: seq<Source>, prevs: seq<Option<Finished>>, n: nat)
    requires AllReadable(srcs, prevs, n)
    ensures VecsFit(VecsOf(srcs, prevs), n)
  {
    forall p | 0 <= p < |srcs| ensures VecOf(srcs[p], prevs[p]).size == n {
      assert Readable(srcs[p], prevs[p], n);
    }
  }

  lemma {:induction false} RootReadable(c: seq<Gates>, tree: Tree, k: nat, x: nat, isConst: bool,
                                        prev: Option<Finished>)
    requires Holds(c, 0, tree, k, x, isConst) && BelowOf(prev) == BelowFrom(c, 0)
    ensures Readable(RootOf(tree, x, isConst), prev, Pow2(k))
  {
    HoldsSource(c, 0, tree, k, x, isConst);
  }

  lemma {:induction false} RootsReadable(ps: seq<Side>, tree: Tree, k: nat, vals: seq<nat>,
                                         prevs: seq<Option<Finished>>)
    requires TreeEverywhere(ps, 0, tree, k, vals) && Ready(ps, 0, prevs)
    ensures AllReadable(RootsOf(tree, vals), prevs, Pow2(k))
  {
    forall p | 0 <= p < |ps| ensures Readable(RootOf(tree, vals[p], p == 0), prevs[p], Pow2(k)) {
      RootReadable(ps[p].circuit, tree, k, vals[p], p == 0, prevs[p]);
    }
  }

  lemma VecsAreRoots(tree: Tree, vals: seq<nat>, prevs: seq<Option<Finished>>, n: nat)
    requires |vals| == |prevs| && VecsFit(VecsOf(RootsOf(tree, vals), prevs), n)
    ensures Datas(VecsOf(RootsOf(tree, vals), prevs), n) == Roots(prevs, tree, vals)
  {
    var a, b := Datas(VecsOf(RootsOf(tree, vals), prevs), n), Roots(prevs, tree, vals);
    forall p | 0 <= p < |vals| ensures a[p] == b[p] {
      assert VecsOf(RootsOf(tree, vals), prevs)[p] == VecOf(RootOf(tree, vals[p], p == 0), prevs[p]);
    }
  }

  /** After the run, the servers' outputs of a one-hot circuit share the vector of the shared index. */
  lemma {:induction false} RunShares(ps: seq<Side>, z: seq<nat>, tree: Tree, k: nat, vals: seq<nat>,
                                     prevs: seq<Option<Finished>>)
    requires FamilyOk(ps, z) && TreeEverywhere(ps, 0, tree, k, vals) && AllBelow(vals, k) && prevs == Done(ps, z, 0)
    ensures AllReadable(RootsOf(tree, vals), prevs, Pow2(k)) && VecsFit(VecsOf(RootsOf(tree, vals), prevs), Pow2(k))
    ensures SharesOneHot(VecsOf(RootsOf(tree, vals), prevs), Pow2(k), XorAll(vals))
  {
    DoneReady(ps, z, 0);
    RootsReadable(ps, tree, k, vals, prevs);
    ReadableFit(RootsOf(tree, vals), prevs, Pow2(k));
    VecsAreRoots(tree, vals, prevs, Pow2(k));
    forall j | 0 <= j < Pow2(k) ensures Rec(Roots(prevs, tree, vals), j) == (j == XorAll(vals)) {
      OneHotCorrect(ps, z, 0, tree, k, vals, j);
    }
  }

  /* ---------- the end of the run ---------- */

  /** Server `s` about to exchange the select layer. */
  function SelectState(s: Server, used: nat, ans: BitVec, ohe2: BitVec): Server
    requires ans.size == ohe2.size
  {
    s.(usedB := used, job := Select(SelectGates(ans, ohe2)))
  }

  lemma BeginSelectIs(s: Server, out: Option<Finished>, src1: Source, src2: Source)
    requires s.setup.db.Valid() && Readable(src1, out, Pow2(s.setup.db.k1)) && Readable(src2, out, Pow2(s.setup.db.k2))
    ensures VecOf(src1, out).size == Pow2(s.setup.db.k1) && VecOf(src2, out).size == Pow2(s.setup.db.k2)
    ensures NextLayer(s, [], out, src1, src2)
         == s.(job := Select(SelectGates(Padded(Lvl1Data(s.setup.db.rows, VecOf(src1, out).Data())), VecOf(src2, out))))
  {
  }

  function SelectStates(bases: seq<Server>, used: nat, answers: seq<BitVec>, ohes2: seq<BitVec>,
                        n: nat): (r: seq<Server>)
    requires |bases| == |answers| == |ohes2| && VecsFit(answers, n) && VecsFit(ohes2, n)
    ensures |r| == |bases| && forall p :: 0 <= p < |r| ==> r[p] == SelectState(bases[p], used, answers[p], ohes2[p])
  {
    seq(|bases|, p requires 0 <= p < |bases| => SelectState(bases[p], used, answers[p], ohes2[p]))
  }

  lemma AboveIsSelect(t: Turn, p: nat, prev: Option<Finished>, zi: Bits, out: Option<Finished>,
                      db: Database)
    requires TurnOk(t) && 0 < |t.z| && p < |t.bases| && out == Some(Finished(0, zi)) && t.bases[p].setup.db == db
    requires db.Valid()
    requires Readable(t.src1[p], out, Pow2(db.k1)) && Readable(t.src2[p], out, Pow2(db.k2))
    ensures VecOf(t.src1[p], out).size == Pow2(db.k1) && VecOf(t.src2[p], out).size == Pow2(db.k2)
    ensures Above(t, 0, p, prev, zi)
         == SelectState(t.bases[p], t.u + Tail(t.z, 0), Padded(Lvl1Data(db.rows, VecOf(t.src1[p], out).Data())),
                        VecOf(t.src2[p], out))
  {
    assert Shaped(t.ps[p], t.z);
    assert t.ps[p].circuit[..0] == [];
    BeginSelectIs(ExpandState(t, 0, p, prev).(usedB := t.u + Tail(t.z, 0)), out, t.src1[p], t.src2[p]);
  }

  /** After the last layer all servers turn to the select layer, with level-one answers computed
      from their shares of the first one-hot vector. */
  lemma AllAboveSelect(t: Turn, prevs: seq<Option<Finished>>, zs: seq<Bits>,
                       outs: seq<Option<Finished>>, db: Database)
    requires TurnOk(t) && 0 < |t.z| && |prevs| == |zs| == |t.bases| && outs == Wrap(0, zs) && db.Valid()
    requires forall p :: 0 <= p < |t.bases| ==> t.bases[p].setup.db == db
    requires AllReadable(t.src1, outs, Pow2(db.k1)) && VecsFit(VecsOf(t.src1, outs), Pow2(db.k1))
    requires AllReadable(t.src2, outs, Pow2(db.k2)) && VecsFit(VecsOf(t.src2, outs), Pow2(db.k2))
    ensures AllAbove(t, 0, prevs, zs)
         == SelectStates(t.bases, t.u + Tail(t.z, 0), Answers(db, VecsOf(t.src1, outs)), VecsOf(t.src2, outs),
                         Pow2(db.k2))
  {
    var a, b := AllAbove(t, 0, prevs, zs),
      SelectStates(t.bases, t.u + Tail(t.z, 0), Answers(db, VecsOf(t.src1, outs)), VecsOf(t.src2, outs), Pow2(db.k2));
    forall p | 0 <= p < |t.bases| ensures a[p] == b[p] {
      assert Readable(t.src1[p], outs[p], Pow2(db.k1)) && Readable(t.src2[p], outs[p], Pow2(db.k2));
      AboveIsSelect(t, p, prevs[p], zs[p], outs[p], db);
    }
  }

  /* ---------- the select round ---------- */

  function SelectGatesAll(answers: seq<BitVec>, ohes2: seq<BitVec>, n: nat): (r: seq<Gates>)
    requires |answers| == |ohes2| && VecsFit(answers, n) && VecsFit(ohes2, n)
    ensures |r| == |answers| && forall p :: 0 <= p < |r| ==> r[p] == SelectGates(answers[p], ohes2[p])
  {
    seq(|answers|, p requires 0 <= p < |answers| => SelectGates(answers[p], ohes2[p]))
  }

  lemma SelectExchange(s: Server, used: nat, ans: BitVec, ohe2: BitVec, n: nat, size: nat,
                       isConst: bool, t: Triple)
    requires ans.Valid() && ohe2.Valid() && ans.size == ohe2.size == n && n > 0 && size == CeilDiv8(n)
    requires s.isConst == isConst
    requires Holding(s.triples, used + size) && t == Slice(s.triples, used, used + size)
    ensures ExchangeOk(SelectState(s, used, ans, ohe2), isConst, SelectGates(ans, ohe2), 0, None,
                       StreamsFor(SelectGates(ans, ohe2), 0, None), t, 8 * size)
  {
    SelectRunnable(ans, ohe2);
  }

  /** What the select round needs of the servers. */
  predicate SelectReady(bases: seq<Server>, used: nat, n: nat, size: nat, w: nat) {
    && n > 0 && size == CeilDiv8(n) && 8 * (used + size) <= w && TriplesFit(Storages(bases), w)
    && forall p :: 0 <= p < |bases| ==> bases[p].isConst == (p == 0)
  }

  lemma SelectExchanging(bases: seq<Server>, used: nat, answers: seq<BitVec>, ohes2: seq<BitVec>,
                         n: nat, size: nat, w: nat,
                         end: nat)
    requires |bases| == |answers| == |ohes2| && VecsFit(answers, n) && VecsFit(ohes2, n)
    requires SelectReady(bases, used, n, size, w)
    requires end == used + size
    ensures Exchanging(SelectStates(bases, used, answers, ohes2, n), SelectGatesAll(answers, ohes2, n), 0,
                       Nothing(|bases|),
                       SelectAll(answers, ohes2, n), Slices(Storages(bases), w, used, end), 8 * size)
  {
    var states := SelectStates(bases, used, answers, ohes2, n);
    var ts := Slices(Storages(bases), w, used, end);
    forall p | 0 <= p < |bases|
      ensures ExchangeOk(states[p], p == 0, SelectGatesAll(answers, ohes2, n)[p], 0, Nothing(|bases|)[p],
                         SelectAll(answers, ohes2, n)[p], ts[p], 8 * size)
    {
      assert Storages(bases)[p] == bases[p].triples;
      SelectExchange(bases[p], used, answers[p], ohes2[p], n, size, p == 0, ts[p]);
    }
  }

  lemma SelectEmit(prog: Code, s: Server, g: Gates)
    requires prog == ServerProgram() && s.job == Select(g)
    ensures prog.emit(s) == EmitLayer(s, g, 0, None)
  {
    EmitBy(prog, s, EmitLayer(s, g, 0, None));
  }

  lemma SelectEmits(prog: Code, bases: seq<Server>, used: nat, answers: seq<BitVec>,
                    ohes2: seq<BitVec>, n: nat)
    requires prog == ServerProgram() && |bases| == |answers| == |ohes2| && VecsFit(answers, n) && VecsFit(ohes2, n)
    ensures forall p :: 0 <= p < |bases| ==>
      OutsOf(prog, SelectStates(bases, used, answers, ohes2, n))[p]
      == EmitLayer(SelectStates(bases, used, answers, ohes2, n)[p], SelectGatesAll(answers, ohes2, n)[p], 0, None)
  {
    var states := SelectStates(bases, used, answers, ohes2, n);
    forall p | 0 <= p < |bases|
      ensures OutsOf(prog, states)[p] == EmitLayer(states[p], SelectGatesAll(answers, ohes2, n)[p], 0, None)
    {
      SelectEmit(prog, states[p], SelectGatesAll(answers, ohes2, n)[p]);
    }
  }

  /** The select ticket is the whole layer: its output is all of Z, padding included. */
  lemma WholeOutput(z: Bits, n: nat)
    requires |z| == 8 * CeilDiv8(n)
    ensures TicketFits(Ticket(0, 0, n), 0, |z| / 8) && ReadOutput(Finished(0, z), Ticket(0, 0, n)).bits == z
  {
  }

  lemma {:induction false} SelectAbsorb(prog: Code, s: Server, g: Gates, inbox: seq<Payload>, zi: Bits, used: nat)
    requires prog == ServerProgram() && s.job == Select(g) && AfterLayer(s, g, 0, None, inbox) == Some(zi)
    requires |zi| == 8 * CeilDiv8(Pow2(s.setup.db.k2)) && used == s.usedB + g.size
    ensures prog.absorb(s, inbox) == BeginConvert(s.(usedB := used), Parity(zi))
  {
    WholeOutput(zi, Pow2(s.setup.db.k2));
    AbsorbBy(prog, s, inbox, BeginConvert(s.(usedB := used), Parity(zi)));
  }

  /** The query can be joined into one word, and its daBits are there. */
  predicate Convertible(s: Server, vEnd: nat) {
    && |s.queries| > 0 && s.queries[0].l1.Valid() && s.queries[0].l2.Valid()
    && s.queries[0].l1.bitLen < 32 && s.queries[0].l1.bitLen + s.queries[0].l2.bitLen <= 32
    && vEnd == s.usedD + s.queries[0].l1.bitLen + s.queries[0].l2.bitLen + 1 && vEnd <= |s.dabits|
  }

  /** Server `s` about to exchange the blinded bits of the joined index and its record bit. */
  function ConvertState(s: Server, used: nat, vEnd: nat, record: bool): Server
    requires Convertible(s, vEnd)
  {
    s.(usedB := used, usedD := vEnd, job := Convert(ToConvert(s.queries[0], record), s.dabits[s.usedD..vEnd]))
  }

  lemma BeginConvertIs(s: Server, x: Server, used: nat, vEnd: nat, record: bool)
    requires Convertible(s, vEnd) && x == s.(usedB := used, job := x.job)
    ensures BeginConvert(x, record) == ConvertState(s, used, vEnd, record)
  {
    JoinIsSum(s.queries[0].l1, s.queries[0].l2);
  }

  lemma SelectAt(prog: Code, bases: seq<Server>, used: nat, answers: seq<BitVec>,
                 ohes2: seq<BitVec>, n: nat, size: nat, w: nat,
                 end: nat, states: seq<Server>, emits: seq<Payload>, p: nat)
    requires prog == ServerProgram() && |bases| == |answers| == |ohes2| && VecsFit(answers, n) && VecsFit(ohes2, n)
    requires SelectReady(bases, used, n, size, w) && end == used + size && p < |bases|
    requires states == SelectStates(bases, used, answers, ohes2, n) && emits == OutsOf(prog, states)
    ensures AfterLayer(states[p], SelectGates(answers[p], ohes2[p]), 0, None, FromPeers(emits, p))
         == Some(SelectZs(answers, ohes2, Slices(Storages(bases), w, used, end), n)[p])
  {
    SelectExchanging(bases, used, answers, ohes2, n, size, w, end);
    SelectEmits(prog, bases, used, answers, ohes2, n);
    ExchangeRound(states, SelectGatesAll(answers, ohes2, n), 0, Nothing(|bases|), SelectAll(answers, ohes2, n),
                  Slices(Storages(bases), w, used, end), 8 * size, emits, p);
  }

  lemma {:induction false} SelectMoves(prog: Code, s: Server, used: nat, ans: BitVec, ohe2: BitVec, n: nat, end: nat,
                                       vEnd: nat,
                                       inbox: seq<Payload>, zi: Bits)
    requires prog == ServerProgram() && ans.size == ohe2.size == n == Pow2(s.setup.db.k2) && end == used + CeilDiv8(n)
    requires Convertible(s, vEnd)
    requires |zi| == 8 * CeilDiv8(n)
    requires AfterLayer(SelectState(s, used, ans, ohe2), SelectGates(ans, ohe2), 0, None, inbox) == Some(zi)
    ensures prog.absorb(SelectState(s, used, ans, ohe2), inbox) == ConvertState(s, end, vEnd, Parity(zi))
  {
    var x := SelectState(s, used, ans, ohe2);
    SelectAbsorb(prog, x, SelectGates(ans, ohe2), inbox, zi, end);
    BeginConvertIs(s, x.(usedB := end), end, vEnd, Parity(zi));
  }

  predicate AllConvertible(bases: seq<Server>, vEnd: nat) {
    forall p :: 0 <= p < |bases| ==> Convertible(bases[p], vEnd)
  }

  function ConvertStates(bases: seq<Server>, used: nat, vEnd: nat, records: Bits): (r: seq<Server>)
    requires |records| == |bases| && AllConvertible(bases, vEnd)
    ensures |r| == |bases| && forall p :: 0 <= p < |r| ==> r[p] == ConvertState(bases[p], used, vEnd, records[p])
  {
    seq(|bases|, p requires 0 <= p < |bases| => ConvertState(bases[p], used, vEnd, records[p]))
  }

  /** The select layer is exchanged: every server goes on with its share of the record bit. */
  lemma SelectLeads(prog: Code, bases: seq<Server>, used: nat, answers: seq<BitVec>,
                    ohes2: seq<BitVec>, n: nat, size: nat, w: nat,
                    end: nat, vEnd: nat, zs: seq<Bits>)
    requires prog == ServerProgram() && |bases| == |answers| == |ohes2| && VecsFit(answers, n) && VecsFit(ohes2, n)
    requires SelectReady(bases, used, n, size, w) && end == used + size && AllConvertible(bases, vEnd)
    requires forall p :: 0 <= p < |bases| ==> Pow2(bases[p].setup.db.k2) == n
    requires zs == SelectZs(answers, ohes2, Slices(Storages(bases), w, used, end), n)
    ensures Leads(prog, SelectStates(bases, used, answers, ohes2, n), ConvertStates(bases, end, vEnd, RowParities(zs)))
  {
    var states, next := SelectStates(bases, used, answers, ohes2, n), ConvertStates(bases, end, vEnd, RowParities(zs));
    var emits := OutsOf(prog, states);
    forall p | 0 <= p < |bases| ensures prog.absorb(states[p], FromPeers(emits, p)) == next[p] {
      SelectAt(prog, bases, used, answers, ohes2, n, size, w, end, states, emits, p);
      SelectMoves(prog, bases[p], used, answers[p], ohes2[p], n, end, vEnd, FromPeers(emits, p), zs[p]);
    }
  }
}
