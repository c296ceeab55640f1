/** All parties evaluating the layers of their circuits together, and the one-hot theorem. */
module Evaluation {
  import opened Bits
  import opened Circuit
  import opened OneHot
  import opened AndLayer

  /** One party: its circuit, and its share of the triples each layer takes. */
  datatype Side = Side(circuit: seq<Gates>, triples: seq<Triple>)

  /** The party's layers have the planned sizes and its triples fit them. */
  predicate Shaped(p: Side, z: seq<nat>) {
    && |p.circuit| == |p.triples| == |z|
    && forall l :: 0 <= l < |z| ==> p.circuit[l].size == z[l] && TripleFits(p.triples[l], 8 * z[l])
  }

  predicate AllShaped(ps: seq<Side>, z: seq<nat>) { forall i :: 0 <= i < |ps| ==> Shaped(ps[i], z) }

  function TriplesAt(ps: seq<Side>, z: seq<nat>, l: nat): (r: seq<Triple>)
    requires AllShaped(ps, z) && l < |z|
    ensures |r| == |ps| && TriplesFit(r, 8 * z[l])
    ensures forall i :: 0 <= i < |ps| ==> r[i] == ps[i].triples[l]
  {
    seq(|ps|, i requires 0 <= i < |ps| => ps[i].triples[l])
  }

  predicate AllCircuitsOk(ps: seq<Side>) { forall i :: 0 <= i < |ps| ==> CircuitOk(ps[i].circuit) }

  /** All parties hold well-formed circuits of the same shape, and matching shares of good triples. */
  predicate FamilyOk(ps: seq<Side>, z: seq<nat>) {
    && |ps| > 0 && AllShaped(ps, z) && AllCircuitsOk(ps)
    && forall l :: 0 <= l < |z| ==> Dealt(TriplesAt(ps, z, l), 8 * z[l])
  }

  /** The streams of a layer whose operations all pass their checks. */
  function StreamsFor(g: Gates, l: nat, prev: Option<Finished>): (s: Streams)
    ensures StreamsFit(s, g.size)
  {
    if AllRunnable(g.ops, l, g.size, BelowOf(prev)) then LayerStreams(g, l, prev) else ZeroStreams(g.size)
  }

  /** Every party's input streams of layer `l`, given what it finished before. */
  function StreamsAt(ps: seq<Side>, z: seq<nat>, l: nat, prevs: seq<Option<Finished>>): (r: seq<Streams>)
    requires AllShaped(ps, z) && l < |z| && |prevs| == |ps|
    ensures |r| == |ps| && AllStreamsFit(r, 8 * z[l])
    ensures forall i :: 0 <= i < |ps| ==> r[i] == StreamsFor(ps[i].circuit[l], l, prevs[i])
  {
    assert forall i :: 0 <= i < |ps| ==> ps[i].circuit[l].size == z[l];
    seq(|ps|, i requires 0 <= i < |ps| => StreamsFor(ps[i].circuit[l], l, prevs[i]))
  }

  function Wrap(l: nat, zs: seq<Bits>): (r: seq<Option<Finished>>)
    ensures |r| == |zs| && forall i :: 0 <= i < |zs| ==> r[i] == Some(Finished(l, zs[i]))
  {
    seq(|zs|, i requires 0 <= i < |zs| => Some(Finished(l, zs[i])))
  }

  function Nothing(n: nat): (r: seq<Option<Finished>>)
    ensures |r| == n && forall i :: 0 <= i < n ==> r[i] == None
  {
    seq(n, i => None)
  }

  /** The Z streams of all parties for layer `l`, given what they finished before. */
  function ZsAt(ps: seq<Side>, z: seq<nat>, l: nat, prevs: seq<Option<Finished>>): (r: seq<Bits>)
    requires AllShaped(ps, z) && l < |z| && |prevs| == |ps|
    ensures |r| == |ps| && Rect(r, 8 * z[l])
  {
    LayerZs(StreamsAt(ps, z, l, prevs), TriplesAt(ps, z, l), 8 * z[l])
  }

  /** `run`, for all parties: layers are worked off from the last one up to `l`. */
  function Done(ps: seq<Side>, z: seq<nat>, l: nat): (r: seq<Option<Finished>>)
    requires AllShaped(ps, z)
    ensures |r| == |ps|
    decreases |z| - l
  {
    if l >= |z| then Nothing(|ps|) else Wrap(l, ZsAt(ps, z, l, Done(ps, z, l + 1)))
  }

  /** Each party has finished exactly the layer below the one it works on next. */
  predicate Ready(ps: seq<Side>, l: nat, prevs: seq<Option<Finished>>) {
    |prevs| == |ps| && forall i :: 0 <= i < |ps| ==> BelowOf(prevs[i]) == BelowFrom(ps[i].circuit, l)
  }

  lemma WrapReady(ps: seq<Side>, z: seq<nat>, l: nat, zs: seq<Bits>)
    requires AllShaped(ps, z) && l < |z| && |zs| == |ps| && Rect(zs, 8 * z[l])
    ensures Ready(ps, l, Wrap(l, zs))
  {
    forall i | 0 <= i < |ps| ensures BelowOf(Wrap(l, zs)[i]) == BelowFrom(ps[i].circuit, l) {
      assert Shaped(ps[i], z);
    }
  }

  lemma {:induction false} DoneReady(ps: seq<Side>, z: seq<nat>, l: nat)
    requires AllShaped(ps, z)
    ensures Ready(ps, l, Done(ps, z, l))
  {
    if l < |z| { WrapReady(ps, z, l, ZsAt(ps, z, l, Done(ps, z, l + 1))); }
  }

  /* ---------- the leaves ---------- */

  function LeafRows(idxs: seq<nat>): (r: seq<Bits>)
    ensures |r| == |idxs|
    ensures forall i :: 0 <= i < |idxs| ==> r[i] == [(idxs[i] != 0) != (i == 0), idxs[i] != 0]
  {
    seq(|idxs|, i requires 0 <= i < |idxs| => [(idxs[i] != 0) != (i == 0), idxs[i] != 0])
  }

  lemma LeafColumn(idxs: seq<nat>)
    requires forall i :: 0 <= i < |idxs| ==> idxs[i] < 2
    ensures Col(LeafRows(idxs), 1) == BitCol(idxs, 0)
  {
    forall i | 0 <= i < |idxs| ensures BitAt(idxs[i], 0) == (idxs[i] != 0) {}
  }

  lemma {:induction false} LeafOnes(idxs: seq<nat>)
    requires forall i :: 0 <= i < |idxs| ==> idxs[i] < 2
    ensures Rec(LeafRows(idxs), 1) == (XorAll(idxs) == 1) && XorAll(idxs) < 2
  {
    assert Pow2(1) == 2;
    XorAllBelow(idxs, 1);
    BitOfXorAll(idxs, 0);
    LeafColumn(idxs);
    assert BitAt(XorAll(idxs), 0) == (XorAll(idxs) == 1);
  }

  /** Only the constant party's flip survives reconstruction. */
  lemma LeafFlip(idxs: seq<nat>)
    requires |idxs| > 0
    ensures Rec(LeafRows(idxs), 0) == !Rec(LeafRows(idxs), 1)
  {
    var flip := [true] + BoolSeq(|idxs| - 1, false);
    ParitySingle(flip, 0);
    ParityXor(Col(LeafRows(idxs), 1), flip, Col(LeafRows(idxs), 0));
  }

  lemma LeafBits(idx: nat, isConst: bool, prev: Option<Finished>)
    ensures SourceBits(Input(LeafVec(idx, isConst)), prev) == [(idx != 0) != isConst, idx != 0]
  {
  }

  /* ---------- one node of the tree ---------- */

  /** Bit `j` of 2^(k - s) copies of 2^s bits. */
  lemma {:induction false} ReplicaBit(d: Bits, n: nat, k: nat, s: nat, j: nat)
    requires s <= k && |d| == Pow2(s) && n == Pow2(k - s) && j < Pow2(k)
    ensures At(Replicated(d, n), j) == At(d, Mask(j, s))
  {
    PartBelow(j, k, s);
    ShrMaskJoin(j, s);
    ReplicatedAt(d, n, Shr(j, s), Mask(j, s));
  }

  lemma {:induction false} JoinXOut(k: nat, low: Source, t: Ticket, prev: Option<Finished>, j: nat)
    requires k >= 2 && SourceOk(low, BelowOf(prev)) && SourceLen(low) == Pow2(Split(k)) && j < Pow2(k)
    ensures At(OpOut(JoinX(k, low, t), prev), j) == At(SourceBits(low, prev), Mask(j, Split(k)))
  {
    ReplicaBit(SourceBits(low, prev), Pow2(k - Split(k)), k, Split(k), j);
  }

  /** Bit `j` of 2^(k - s) bits, each 2^s times. */
  lemma {:induction false} ExpansionBit(d: Bits, n: nat, k: nat, s: nat, j: nat)
    requires s <= k && |d| == Pow2(k - s) && n == Pow2(s) && j < Pow2(k)
    ensures At(Expanded(d, n), j) == At(d, Shr(j, s))
  {
    PartBelow(j, k, s);
    ShrMaskJoin(j, s);
    ExpandedAt(d, n, Shr(j, s), Mask(j, s));
  }

  lemma {:induction false} JoinYOut(k: nat, high: Source, t: Ticket, prev: Option<Finished>, j: nat)
    requires k >= 2 && SourceOk(high, BelowOf(prev)) && SourceLen(high) == Pow2(k - Split(k)) && j < Pow2(k)
    ensures At(OpOut(JoinY(k, high, t), prev), j) == At(SourceBits(high, prev), Shr(j, Split(k)))
  {
    ExpansionBit(SourceBits(high, prev), Pow2(Split(k)), k, Split(k), j);
  }

  /** Bit `j` of a node's X share: the low vector at the low part of j. */
  lemma {:induction false} NodeX(g: Gates, l: nat, prev: Option<Finished>, k: nat, low: Source, t: Ticket, j: nat)
    requires AllRunnable(g.ops, l, g.size, BelowOf(prev)) && Disjoint(g.ops)
    requires k >= 2 && JoinX(k, low, t) in g.ops && SourceLen(low) == Pow2(Split(k))
    requires t.endBit - t.stBit == Pow2(k) && j < Pow2(k)
    ensures At(StreamsFor(g, l, prev).x, t.stBit + j) == At(SourceBits(low, prev), Mask(j, Split(k)))
  {
    var x := JoinX(k, low, t);
    assert Runnable(x, l, g.size, BelowOf(prev));
    TicketInside(t, l, g.size, Pow2(k), j);
    LayerStreamBit(g, l, prev, x, 0, t.stBit + j);
    JoinXOut(k, low, t, prev, j);
  }

  /** Bit `j` of a node's Y share: the high vector at the high part of j. */
  lemma {:induction false} NodeY(g: Gates, l: nat, prev: Option<Finished>, k: nat, high: Source, t: Ticket, j: nat)
    requires AllRunnable(g.ops, l, g.size, BelowOf(prev)) && Disjoint(g.ops)
    requires k >= 2 && JoinY(k, high, t) in g.ops && SourceLen(high) == Pow2(k - Split(k))
    requires t.endBit - t.stBit == Pow2(k) && j < Pow2(k)
    ensures At(StreamsFor(g, l, prev).y, t.stBit + j) == At(SourceBits(high, prev), Shr(j, Split(k)))
  {
    var y := JoinY(k, high, t);
    assert Runnable(y, l, g.size, BelowOf(prev));
    TicketInside(t, l, g.size, Pow2(k), j);
    LayerStreamBit(g, l, prev, y, 1, t.stBit + j);
    JoinYOut(k, high, t, prev, j);
  }

  lemma TicketInside(t: Ticket, l: nat, size: nat, bits: nat, j: nat)
    requires TicketFits(t, l, size) && t.endBit - t.stBit == bits && j < bits
    ensures t.stBit + j < 8 * size
  {
  }

  /** Where a root's bits come from: bit `j` of the source is bit stBit + j of the layer's Z. */
  lemma RootBit(t: Ticket, l: nat, z: Bits, j: nat)
    requires TicketFits(t, l, |z| / 8) && j < t.endBit - t.stBit
    ensures At(SourceBits(TakeZ(t), Some(Finished(l, z))), j) == At(z, t.stBit + j)
  {
  }

  /** A one sits at j exactly when it sits at both parts of j: j = high * 2^s + low. */
  lemma {:induction false} IndexSplit(j: nat, x: nat, s: nat)
    ensures (Mask(j, s) == Mask(x, s) && Shr(j, s) == Shr(x, s)) <==> j == x
    decreases s
  {
    if s > 0 { IndexSplit(j / 2, x / 2, s - 1); }
  }

  /* ---------- the tree, for all parties ---------- */

  /** Every party holds the tree's gates for its own share; party 0 adds constants. */
  predicate TreeEverywhere(ps: seq<Side>, l: nat, tree: Tree, k: nat, idxs: seq<nat>) {
    |idxs| == |ps| && forall i :: 0 <= i < |ps| ==> Holds(ps[i].circuit, l, tree, k, idxs[i], i == 0)
  }

  /** Every party's share of the vector at the root of `tree`. */
  function Roots(prevs: seq<Option<Finished>>, tree: Tree, idxs: seq<nat>): (r: seq<Bits>)
    requires |prevs| == |idxs|
    ensures |r| == |idxs|
    ensures forall i :: 0 <= i < |idxs| ==> r[i] == SourceBits(RootOf(tree, idxs[i], i == 0), prevs[i])
  {
    seq(|idxs|, i requires 0 <= i < |idxs| => SourceBits(RootOf(tree, idxs[i], i == 0), prevs[i]))
  }

  lemma HalvesEverywhere(ps: seq<Side>, l: nat, tree: Tree, k: nat, idxs: seq<nat>)
    requires tree.Node? && TreeEverywhere(ps, l, tree, k, idxs) && |ps| > 0
    ensures k >= 2 && l < |ps[0].circuit|
    ensures TreeEverywhere(ps, l + 1, tree.low, Split(k), LowParts(idxs, Split(k)))
    ensures TreeEverywhere(ps, l + 1, tree.high, k - Split(k), HighParts(idxs, Split(k)))
  {
    assert Holds(ps[0].circuit, l, tree, k, idxs[0], true);
  }

  /** One party's part in a node: its X and Y bits, and its root bit. */
  lemma {:induction false} PartyNode(c: seq<Gates>, l: nat, tree: Tree, k: nat, idx: nat, isConst: bool,
                                     prev: Option<Finished>, zi: Bits, j: nat)
    requires tree.Node? && Holds(c, l, tree, k, idx, isConst) && LayerOk(c, l)
    requires BelowOf(prev) == BelowFrom(c, l + 1) && |zi| == 8 * c[l].size && j < Pow2(k)
    ensures At(StreamsFor(c[l], l, prev).x, tree.t.stBit + j)
         == At(SourceBits(RootOf(tree.low, Mask(idx, Split(k)), isConst), prev), Mask(j, Split(k)))
    ensures At(StreamsFor(c[l], l, prev).y, tree.t.stBit + j)
         == At(SourceBits(RootOf(tree.high, Shr(idx, Split(k)), isConst), prev), Shr(j, Split(k)))
    ensures At(SourceBits(TakeZ(tree.t), Some(Finished(l, zi))), j) == At(zi, tree.t.stBit + j)
  {
    PartyX(c, l, tree, k, idx, isConst, prev, j);
    PartyY(c, l, tree, k, idx, isConst, prev, j);
    RootBit(tree.t, l, zi, j);
  }

  lemma {:induction false} PartyX(c: seq<Gates>, l: nat, tree: Tree, k: nat, idx: nat, isConst: bool,
                                  prev: Option<Finished>, j: nat)
    requires tree.Node? && Holds(c, l, tree, k, idx, isConst) && LayerOk(c, l)
    requires BelowOf(prev) == BelowFrom(c, l + 1) && j < Pow2(k)
    ensures At(StreamsFor(c[l], l, prev).x, tree.t.stBit + j)
         == At(SourceBits(RootOf(tree.low, Mask(idx, Split(k)), isConst), prev), Mask(j, Split(k)))
  {
    HoldsSource(c, l + 1, tree.low, Split(k), Mask(idx, Split(k)), isConst);
    NodeX(c[l], l, prev, k, RootOf(tree.low, Mask(idx, Split(k)), isConst), tree.t, j);
  }

  lemma {:induction false} PartyY(c: seq<Gates>, l: nat, tree: Tree, k: nat, idx: nat, isConst: bool,
                                  prev: Option<Finished>, j: nat)
    requires tree.Node? && Holds(c, l, tree, k, idx, isConst) && LayerOk(c, l)
    requires BelowOf(prev) == BelowFrom(c, l + 1) && j < Pow2(k)
    ensures At(StreamsFor(c[l], l, prev).y, tree.t.stBit + j)
         == At(SourceBits(RootOf(tree.high, Shr(idx, Split(k)), isConst), prev), Shr(j, Split(k)))
  {
    HoldsSource(c, l + 1, tree.high, k - Split(k), Shr(idx, Split(k)), isConst);
    NodeY(c[l], l, prev, k, RootOf(tree.high, Shr(idx, Split(k)), isConst), tree.t, j);
  }

  /** What the parties need to evaluate a node of layer `l`. */
  predicate NodeReady(ps: seq<Side>, z: seq<nat>, l: nat, tree: Tree, k: nat, idxs: seq<nat>,
                      prevs: seq<Option<Finished>>) {
    && l < |z| && AllShaped(ps, z) && AllCircuitsOk(ps) && Ready(ps, l + 1, prevs)
    && tree.Node? && TreeEverywhere(ps, l, tree, k, idxs)
  }

  /** Bit `j` of one party's shares at a node whose ticket starts at bit `st`. */
  predicate PointOk(x: Bits, y: Bits, root: Bits, zi: Bits, low: Bits, high: Bits, st: nat, s: nat, j: nat) {
    && At(x, st + j) == At(low, Mask(j, s)) && At(y, st + j) == At(high, Shr(j, s))
    && At(root, j) == At(zi, st + j)
  }

  /** The same of what the parties' shares XOR to. */
  predicate ColumnOk(xs: seq<Bits>, ys: seq<Bits>, roots: seq<Bits>, zs: seq<Bits>, lows: seq<Bits>, highs: seq<Bits>,
                     st: nat, s: nat, j: nat) {
    && Rec(xs, st + j) == Rec(lows, Mask(j, s)) && Rec(ys, st + j) == Rec(highs, Shr(j, s))
    && Rec(roots, j) == Rec(zs, st + j)
  }

  lemma PointsToColumn(xs: seq<Bits>, ys: seq<Bits>, roots: seq<Bits>, zs: seq<Bits>, lows: seq<Bits>,
                       highs: seq<Bits>, st: nat, s: nat, j: nat)
    requires |xs| == |ys| == |roots| == |zs| == |lows| == |highs|
    requires forall i :: 0 <= i < |xs| ==> PointOk(xs[i], ys[i], roots[i], zs[i], lows[i], highs[i], st, s, j)
    ensures ColumnOk(xs, ys, roots, zs, lows, highs, st, s, j)
  {
    SameColumn(xs, st + j, lows, Mask(j, s));
    SameColumn(ys, st + j, highs, Shr(j, s));
    SameColumn(roots, j, zs, st + j);
  }

  lemma {:induction false} NodePoint(ps: seq<Side>, z: seq<nat>, l: nat, tree: Tree, k: nat, idxs: seq<nat>,
                                     prevs: seq<Option<Finished>>, zs: seq<Bits>, j: nat, i: nat)
    requires NodeReady(ps, z, l, tree, k, idxs, prevs) && j < Pow2(k) && i < |ps|
    requires |zs| == |ps| && Rect(zs, 8 * z[l])
    ensures PointOk(Xs(StreamsAt(ps, z, l, prevs))[i], Ys(StreamsAt(ps, z, l, prevs))[i],
                    Roots(Wrap(l, zs), tree, idxs)[i], zs[i], Roots(prevs, tree.low, LowParts(idxs, Split(k)))[i],
                    Roots(prevs, tree.high, HighParts(idxs, Split(k)))[i], tree.t.stBit, Split(k), j)
  {
    assert Shaped(ps[i], z) && CircuitOk(ps[i].circuit);
    PartyNode(ps[i].circuit, l, tree, k, idxs[i], i == 0, prevs[i], zs[i], j);
  }

  /** Column by column, a node reads its halves' shares. */
  lemma {:induction false} NodeColumns(ps: seq<Side>, z: seq<nat>, l: nat, tree: Tree, k: nat, idxs: seq<nat>,
                                       prevs: seq<Option<Finished>>, zs: seq<Bits>, j: nat)
    requires NodeReady(ps, z, l, tree, k, idxs, prevs) && j < Pow2(k)
    requires |zs| == |ps| && Rect(zs, 8 * z[l])
    ensures ColumnOk(Xs(StreamsAt(ps, z, l, prevs)), Ys(StreamsAt(ps, z, l, prevs)), Roots(Wrap(l, zs), tree, idxs), zs,
                     Roots(prevs, tree.low, LowParts(idxs, Split(k))),
                     Roots(prevs, tree.high, HighParts(idxs, Split(k))), tree.t.stBit, Split(k), j)
  {
    var st, s := tree.t.stBit, Split(k);
    var xs, ys := Xs(StreamsAt(ps, z, l, prevs)), Ys(StreamsAt(ps, z, l, prevs));
    var lows := Roots(prevs, tree.low, LowParts(idxs, s));
    var highs := Roots(prevs, tree.high, HighParts(idxs, s));
    var roots := Roots(Wrap(l, zs), tree, idxs);
    forall i | 0 <= i < |ps| ensures PointOk(xs[i], ys[i], roots[i], zs[i], lows[i], highs[i], st, s, j) {
      NodePoint(ps, z, l, tree, k, idxs, prevs, zs, j, i);
    }
    PointsToColumn(xs, ys, roots, zs, lows, highs, st, s, j);
  }

  /** Gate `b` computed the AND of what it was given. */
  predicate Anded(xs: seq<Bits>, ys: seq<Bits>, zs: seq<Bits>, st: nat, j: nat) {
    Rec(zs, st + j) == (Rec(xs, st + j) && Rec(ys, st + j))
  }

  /** Bit `j` of a vector is the AND of its halves' vectors, each read at its part of j. */
  predicate Halved(whole: seq<Bits>, low: seq<Bits>, high: seq<Bits>, s: nat, j: nat) {
    Rec(whole, j) == (Rec(low, Mask(j, s)) && Rec(high, Shr(j, s)))
  }

  lemma AndedAt(xs: seq<Bits>, ys: seq<Bits>, zs: seq<Bits>, st: nat, j: nat, b: nat)
    requires b == st + j && Rec(zs, b) == (Rec(xs, b) && Rec(ys, b))
    ensures Anded(xs, ys, zs, st, j)
  {
  }

  /** Every gate of the layer: the parties' Z shares the AND of what X and Y share. */
  lemma LayerStep(ps: seq<Side>, z: seq<nat>, l: nat, prevs: seq<Option<Finished>>, st: nat, j: nat)
    requires FamilyOk(ps, z) && l < |z| && |prevs| == |ps| && st + j < 8 * z[l]
    ensures Anded(Xs(StreamsAt(ps, z, l, prevs)), Ys(StreamsAt(ps, z, l, prevs)), ZsAt(ps, z, l, prevs), st, j)
  {
    var b := st + j;
    LayerAnd(StreamsAt(ps, z, l, prevs), TriplesAt(ps, z, l), 8 * z[l], b);
    AndedAt(Xs(StreamsAt(ps, z, l, prevs)), Ys(StreamsAt(ps, z, l, prevs)), ZsAt(ps, z, l, prevs), st, j, b);
  }

  lemma {:induction false} NodeInside(ps: seq<Side>, z: seq<nat>, l: nat, tree: Tree, k: nat, idxs: seq<nat>, j: nat)
    requires |ps| > 0 && AllShaped(ps, z) && tree.Node? && TreeEverywhere(ps, l, tree, k, idxs) && j < Pow2(k)
    ensures l < |z| && tree.t.stBit + j < 8 * z[l]
  {
    assert Holds(ps[0].circuit, l, tree, k, idxs[0], true) && Shaped(ps[0], z);
    TicketInside(tree.t, l, z[l], Pow2(k), j);
  }

  lemma HalvedFrom(xs: seq<Bits>, ys: seq<Bits>, roots: seq<Bits>, zs: seq<Bits>, lows: seq<Bits>, highs: seq<Bits>,
                   st: nat, s: nat, j: nat)
    requires Anded(xs, ys, zs, st, j) && ColumnOk(xs, ys, roots, zs, lows, highs, st, s, j)
    ensures Halved(roots, lows, highs, s, j)
  {
  }

  /** A node's vector is the AND of its halves' vectors, each read at its part of the index. */
  lemma {:induction false} NodeCorrect(ps: seq<Side>, z: seq<nat>, l: nat, tree: Tree, k: nat, idxs: seq<nat>,
                                       prevs: seq<Option<Finished>>, j: nat)
    requires NodeReady(ps, z, l, tree, k, idxs, prevs) && j < Pow2(k)
    requires Anded(Xs(StreamsAt(ps, z, l, prevs)), Ys(StreamsAt(ps, z, l, prevs)), ZsAt(ps, z, l, prevs),
                   tree.t.stBit, j)
    ensures Halved(Roots(Wrap(l, ZsAt(ps, z, l, prevs)), tree, idxs), Roots(prevs, tree.low, LowParts(idxs, Split(k))),
                   Roots(prevs, tree.high, HighParts(idxs, Split(k))), Split(k), j)
  {
    NodeColumns(ps, z, l, tree, k, idxs, prevs, ZsAt(ps, z, l, prevs), j);
    HalvedFrom(Xs(StreamsAt(ps, z, l, prevs)), Ys(StreamsAt(ps, z, l, prevs)),
               Roots(Wrap(l, ZsAt(ps, z, l, prevs)), tree, idxs), ZsAt(ps, z, l, prevs),
               Roots(prevs, tree.low, LowParts(idxs, Split(k))), Roots(prevs, tree.high, HighParts(idxs, Split(k))),
               tree.t.stBit, Split(k), j);
  }

  predicate AllBelow(idxs: seq<nat>, k: nat) { forall i :: 0 <= i < |idxs| ==> idxs[i] < Pow2(k) }

  lemma PartsBelow(idxs: seq<nat>, k: nat, s: nat)
    requires s <= k && AllBelow(idxs, k)
    ensures AllBelow(LowParts(idxs, s), s) && AllBelow(HighParts(idxs, s), k - s)
  {
    forall i | 0 <= i < |idxs| ensures LowParts(idxs, s)[i] < Pow2(s) && HighParts(idxs, s)[i] < Pow2(k - s) {
      PartBelow(idxs[i], k, s);
    }
  }

  lemma {:induction false} LeavesCorrect(prevs: seq<Option<Finished>>, idxs: seq<nat>, j: nat)
    requires |prevs| == |idxs| > 0 && AllBelow(idxs, 1) && j < 2
    ensures Rec(Roots(prevs, Leaf, idxs), j) == (j == XorAll(idxs))
  {
    assert Pow2(1) == 2;
    LeafOnes(idxs);
    LeafFlip(idxs);
    forall i | 0 <= i < |idxs| ensures Roots(prevs, Leaf, idxs)[i] == LeafRows(idxs)[i] {
      LeafBits(idxs[i], i == 0, prevs[i]);
    }
    assert Roots(prevs, Leaf, idxs) == LeafRows(idxs);
  }

  lemma {:induction false} NodeGate(ps: seq<Side>, z: seq<nat>, l: nat, tree: Tree, k: nat, idxs: seq<nat>,
                                    prevs: seq<Option<Finished>>, j: nat)
    requires FamilyOk(ps, z) && |prevs| == |ps| && tree.Node? && TreeEverywhere(ps, l, tree, k, idxs) && j < Pow2(k)
    ensures l < |z|
    ensures Anded(Xs(StreamsAt(ps, z, l, prevs)), Ys(StreamsAt(ps, z, l, prevs)), ZsAt(ps, z, l, prevs),
                  tree.t.stBit, j)
  {
    NodeInside(ps, z, l, tree, k, idxs, j);
    LayerStep(ps, z, l, prevs, tree.t.stBit, j);
  }

  lemma NodeStep(ps: seq<Side>, z: seq<nat>, l: nat, tree: Tree, k: nat, idxs: seq<nat>, j: nat)
    requires FamilyOk(ps, z) && tree.Node? && TreeEverywhere(ps, l, tree, k, idxs) && j < Pow2(k)
    ensures Rec(Roots(Done(ps, z, l), tree, idxs), j)
         == (&& Rec(Roots(Done(ps, z, l + 1), tree.low, LowParts(idxs, Split(k))), Mask(j, Split(k)))
             && Rec(Roots(Done(ps, z, l + 1), tree.high, HighParts(idxs, Split(k))), Shr(j, Split(k))))
  {
    NodeGate(ps, z, l, tree, k, idxs, Done(ps, z, l + 1), j);
    DoneReady(ps, z, l + 1);
    NodeCorrect(ps, z, l, tree, k, idxs, Done(ps, z, l + 1), j);
  }

  lemma {:induction false} LeafStep(ps: seq<Side>, z: seq<nat>, l: nat, k: nat, idxs: seq<nat>, j: nat)
    requires |ps| > 0 && AllShaped(ps, z) && TreeEverywhere(ps, l, Leaf, k, idxs) && AllBelow(idxs, k) && j < Pow2(k)
    ensures Rec(Roots(Done(ps, z, l), Leaf, idxs), j) == (j == XorAll(idxs))
  {
    assert Holds(ps[0].circuit, l, Leaf, k, idxs[0], true);
    assert Pow2(1) == 2;
    LeavesCorrect(Done(ps, z, l), idxs, j);
  }

  lemma {:induction false} IndexOfParts(idxs: seq<nat>, j: nat, s: nat)
    ensures (Mask(j, s) == XorAll(LowParts(idxs, s)) && Shr(j, s) == XorAll(HighParts(idxs, s))) <==> j == XorAll(idxs)
  {
    XorAllSplit(idxs, s);
    IndexSplit(j, XorAll(idxs), s);
  }

  /** The two halves of a node are trees of their own. */
  lemma {:induction false} HalvesReady(ps: seq<Side>, l: nat, tree: Tree, k: nat, idxs: seq<nat>, j: nat)
    requires |ps| > 0 && tree.Node? && TreeEverywhere(ps, l, tree, k, idxs) && AllBelow(idxs, k) && j < Pow2(k)
    ensures k >= 2
    ensures TreeEverywhere(ps, l + 1, tree.low, Split(k), LowParts(idxs, Split(k)))
    ensures TreeEverywhere(ps, l + 1, tree.high, k - Split(k), HighParts(idxs, Split(k)))
    ensures AllBelow(LowParts(idxs, Split(k)), Split(k)) && AllBelow(HighParts(idxs, Split(k)), k - Split(k))
    ensures Mask(j, Split(k)) < Pow2(Split(k)) && Shr(j, Split(k)) < Pow2(k - Split(k))
  {
    HalvesEverywhere(ps, l, tree, k, idxs);
    PartsBelow(idxs, k, Split(k));
    PartBelow(j, k, Split(k));
  }

  /** The situation of OneHotCorrect. */
  predicate OneHotCase(ps: seq<Side>, z: seq<nat>, l: nat, tree: Tree, k: nat, idxs: seq<nat>, j: nat) {
    FamilyOk(ps, z) && TreeEverywhere(ps, l, tree, k, idxs) && AllBelow(idxs, k) && j < Pow2(k)
  }

  lemma {:induction false} LowHalf(ps: seq<Side>, z: seq<nat>, l: nat, tree: Tree, k: nat, idxs: seq<nat>, j: nat)
    requires tree.Node? && OneHotCase(ps, z, l, tree, k, idxs, j)
    ensures Rec(Roots(Done(ps, z, l + 1), tree.low, LowParts(idxs, Split(k))), Mask(j, Split(k)))
         == (Mask(j, Split(k)) == XorAll(LowParts(idxs, Split(k))))
    decreases tree, 0
  {
    HalvesReady(ps, l, tree, k, idxs, j);
    OneHotCorrect(ps, z, l + 1, tree.low, Split(k), LowParts(idxs, Split(k)), Mask(j, Split(k)));
  }

  lemma {:induction false} HighHalf(ps: seq<Side>, z: seq<nat>, l: nat, tree: Tree, k: nat, idxs: seq<nat>, j: nat)
    requires tree.Node? && OneHotCase(ps, z, l, tree, k, idxs, j)
    ensures Rec(Roots(Done(ps, z, l + 1), tree.high, HighParts(idxs, Split(k))), Shr(j, Split(k)))
         == (Shr(j, Split(k)) == XorAll(HighParts(idxs, Split(k))))
    decreases tree, 0
  {
    HalvesReady(ps, l, tree, k, idxs, j);
    OneHotCorrect(ps, z, l + 1, tree.high, k - Split(k), HighParts(idxs, Split(k)), Shr(j, Split(k)));
  }

  /** For every index length, the parties' output shares of `ohe_vec` reconstruct to the vector
      whose only one is at the shared index. */
  lemma {:induction false} OneHotCorrect(ps: seq<Side>, z: seq<nat>, l: nat, tree: Tree, k: nat, idxs: seq<nat>, j: nat)
    requires OneHotCase(ps, z, l, tree, k, idxs, j)
    ensures Rec(Roots(Done(ps, z, l), tree, idxs), j) == (j == XorAll(idxs))
    decreases tree, 1
  {
    if tree.Leaf? {
      LeafStep(ps, z, l, k, idxs, j);
    } else {
      LowHalf(ps, z, l, tree, k, idxs, j);
      HighHalf(ps, z, l, tree, k, idxs, j);
      NodeStep(ps, z, l, tree, k, idxs, j);
      IndexOfParts(idxs, j, Split(k));
    }
  }
}
