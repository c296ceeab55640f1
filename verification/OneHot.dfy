/** Compiling a shared index into layers of AND gates that compute its one-hot vector. */
module OneHot {
  import opened Bits
  import opened Circuit

  /* ---------- the builder ---------- */

  /** `get_layer`: creates the missing layers up to `l`, all empty. */
  function GetLayer(c: seq<Gates>, l: nat): (r: seq<Gates>)
    ensures l < |r| && |c| <= |r| && r[..|c|] == c
    ensures forall i :: |c| <= i < |r| ==> r[i] == Gates(0, []) && i <= l
  {
    if l < |c| then c else c + seq(l + 1 - |c|, i => Gates(0, []))
  }

  /** `request_ticket` */
  function NewTicket(c: seq<Gates>, l: nat, bitSize: nat): Ticket
    requires l < |c|
  {
    Ticket(l, 8 * c[l].size, 8 * c[l].size + bitSize)
  }

  /** A fresh ticket of layer `l`, with one operation queued for each of its two streams. */
  function AddPair(c: seq<Gates>, l: nat, bitSize: nat, x: Operation, y: Operation): (r: seq<Gates>)
    requires l < |c|
  {
    c[l := Gates(c[l].size + CeilDiv8(bitSize), c[l].ops + [x, y])]
  }

  /** Shares of NOT b and b for a one-bit index; only the constant party flips. */
  function LeafVec(idx: nat, isConst: bool): (v: BitVec)
    ensures v.Valid() && v.size == 2
  {
    BitVec([(idx != 0) != isConst, idx != 0] + BoolSeq(6, false), 2)
  }

  function Split(k: nat): nat { (k + 1) / 2 }

  lemma SplitInside(k: nat)
    requires k >= 2
    ensures 1 <= Split(k) < k
  {
  }

  /** The gates that combine the vectors of the two halves of a `k`-bit index: the low vector
      replicated, the high vector expanded bit by bit. */
  function Join(c: seq<Gates>, l: nat, k: nat, low: Source, high: Source): (seq<Gates>, Source)
    requires k >= 2
  {
    var c' := GetLayer(c, l);
    var t := NewTicket(c', l, Pow2(k));
    (AddPair(c', l, Pow2(k), JoinX(k, low, t), JoinY(k, high, t)), TakeZ(t))
  }

  function JoinX(k: nat, low: Source, t: Ticket): Operation { Replicate(Pow2(k - Split(k)), low, Relay(t, 0)) }
  function JoinY(k: nat, high: Source, t: Ticket): Operation { BitExpand(Pow2(Split(k)), high, Relay(t, 1)) }

  /** `recursive_ohe_vec` */
  function Ohe(c: seq<Gates>, l: nat, k: nat, idx: nat, isConst: bool): (seq<Gates>, Source)
    requires k >= 1
    decreases k
  {
    if k == 1 then (c, Input(LeafVec(idx, isConst)))
    else
      var low := Ohe(c, l + 1, Split(k), Mask(idx, Split(k)), isConst);
      var high := Ohe(low.0, l + 1, k - Split(k), Shr(idx, Split(k)), isConst);
      Join(high.0, l, k, low.1, high.1)
  }

  /** `and`: one ticket of layer 0 and two copies into it. */
  function And(c: seq<Gates>, bitSize: nat, a: Source, b: Source): (seq<Gates>, Source)
  {
    var c' := GetLayer(c, 0);
    var t := NewTicket(c', 0, bitSize);
    (AddPair(c', 0, bitSize, Copy(a, Relay(t, 0)), Copy(b, Relay(t, 1))), TakeZ(t))
  }

  /* ---------- circuit well-formedness ---------- */

  /** What a reader of layer `l` can read. */
  function BelowFrom(c: seq<Gates>, l: nat): Below {
    if l < |c| then Below(l, c[l].size) else Bottom
  }

  predicate LayerOk(c: seq<Gates>, l: nat)
    requires l < |c|
  {
    AllRunnable(c[l].ops, l, c[l].size, BelowFrom(c, l + 1)) && Disjoint(c[l].ops)
  }

  /** Every layer's operations pass all ticket checks and write disjoint bits. */
  predicate CircuitOk(c: seq<Gates>) { forall l :: 0 <= l < |c| ==> LayerOk(c, l) }

  predicate NonEmptyFrom(c: seq<Gates>, l: nat) { forall i :: l <= i < |c| ==> c[i].size > 0 }

  /** `d` was built on top of `c`: tickets and operations of `c` are still there. */
  predicate Grows(c: seq<Gates>, d: seq<Gates>) {
    && |c| <= |d|
    && (forall l :: 0 <= l < |c| ==> c[l].size <= d[l].size)
    && (forall l, op :: 0 <= l < |c| && op in c[l].ops ==> op in d[l].ops)
  }

  /** A source that a layer above `l` may use, `bits` bits wide. */
  predicate SourceFits(c: seq<Gates>, l: nat, src: Source, bits: nat) {
    SourceOk(src, BelowFrom(c, l)) && SourceLen(src) == bits
  }

  lemma SourceOkGrows(c: seq<Gates>, d: seq<Gates>, l: nat, src: Source)
    requires Grows(c, d) && SourceOk(src, BelowFrom(c, l))
    ensures SourceOk(src, BelowFrom(d, l))
  {
  }

  lemma GetLayerOk(c: seq<Gates>, l: nat)
    requires CircuitOk(c)
    ensures CircuitOk(GetLayer(c, l)) && Grows(c, GetLayer(c, l))
    ensures NonEmptyFrom(c, l + 1) ==> NonEmptyFrom(GetLayer(c, l), l + 1)
  {
    var d := GetLayer(c, l);
    assert forall i :: 0 <= i < |c| ==> d[i] == d[..|c|][i];
    forall i | 0 <= i < |d| ensures LayerOk(d, i) {
      if i < |c| {
        assert LayerOk(c, i);
        forall op | op in d[i].ops ensures Runnable(op, i, d[i].size, BelowFrom(d, i + 1)) {
          SourceOkGrows(c, d, i + 1, op.inp);
        }
      }
    }
  }

  lemma PairDisjoint(g: Gates, l: nat, below: Below, bitSize: nat, x: Operation, y: Operation)
    requires AllRunnable(g.ops, l, g.size, below) && Disjoint(g.ops)
    requires x.out == Relay(Ticket(l, 8 * g.size, 8 * g.size + bitSize), 0) && OutLen(x) == bitSize
    requires y.out == Relay(Ticket(l, 8 * g.size, 8 * g.size + bitSize), 1) && OutLen(y) == bitSize
    ensures Disjoint(g.ops + [x, y])
  {
    var ops := g.ops + [x, y];
    forall a, b | a in ops && b in ops && a != b ensures NoOverlap(a, b) {
      assert a in g.ops ==> Runnable(a, l, g.size, below);
      assert b in g.ops ==> Runnable(b, l, g.size, below);
    }
  }

  /** Queueing a pair of operations for a fresh ticket keeps the circuit well formed. */
  lemma AddPairOk(c: seq<Gates>, l: nat, bitSize: nat, x: Operation, y: Operation)
    requires CircuitOk(c) && l < |c|
    requires x.out == Relay(NewTicket(c, l, bitSize), 0) && OutLen(x) == bitSize
    requires y.out == Relay(NewTicket(c, l, bitSize), 1) && OutLen(y) == bitSize
    requires SourceOk(x.inp, BelowFrom(c, l + 1)) && SourceOk(y.inp, BelowFrom(c, l + 1))
    requires (x.BitExpand? ==> x.n > 0) && (y.BitExpand? ==> y.n > 0)
    ensures CircuitOk(AddPair(c, l, bitSize, x, y)) && Grows(c, AddPair(c, l, bitSize, x, y))
    ensures bitSize > 0 && NonEmptyFrom(c, l + 1) ==> NonEmptyFrom(AddPair(c, l, bitSize, x, y), l)
    ensures SourceFits(AddPair(c, l, bitSize, x, y), l, TakeZ(NewTicket(c, l, bitSize)), bitSize)
  {
    var d := AddPair(c, l, bitSize, x, y);
    assert Grows(c, d);
    forall i | 0 <= i < |d| ensures LayerOk(d, i) {
      assert LayerOk(c, i);
      forall op | op in d[i].ops ensures Runnable(op, i, d[i].size, BelowFrom(d, i + 1)) {
        SourceOkGrows(c, d, i + 1, op.inp);
      }
      if i == l { PairDisjoint(c[l], l, BelowFrom(c, l + 1), bitSize, x, y); }
    }
  }

  lemma GrowsTrans(a: seq<Gates>, b: seq<Gates>, c: seq<Gates>)
    requires Grows(a, b) && Grows(b, c)
    ensures Grows(a, c)
  {
  }

  lemma PowProduct(k: nat, s: nat)
    requires s <= k
    ensures Times(Pow2(k - s), Pow2(s)) == Pow2(k)
  {
    TimesIsProduct(Pow2(k - s), Pow2(s));
    Pow2Add(k - s, s);
  }

  lemma JoinOk(c: seq<Gates>, l: nat, k: nat, low: Source, high: Source)
    requires k >= 2 && CircuitOk(c)
    requires SourceFits(c, l + 1, low, Pow2(Split(k))) && SourceFits(c, l + 1, high, Pow2(k - Split(k)))
    ensures CircuitOk(Join(c, l, k, low, high).0) && Grows(c, Join(c, l, k, low, high).0)
    ensures NonEmptyFrom(c, l + 1) ==> NonEmptyFrom(Join(c, l, k, low, high).0, l)
    ensures SourceFits(Join(c, l, k, low, high).0, l, Join(c, l, k, low, high).1, Pow2(k))
  {
    GetLayerOk(c, l);
    var c' := GetLayer(c, l);
    SourceOkGrows(c, c', l + 1, low);
    SourceOkGrows(c, c', l + 1, high);
    PowProduct(k, Split(k));
    var t := NewTicket(c', l, Pow2(k));
    AddPairOk(c', l, Pow2(k), JoinX(k, low, t), JoinY(k, high, t));
    GrowsTrans(c, c', Join(c, l, k, low, high).0);
  }

  /** What a call of the builder at layer `l` guarantees. */
  predicate Built(c: seq<Gates>, l: nat, k: nat, r: (seq<Gates>, Source)) {
    && CircuitOk(r.0) && Grows(c, r.0) && SourceFits(r.0, l, r.1, Pow2(k))
    && (NonEmptyFrom(c, l) ==> NonEmptyFrom(r.0, l))
  }

  lemma JoinBuilt(c: seq<Gates>, l: nat, k: nat, low: (seq<Gates>, Source),
                  high: (seq<Gates>, Source))
    requires k >= 2 && Built(c, l + 1, Split(k), low) && Built(low.0, l + 1, k - Split(k), high)
    ensures SourceFits(high.0, l + 1, low.1, Pow2(Split(k)))
    ensures Built(c, l, k, Join(high.0, l, k, low.1, high.1))
  {
    SourceOkGrows(low.0, high.0, l + 1, low.1);
    JoinOk(high.0, l, k, low.1, high.1);
    GrowsTrans(c, low.0, high.0);
    GrowsTrans(c, high.0, Join(high.0, l, k, low.1, high.1).0);
  }

  /* ---------- the shape depends on bit lengths only ---------- */

  /** The tickets of a one-hot tree. */
  datatype Tree = Leaf | Node(t: Ticket, low: Tree, high: Tree)

  function Sizes(c: seq<Gates>): (r: seq<nat>)
    ensures |r| == |c| && forall i :: 0 <= i < |c| ==> r[i] == c[i].size
  {
    seq(|c|, i requires 0 <= i < |c| => c[i].size)
  }

  function Widen(z: seq<nat>, l: nat): (r: seq<nat>)
    ensures l < |r|
  {
    if l < |z| then z else z + seq(l + 1 - |z|, i => 0)
  }

  function JoinPlan(z: seq<nat>, l: nat, k: nat, low: Tree, high: Tree): (seq<nat>, Tree) {
    var z' := Widen(z, l);
    (z'[l := z'[l] + CeilDiv8(Pow2(k))], Node(Ticket(l, 8 * z'[l], 8 * z'[l] + Pow2(k)), low, high))
  }

  /** Where `recursive_ohe_vec` puts its tickets: a function of layer sizes and bit length. */
  function Plan(z: seq<nat>, l: nat, k: nat): (seq<nat>, Tree)
    requires k >= 1
    decreases k
  {
    if k == 1 then (z, Leaf)
    else
      var low := Plan(z, l + 1, Split(k));
      var high := Plan(low.0, l + 1, k - Split(k));
      JoinPlan(high.0, l, k, low.1, high.1)
  }

  function RootOf(tree: Tree, idx: nat, isConst: bool): Source {
    match tree
    case Leaf => Input(LeafVec(idx, isConst))
    case Node(t, _, _) => TakeZ(t)
  }

  /** `c` holds the gates of the one-hot tree of a `k`-bit share `idx` at layer `l`. */
  predicate Holds(c: seq<Gates>, l: nat, tree: Tree, k: nat, idx: nat, isConst: bool)
    decreases tree
  {
    match tree
    case Leaf => k == 1
    case Node(t, low, high) =>
      var s := Split(k);
      && k >= 2 && l < |c|
      && TicketFits(t, l, c[l].size) && t.endBit - t.stBit == Pow2(k)
      && JoinX(k, RootOf(low, Mask(idx, s), isConst), t) in c[l].ops
      && JoinY(k, RootOf(high, Shr(idx, s), isConst), t) in c[l].ops
      && Holds(c, l + 1, low, s, Mask(idx, s), isConst)
      && Holds(c, l + 1, high, k - s, Shr(idx, s), isConst)
  }

  lemma {:induction false} HoldsGrows(c: seq<Gates>, d: seq<Gates>, l: nat, tree: Tree, k: nat, idx: nat, isConst: bool)
    requires Grows(c, d) && Holds(c, l, tree, k, idx, isConst)
    ensures Holds(d, l, tree, k, idx, isConst)
    decreases tree
  {
    match tree
    case Leaf =>
    case Node(t, low, high) =>
      var s := Split(k);
      HoldsGrows(c, d, l + 1, low, s, Mask(idx, s), isConst);
      HoldsGrows(c, d, l + 1, high, k - s, Shr(idx, s), isConst);
  }

  lemma {:induction false} HoldsSource(c: seq<Gates>, l: nat, tree: Tree, k: nat, idx: nat, isConst: bool)
    requires Holds(c, l, tree, k, idx, isConst)
    ensures SourceFits(c, l, RootOf(tree, idx, isConst), Pow2(k))
  {
    assert Pow2(1) == 2;
  }

  lemma GetLayerSizes(c: seq<Gates>, l: nat)
    ensures Sizes(GetLayer(c, l)) == Widen(Sizes(c), l)
  {
    var d := GetLayer(c, l);
    assert forall i :: 0 <= i < |c| ==> d[i] == d[..|c|][i];
  }

  /** The built circuit has the planned sizes and its source is the root of the planned tree. */
  predicate AsPlanned(r: (seq<Gates>, Source), p: (seq<nat>, Tree), idx: nat, isConst: bool) {
    Sizes(r.0) == p.0 && r.1 == RootOf(p.1, idx, isConst)
  }

  lemma JoinPlanned(c: seq<Gates>, l: nat, k: nat, low: Source, high: Source,
                    z: seq<nat>, lowTree: Tree, highTree: Tree, idx: nat, isConst: bool)
    requires k >= 2 && Sizes(c) == z
    ensures AsPlanned(Join(c, l, k, low, high), JoinPlan(z, l, k, lowTree, highTree), idx, isConst)
  {
    GetLayerSizes(c, l);
  }

  lemma AddPairAdds(c: seq<Gates>, l: nat, bitSize: nat, x: Operation, y: Operation)
    requires l < |c|
    ensures x in AddPair(c, l, bitSize, x, y)[l].ops && y in AddPair(c, l, bitSize, x, y)[l].ops
  {
    var ops := AddPair(c, l, bitSize, x, y)[l].ops;
    assert ops[|c[l].ops|] == x && ops[|c[l].ops| + 1] == y;
  }

  lemma NewTicketFits(c: seq<Gates>, l: nat, bitSize: nat, x: Operation, y: Operation)
    requires l < |c|
    ensures TicketFits(NewTicket(c, l, bitSize), l, AddPair(c, l, bitSize, x, y)[l].size)
  {
    CeilDiv8Shift(c[l].size, bitSize);
  }

  lemma {:induction false} JoinAdds(c: seq<Gates>, l: nat, k: nat, low: Source, high: Source)
    requires k >= 2
    ensures l < |Join(c, l, k, low, high).0|
    ensures var g := Join(c, l, k, low, high).0[l];
            var t := NewTicket(GetLayer(c, l), l, Pow2(k));
            JoinX(k, low, t) in g.ops && JoinY(k, high, t) in g.ops && TicketFits(t, l, g.size)
  {
    var t := NewTicket(GetLayer(c, l), l, Pow2(k));
    AddPairAdds(GetLayer(c, l), l, Pow2(k), JoinX(k, low, t), JoinY(k, high, t));
    NewTicketFits(GetLayer(c, l), l, Pow2(k), JoinX(k, low, t), JoinY(k, high, t));
  }

  lemma {:induction false} JoinHolds(c1: seq<Gates>, c2: seq<Gates>, l: nat, k: nat, idx: nat, isConst: bool,
                                     low: Tree, high: Tree)
    requires k >= 2 && Grows(c1, c2)
    requires Holds(c1, l + 1, low, Split(k), Mask(idx, Split(k)), isConst)
    requires Holds(c2, l + 1, high, k - Split(k), Shr(idx, Split(k)), isConst)
    requires Grows(c2, Join(c2, l, k, RootOf(low, Mask(idx, Split(k)), isConst),
                                      RootOf(high, Shr(idx, Split(k)), isConst)).0)
    ensures Holds(Join(c2, l, k, RootOf(low, Mask(idx, Split(k)), isConst),
                       RootOf(high, Shr(idx, Split(k)), isConst)).0,
                  l, Node(NewTicket(GetLayer(c2, l), l, Pow2(k)), low, high), k, idx, isConst)
  {
    var x, y := RootOf(low, Mask(idx, Split(k)), isConst), RootOf(high, Shr(idx, Split(k)), isConst);
    var d := Join(c2, l, k, x, y).0;
    GrowsTrans(c1, c2, d);
    HoldsGrows(c1, d, l + 1, low, Split(k), Mask(idx, Split(k)), isConst);
    HoldsGrows(c2, d, l + 1, high, k - Split(k), Shr(idx, Split(k)), isConst);
    JoinAdds(c2, l, k, x, y);
  }

  /** Everything a call of the builder leaves behind. */
  predicate Faithful(c: seq<Gates>, l: nat, k: nat, idx: nat, isConst: bool,
                     r: (seq<Gates>, Source), p: (seq<nat>, Tree))
  {
    Built(c, l, k, r) && AsPlanned(r, p, idx, isConst) && Holds(r.0, l, p.1, k, idx, isConst)
  }

  lemma {:induction false} JoinFaithful(c: seq<Gates>, l: nat, k: nat, idx: nat, isConst: bool,
                                        low: (seq<Gates>, Source), high: (seq<Gates>, Source),
                                        lowPlan: (seq<nat>, Tree), highPlan: (seq<nat>, Tree))
    requires k >= 2
    requires Faithful(c, l + 1, Split(k), Mask(idx, Split(k)), isConst, low, lowPlan)
    requires Faithful(low.0, l + 1, k - Split(k), Shr(idx, Split(k)), isConst, high, highPlan)
    ensures Faithful(c, l, k, idx, isConst, Join(high.0, l, k, low.1, high.1),
                     JoinPlan(highPlan.0, l, k, lowPlan.1, highPlan.1))
  {
    JoinBuilt(c, l, k, low, high);
    JoinPlanned(high.0, l, k, low.1, high.1, highPlan.0, lowPlan.1, highPlan.1, idx, isConst);
    JoinGrows(high.0, l, k, low.1, high.1);
    JoinHolds(low.0, high.0, l, k, idx, isConst, lowPlan.1, highPlan.1);
    GetLayerSizes(high.0, l);
  }

  lemma LeafFaithful(c: seq<Gates>, l: nat, idx: nat, isConst: bool)
    requires CircuitOk(c)
    ensures Faithful(c, l, 1, idx, isConst, (c, Input(LeafVec(idx, isConst))), (Sizes(c), Leaf))
  {
    assert Pow2(1) == 2;
  }

  lemma {:induction false} JoinGrows(c: seq<Gates>, l: nat, k: nat, low: Source, high: Source)
    requires k >= 2 && CircuitOk(c)
    requires SourceFits(c, l + 1, low, Pow2(Split(k))) && SourceFits(c, l + 1, high, Pow2(k - Split(k)))
    ensures Grows(c, Join(c, l, k, low, high).0)
  {
    JoinOk(c, l, k, low, high);
  }

  lemma FaithfulBase(c: seq<Gates>, l: nat, k: nat, idx: nat, isConst: bool,
                     r: (seq<Gates>, Source), p: (seq<nat>, Tree))
    requires Faithful(c, l, k, idx, isConst, r, p)
    ensures CircuitOk(r.0) && Sizes(r.0) == p.0
  {
  }

  lemma {:induction false} LowFaithful(c: seq<Gates>, z: seq<nat>, l: nat, k: nat, idx: nat, isConst: bool)
    requires k >= 2 && CircuitOk(c) && Sizes(c) == z
    ensures Faithful(c, l + 1, Split(k), Mask(idx, Split(k)), isConst,
                     Ohe(c, l + 1, Split(k), Mask(idx, Split(k)), isConst), Plan(z, l + 1, Split(k)))
    decreases k, 0
  {
    OheFaithful(c, z, l + 1, Split(k), Mask(idx, Split(k)), isConst);
  }

  lemma {:induction false} HighFaithful(c: seq<Gates>, z: seq<nat>, l: nat, k: nat, idx: nat, isConst: bool)
    requires k >= 2 && CircuitOk(c) && Sizes(c) == z
    ensures Faithful(c, l + 1, k - Split(k), Shr(idx, Split(k)), isConst,
                     Ohe(c, l + 1, k - Split(k), Shr(idx, Split(k)), isConst), Plan(z, l + 1, k - Split(k)))
    decreases k, 0
  {
    OheFaithful(c, z, l + 1, k - Split(k), Shr(idx, Split(k)), isConst);
  }

  /** After any `ohe_vec` the circuit is well formed, nothing built before is lost, no layer from
      the tree's top layer down is empty, tickets and sizes are those of the plan, which knows bit
      lengths only, and the gates of the whole tree are queued. */
  lemma {:induction false} OheFaithful(c: seq<Gates>, z: seq<nat>, l: nat, k: nat, idx: nat, isConst: bool)
    requires k >= 1 && CircuitOk(c) && Sizes(c) == z
    ensures Faithful(c, l, k, idx, isConst, Ohe(c, l, k, idx, isConst), Plan(z, l, k))
    decreases k, 1
  {
    if k == 1 {
      LeafFaithful(c, l, idx, isConst);
    } else {
      var low := Ohe(c, l + 1, Split(k), Mask(idx, Split(k)), isConst);
      var lowPlan := Plan(z, l + 1, Split(k));
      LowFaithful(c, z, l, k, idx, isConst);
      FaithfulBase(c, l + 1, Split(k), Mask(idx, Split(k)), isConst, low, lowPlan);
      HighFaithful(low.0, lowPlan.0, l, k, idx, isConst);
      JoinFaithful(c, l, k, idx, isConst, low, Ohe(low.0, l + 1, k - Split(k), Shr(idx, Split(k)), isConst),
                   lowPlan, Plan(lowPlan.0, l + 1, k - Split(k)));
    }
  }
}
