/** The last two rounds of a query in lockstep: conversion to arithmetic shares, and the commitment. */
module Certifying {
  import opened Bits
  import opened Folds
  import opened Scalars
  import opened Conversion
  import opened DaBits
  import opened Sharing
  import opened Commitments
  import opened Party
  import opened Lockstep
  import opened Answering

  function DaStorages(bases: seq<Server>): (r: seq<seq<DaBit>>)
    ensures |r| == |bases| && forall p :: 0 <= p < |r| ==> r[p] == bases[p].dabits
  {
    seq(|bases|, p requires 0 <= p < |bases| => bases[p].dabits)
  }

  /** What the conversion round needs: all servers have used `v` of their `d` daBits, and hold
      queries of `k1` and `k2` bits. */
  predicate ConvertReady(bases: seq<Server>, M: Modulus, k1: nat, k2: nat, v: nat, vEnd: nat, d: nat) {
    && |bases| >= 2 && vEnd == v + k1 + k2 + 1 && vEnd <= d && k1 < 32 && k1 + k2 <= 32
    && AllConvertible(bases, vEnd) && DaBitsFit(DaStorages(bases), d) && GoodDaBits(M, DaStorages(bases), d)
    && forall p :: 0 <= p < |bases| ==> ConvertBase(bases[p], M, k1, k2, v, p == 0)
  }

  predicate ConvertBase(s: Server, M: Modulus, k1: nat, k2: nat, v: nat, isConst: bool) {
    && s.setup.M == M && s.isConst == isConst && s.usedD == v && |s.queries| > 0
    && s.queries[0].l1.bitLen == k1 && s.queries[0].l2.bitLen == k2
  }

  /** What every server converts. */
  function Inputs(bases: seq<Server>, vEnd: nat, records: Bits): (r: seq<seq<BooleanValue>>)
    requires |records| == |bases| && AllConvertible(bases, vEnd)
    ensures |r| == |bases|
    ensures forall p :: 0 <= p < |r| ==>
      Convertible(bases[p], vEnd) && r[p] == ToConvert(bases[p].queries[0], records[p])
  {
    assert forall p :: 0 <= p < |bases| ==> Convertible(bases[p], vEnd);
    seq(|bases|, p requires 0 <= p < |bases| => ToConvert(bases[p].queries[0], records[p]))
  }

  /** The lengths of the two values. */
  function Shape(k1: nat, k2: nat): (r: seq<BooleanValue>)
    ensures |r| == 2 && r[0].bitLen == k1 + k2 && r[1].bitLen == 1 && TotalBits(r) == k1 + k2 + 1
  {
    var r := [BooleanValue(k1 + k2, 0), BooleanValue(1, 0)];
    TwoValues(r);
    r
  }

  lemma InputsFit(bases: seq<Server>, M: Modulus, k1: nat, k2: nat, v: nat, vEnd: nat, d: nat,
                  records: Bits)
    requires ConvertReady(bases, M, k1, k2, v, vEnd, d) && |records| == |bases|
    ensures ConvFits(Inputs(bases, vEnd, records), SlicesOf(DaStorages(bases), d, v, vEnd), Shape(k1, k2))
  {
    var ins := Inputs(bases, vEnd, records);
    forall p | 0 <= p < |bases| ensures SameLens(ins[p], Shape(k1, k2)) {
      assert ConvertBase(bases[p], M, k1, k2, v, p == 0);
    }
  }

  /** Everyone opens the same bits. */
  lemma EveryoneOpens(rows: seq<Bits>, w: nat, p: nat)
    requires p < |rows| && Rect(rows, w)
    ensures AllLong(FromPeers(rows, p), |rows[p]|)
    ensures XorIn(rows[p], FromPeers(rows, p)) == RecBits(rows, w)
  {
    forall j | 0 <= j < w
      ensures AllLong(FromPeers(rows, p), |rows[p]|) && XorIn(rows[p], FromPeers(rows, p))[j] == RecBits(rows, w)[j]
    {
      XorInOpens(rows, p, w, j);
    }
    PeersLong(rows, w, p);
  }

  lemma PeersLong(rows: seq<Bits>, w: nat, p: nat)
    requires p < |rows| && Rect(rows, w)
    ensures AllLong(FromPeers(rows, p), w)
  {
  }

  /** The messages are everyone's blinded bits. */
  predicate WrappedBits(emits: seq<Payload>, rows: seq<Bits>) {
    |emits| == |rows| && forall p :: 0 <= p < |rows| ==> emits[p] == Masked(rows[p])
  }

  lemma WrappedBitsPeers(emits: seq<Payload>, rows: seq<Bits>, p: nat, w: nat)
    requires WrappedBits(emits, rows) && p < |rows| && Rect(rows, w)
    ensures MaskedsOf(FromPeers(emits, p)) == FromPeers(rows, p)
    ensures AllMasked(FromPeers(emits, p), w)
  {
    forall m | m in FromPeers(emits, p) ensures m.Masked? && |m.e| == w {
      var i :| 0 <= i < |emits| && emits[i] == m;
    }
  }

  /** What server `p` commits to. */
  function OpeningOf(M: Modulus, isConst: bool, q: Query, bvs: seq<BooleanValue>, e: Bits, ds: seq<DaBit>): Opening
    requires |e| == |ds| == TotalBits(bvs) && |bvs| == 2
  {
    var arith := ArithShares(M, isConst, bvs, e, ds);
    Opening(q.rnd, arith[0], arith[1])
  }

  lemma {:induction false} ConvertEmit(prog: Code, s: Server, bvs: seq<BooleanValue>, ds: seq<DaBit>)
    requires prog == ServerProgram() && s.job == Convert(bvs, ds) && |ds| == TotalBits(bvs)
    ensures prog.emit(s) == Masked(BlindBits(bvs, ds))
  {
    EmitBy(prog, s, Masked(BlindBits(bvs, ds)));
  }

  lemma {:induction false} ConvertAbsorb(prog: Code, s: Server, bvs: seq<BooleanValue>, ds: seq<DaBit>,
                                         inbox: seq<Payload>,
                                         others: seq<Bits>, e: Bits, w: nat)
    requires prog == ServerProgram() && s.job == Convert(bvs, ds) && |bvs| == 2 && w == |ds| == TotalBits(bvs)
    requires |s.queries| > 0
    requires |inbox| > 0 && AllMasked(inbox, w) && MaskedsOf(inbox) == others
    requires AllLong(others, w) && e == XorIn(BlindBits(bvs, ds), others)
    ensures prog.absorb(s, inbox)
         == s.(job := Certify(Commit(s.setup.M, s.setup.gens,
                                     OpeningOf(s.setup.M, s.isConst, s.queries[0], bvs, e, ds))))
  {
    AbsorbBy(prog, s, inbox, s.(job := Certify(Commit(s.setup.M, s.setup.gens,
                                                      OpeningOf(s.setup.M, s.isConst, s.queries[0], bvs, e, ds)))));
  }

  /** Server `s` about to exchange its commitment. */
  function CertifyState(s: Server, used: nat, vEnd: nat, op: Opening): Server {
    s.(usedB := used, usedD := vEnd, job := Certify(Commit(s.setup.M, s.setup.gens, op)))
  }

  function CertifyStates(bases: seq<Server>, used: nat, vEnd: nat, ops: seq<Opening>): (r: seq<Server>)
    requires |ops| == |bases|
    ensures |r| == |bases| && forall p :: 0 <= p < |r| ==> r[p] == CertifyState(bases[p], used, vEnd, ops[p])
  {
    seq(|bases|, p requires 0 <= p < |bases| => CertifyState(bases[p], used, vEnd, ops[p]))
  }

  /** The openings of all servers, when everyone opened `e`. */
  function Openings(bases: seq<Server>, M: Modulus, ins: seq<seq<BooleanValue>>, e: Bits, ds: seq<seq<DaBit>>,
                    shape: seq<BooleanValue>): (r: seq<Opening>)
    requires |bases| == |ins| && |shape| == 2 && ConvFits(ins, ds, shape) && |e| == TotalBits(shape)
    requires forall p :: 0 <= p < |bases| ==> |bases[p].queries| > 0
    ensures |r| == |bases|
    ensures forall p :: 0 <= p < |r| ==>
      && |ds[p]| == TotalBits(ins[p]) == |e| && |ins[p]| == 2
      && r[p] == OpeningOf(M, p == 0, bases[p].queries[0], ins[p], e, ds[p])
  {
    assert forall p :: 0 <= p < |ins| ==> |ds[p]| == TotalBits(ins[p]) == |e| && |ins[p]| == 2 by {
      forall p | 0 <= p < |ins|
        ensures |ds[p]| == TotalBits(ins[p]) == |e| && |ins[p]| == 2
      {
        SameLensTotal(ins[p], shape);
      }
    }
    seq(|bases|, p requires 0 <= p < |bases| => OpeningOf(M, p == 0, bases[p].queries[0], ins[p], e, ds[p]))
  }

  /** Everything the conversion round works with. */
  datatype Exchange = Exchange(M: Modulus, ins: seq<seq<BooleanValue>>, ds: seq<seq<DaBit>>, shape: seq<BooleanValue>,
                               e: Bits) {
    predicate Valid() {
      |shape| == 2 && ConvFits(ins, ds, shape) && e == RecBits(BlindRows(ins, ds, shape), TotalBits(shape))
    }
  }

  function ExchangeOf(bases: seq<Server>, M: Modulus, k1: nat, k2: nat, v: nat, vEnd: nat, d: nat,
                      records: Bits): (x: Exchange)
    requires ConvertReady(bases, M, k1, k2, v, vEnd, d) && |records| == |bases|
    ensures x.Valid() && |x.ins| == |x.ds| == |bases| && x.M == M
    ensures x.ins == Inputs(bases, vEnd, records) && x.ds == SlicesOf(DaStorages(bases), d, v, vEnd)
    ensures x.shape == Shape(k1, k2)
  {
    InputsFit(bases, M, k1, k2, v, vEnd, d, records);
    var ins, ds, shape := Inputs(bases, vEnd, records), SlicesOf(DaStorages(bases), d, v, vEnd), Shape(k1, k2);
    Exchange(M, ins, ds, shape, RecBits(BlindRows(ins, ds, shape), TotalBits(shape)))
  }

  /** Server `s` holds party `p`'s part of the exchange. */
  predicate HoldsPart(s: Server, x: Exchange, p: nat) {
    && p < |x.ins| && p < |x.ds| && s.job == Convert(x.ins[p], x.ds[p]) && s.setup.M == x.M && s.isConst == (p == 0)
    && |s.queries| > 0
  }

  predicate HoldParts(states: seq<Server>, x: Exchange) {
    |states| == |x.ins| && forall p :: 0 <= p < |states| ==> HoldsPart(states[p], x, p)
  }

  lemma PartsEmit(prog: Code, states: seq<Server>, x: Exchange)
    requires prog == ServerProgram() && x.Valid() && HoldParts(states, x)
    ensures WrappedBits(OutsOf(prog, states), BlindRows(x.ins, x.ds, x.shape))
  {
    var rows := BlindRows(x.ins, x.ds, x.shape);
    forall p | 0 <= p < |states| ensures OutsOf(prog, states)[p] == Masked(rows[p]) {
      assert HoldsPart(states[p], x, p);
      ConvertEmit(prog, states[p], x.ins[p], x.ds[p]);
    }
  }

  lemma PartAbsorbs(prog: Code, s: Server, x: Exchange, p: nat, rows: seq<Bits>, w: nat,
                    emits: seq<Payload>)
    requires prog == ServerProgram() && x.Valid() && HoldsPart(s, x, p) && |x.ins| >= 2
    requires rows == BlindRows(x.ins, x.ds, x.shape) && w == TotalBits(x.shape) && WrappedBits(emits, rows)
    ensures |x.e| == |x.ds[p]| == TotalBits(x.ins[p]) && |x.ins[p]| == 2
    ensures prog.absorb(s, FromPeers(emits, p))
         == s.(job := Certify(Commit(x.M, s.setup.gens, OpeningOf(x.M, p == 0, s.queries[0], x.ins[p], x.e, x.ds[p]))))
  {
    WrappedBitsPeers(emits, rows, p, w);
    EveryoneOpens(rows, w, p);
    ConvertAbsorb(prog, s, x.ins[p], x.ds[p], FromPeers(emits, p), FromPeers(rows, p), x.e, w);
  }

  lemma StatesHoldParts(bases: seq<Server>, M: Modulus, k1: nat, k2: nat, v: nat, vEnd: nat, d: nat,
                        records: Bits, used: nat)
    requires ConvertReady(bases, M, k1, k2, v, vEnd, d) && |records| == |bases|
    ensures HoldParts(ConvertStates(bases, used, vEnd, records), ExchangeOf(bases, M, k1, k2, v, vEnd, d, records))
  {
    var states, x := ConvertStates(bases, used, vEnd, records), ExchangeOf(bases, M, k1, k2, v, vEnd, d, records);
    forall p | 0 <= p < |bases| ensures HoldsPart(states[p], x, p) {
      assert ConvertBase(bases[p], M, k1, k2, v, p == 0);
      assert DaStorages(bases)[p] == bases[p].dabits;
    }
  }

  lemma QueriesThere(bases: seq<Server>, M: Modulus, k1: nat, k2: nat, v: nat, vEnd: nat, d: nat)
    requires ConvertReady(bases, M, k1, k2, v, vEnd, d)
    ensures forall p :: 0 <= p < |bases| ==> |bases[p].queries| > 0 && bases[p].setup.M == M
  {
    assert forall p :: 0 <= p < |bases| ==> ConvertBase(bases[p], M, k1, k2, v, p == 0);
  }

  function OpeningsOf(bases: seq<Server>, M: Modulus, k1: nat, k2: nat, v: nat, vEnd: nat, d: nat,
                      records: Bits): (r: seq<Opening>)
    requires ConvertReady(bases, M, k1, k2, v, vEnd, d) && |records| == |bases|
    ensures |r| == |bases|
  {
    QueriesThere(bases, M, k1, k2, v, vEnd, d);
    var x := ExchangeOf(bases, M, k1, k2, v, vEnd, d, records);
    Openings(bases, M, x.ins, x.e, x.ds, x.shape)
  }

  lemma CertifyStateIs(s: Server, used: nat, vEnd: nat, record: bool, M: Modulus, op: Opening)
    requires Convertible(s, vEnd) && s.setup.M == M
    ensures ConvertState(s, used, vEnd, record).(job := Certify(Commit(M, s.setup.gens, op)))
         == CertifyState(s, used, vEnd, op)
  {
  }

  lemma ConvertAt(prog: Code, bases: seq<Server>, M: Modulus, k1: nat, k2: nat, v: nat, vEnd: nat,
                  d: nat, records: Bits, used: nat,
                  states: seq<Server>, x: Exchange, ops: seq<Opening>, p: nat)
    requires prog == ServerProgram() && ConvertReady(bases, M, k1, k2, v, vEnd, d) && |records| == |bases|
    requires p < |bases|
    requires states == ConvertStates(bases, used, vEnd, records)
    requires x == ExchangeOf(bases, M, k1, k2, v, vEnd, d, records)
    requires ops == OpeningsOf(bases, M, k1, k2, v, vEnd, d, records) && HoldParts(states, x)
    ensures prog.absorb(states[p], FromPeers(OutsOf(prog, states), p)) == CertifyState(bases[p], used, vEnd, ops[p])
  {
    PartsEmit(prog, states, x);
    assert HoldsPart(states[p], x, p);
    PartAbsorbs(prog, states[p], x, p, BlindRows(x.ins, x.ds, x.shape), TotalBits(x.shape), OutsOf(prog, states));
    CertifyStateIs(bases[p], used, vEnd, records[p], M, ops[p]);
  }

  /** The blinded bits are exchanged: every server goes on with a commitment to its arithmetic shares. */
  lemma ConvertLeads(prog: Code, bases: seq<Server>, M: Modulus, k1: nat, k2: nat, v: nat,
                     vEnd: nat, d: nat, records: Bits, used: nat)
    requires prog == ServerProgram() && ConvertReady(bases, M, k1, k2, v, vEnd, d) && |records| == |bases|
    ensures Leads(prog, ConvertStates(bases, used, vEnd, records),
                  CertifyStates(bases, used, vEnd, OpeningsOf(bases, M, k1, k2, v, vEnd, d, records)))
  {
    var states, x := ConvertStates(bases, used, vEnd, records), ExchangeOf(bases, M, k1, k2, v, vEnd, d, records);
    var ops := OpeningsOf(bases, M, k1, k2, v, vEnd, d, records);
    StatesHoldParts(bases, M, k1, k2, v, vEnd, d, records, used);
    var next := CertifyStates(bases, used, vEnd, ops);
    forall p | 0 <= p < |bases| ensures prog.absorb(states[p], FromPeers(OutsOf(prog, states), p)) == next[p] {
      ConvertAt(prog, bases, M, k1, k2, v, vEnd, d, records, used, states, x, ops, p);
    }
  }

  /* ---------- what the openings add up to ---------- */

  function AsNats(bits: Bits): (r: seq<nat>)
    ensures |r| == |bits| && forall p :: 0 <= p < |r| ==> r[p] == if bits[p] then 1 else 0
  {
    seq(|bits|, p requires 0 <= p < |bits| => if bits[p] then 1 else 0)
  }

  lemma {:induction false} XorOfBits(bits: Bits)
    ensures XorAll(AsNats(bits)) == ToInt(Parity(bits))
  {
    assert Pow2(1) == 2;
    XorAllBelow(AsNats(bits), 1);
    BitOfXorAll(AsNats(bits), 0);
    assert BitCol(AsNats(bits), 0) == bits by {
      forall p | 0 <= p < |bits| ensures BitAt(AsNats(bits)[p], 0) == bits[p] {}
    }
    assert BitAt(XorAll(AsNats(bits)), 0) == (XorAll(AsNats(bits)) == 1);
  }

  function IndexShares(bases: seq<Server>, vEnd: nat): (r: seq<nat>)
    requires AllConvertible(bases, vEnd)
    ensures |r| == |bases|
    ensures forall p :: 0 <= p < |r| ==>
      Convertible(bases[p], vEnd) && r[p] == JoinBoolean(bases[p].queries[0].l1, bases[p].queries[0].l2).value
  {
    assert forall p :: 0 <= p < |bases| ==> Convertible(bases[p], vEnd);
    seq(|bases|, p requires 0 <= p < |bases| => JoinBoolean(bases[p].queries[0].l1, bases[p].queries[0].l2).value)
  }

  function RndShares(bases: seq<Server>, vEnd: nat): (r: seq<int>)
    requires AllConvertible(bases, vEnd)
    ensures |r| == |bases| && forall p :: 0 <= p < |r| ==> |bases[p].queries| > 0 && r[p] == bases[p].queries[0].rnd
  {
    assert forall p :: 0 <= p < |bases| ==> Convertible(bases[p], vEnd);
    seq(|bases|, p requires 0 <= p < |bases| => bases[p].queries[0].rnd)
  }

  lemma InputValues(bases: seq<Server>, vEnd: nat, records: Bits, ins: seq<seq<BooleanValue>>)
    requires |records| == |bases| && AllConvertible(bases, vEnd) && ins == Inputs(bases, vEnd, records)
    ensures forall p :: 0 <= p < |ins| ==> |ins[p]| == 2
    ensures ValuesAt(ins, 0) == IndexShares(bases, vEnd) && ValuesAt(ins, 1) == AsNats(records)
  {
  }

  /** The servers hold shares of the index `idx`, of `len` bits, and of the randomness `rnd`. */
  predicate SharesQuery(bases: seq<Server>, M: Modulus, len: nat, vEnd: nat, idx: nat, rnd: int)
    requires AllConvertible(bases, vEnd)
  {
    XorAll(IndexShares(bases, vEnd)) == idx && idx < Pow2(len) && Same(M, Sum(RndShares(bases, vEnd)), rnd)
  }

  lemma OpeningParts(bases: seq<Server>, M: Modulus, k1: nat, k2: nat, v: nat, vEnd: nat, d: nat,
                     records: Bits,
                     x: Exchange, ops: seq<Opening>)
    requires ConvertReady(bases, M, k1, k2, v, vEnd, d) && |records| == |bases|
    requires x == ExchangeOf(bases, M, k1, k2, v, vEnd, d, records)
    requires ops == OpeningsOf(bases, M, k1, k2, v, vEnd, d, records)
    ensures Rnds(ops) == RndShares(bases, vEnd)
    ensures Idxs(ops) == Outputs(M, x.ins, x.e, x.ds, x.shape, 0)
    ensures Resps(ops) == Outputs(M, x.ins, x.e, x.ds, x.shape, 1)
  {
  }

  lemma SliceStaysGood(M: Modulus, ds: seq<seq<DaBit>>, d: nat, v: nat, vEnd: nat, w: nat)
    requires v <= vEnd <= d && w == vEnd - v && DaBitsFit(ds, d) && GoodDaBits(M, ds, d)
    ensures DaBitsFit(SlicesOf(ds, d, v, vEnd), w) && GoodDaBits(M, SlicesOf(ds, d, v, vEnd), w)
  {
    SliceGood(M, ds, d, v, vEnd);
  }

  /** The servers' values at position `i` XOR to `val`. */
  predicate Converts(x: Exchange, i: nat, val: nat)
    requires x.Valid()
  {
    && i < 2 && (forall p :: 0 <= p < |x.ins| ==> i < |x.ins[p]|)
    && XorAll(ValuesAt(x.ins, i)) == val && val < Pow2(x.shape[i].bitLen)
  }

  predicate GoodExchange(x: Exchange) { x.Valid() && GoodDaBits(x.M, x.ds, TotalBits(x.shape)) }

  lemma OpensTo(x: Exchange, i: nat, val: nat)
    requires GoodExchange(x) && Converts(x, i, val)
    ensures Same(x.M, Sum(Outputs(x.M, x.ins, x.e, x.ds, x.shape, i)), val)
  {
    ConversionCorrect(x.M, x.ins, x.e, x.ds, x.shape, i);
  }

  lemma ExchangeGood(bases: seq<Server>, M: Modulus, k1: nat, k2: nat, v: nat, vEnd: nat, d: nat,
                     records: Bits, x: Exchange)
    requires ConvertReady(bases, M, k1, k2, v, vEnd, d) && |records| == |bases|
    requires x == ExchangeOf(bases, M, k1, k2, v, vEnd, d, records)
    ensures GoodExchange(x)
  {
    SliceStaysGood(M, DaStorages(bases), d, v, vEnd, TotalBits(x.shape));
  }

  lemma {:induction false} ExchangeConverts(bases: seq<Server>, M: Modulus, k1: nat, k2: nat, v: nat, vEnd: nat,
                                            d: nat, records: Bits, x: Exchange,
                                            idx: nat, len: nat)
    requires ConvertReady(bases, M, k1, k2, v, vEnd, d) && |records| == |bases|
    requires x == ExchangeOf(bases, M, k1, k2, v, vEnd, d, records)
    requires XorAll(IndexShares(bases, vEnd)) == idx && len == k1 + k2 && idx < Pow2(len)
    ensures Converts(x, 0, idx) && Converts(x, 1, ToInt(Parity(records)))
  {
    InputValues(bases, vEnd, records, x.ins);
    XorOfBits(records);
    assert x.shape[0].bitLen == len && x.shape[1].bitLen == 1 && Pow2(1) == 2;
  }

  lemma {:induction false} SumsTo(x: Exchange, ops: seq<Opening>, rs: seq<int>, rnd: int, idx: nat, bit: nat)
    requires GoodExchange(x) && Converts(x, 0, idx) && Converts(x, 1, bit) && Same(x.M, Sum(rs), rnd)
    requires Rnds(ops) == rs && Idxs(ops) == Outputs(x.M, x.ins, x.e, x.ds, x.shape, 0)
    requires Resps(ops) == Outputs(x.M, x.ins, x.e, x.ds, x.shape, 1)
    ensures SameOpening(x.M, SumOpening(ops), Opening(rnd, idx, bit))
  {
    OpensTo(x, 0, idx);
    OpensTo(x, 1, bit);
  }

  /** The servers' openings add up to (randomness, index, record bit). */
  lemma {:induction false} OpeningsSum(bases: seq<Server>, M: Modulus, k1: nat, k2: nat, v: nat, vEnd: nat, d: nat,
                                       records: Bits, len: nat, idx: nat,
                                       rnd: int, ops: seq<Opening>)
    requires ConvertReady(bases, M, k1, k2, v, vEnd, d) && |records| == |bases| && len == k1 + k2
    requires SharesQuery(bases, M, len, vEnd, idx, rnd)
    requires ops == OpeningsOf(bases, M, k1, k2, v, vEnd, d, records)
    ensures SameOpening(M, SumOpening(ops), Opening(rnd, idx, ToInt(Parity(records))))
  {
    var x := ExchangeOf(bases, M, k1, k2, v, vEnd, d, records);
    OpeningParts(bases, M, k1, k2, v, vEnd, d, records, x, ops);
    ExchangeGood(bases, M, k1, k2, v, vEnd, d, records, x);
    ExchangeConverts(bases, M, k1, k2, v, vEnd, d, records, x, idx, len);
    SumsTo(x, ops, RndShares(bases, vEnd), rnd, idx, ToInt(Parity(records)));
  }

  /* ---------- the commitment round ---------- */

  lemma CertifyEmit(prog: Code, s: Server, c: int)
    requires prog == ServerProgram() && s.job == Certify(c)
    ensures prog.emit(s) == Commitment(c)
  {
    EmitBy(prog, s, Commitment(c));
  }

  /** Server `s` when the query is answered with `token`. */
  function NextBase(s: Server, used: nat, vEnd: nat, token: Option<int>): Server
    requires |s.queries| > 0
  {
    s.(usedB := used, usedD := vEnd, tokens := s.tokens + [token], queries := s.queries[1..], job := Idle)
  }

  lemma BeginAnew(s: Server, x: Server)
    requires x == s.(job := x.job)
    ensures BeginQuery(x) == BeginQuery(s)
  {
  }

  lemma CertifyAbsorb(prog: Code, s: Server, c: int, inbox: seq<Payload>, next: Server)
    requires prog == ServerProgram() && s.job == Certify(c) && AllCommits(inbox) && |s.queries| > 0
    requires next
          == s.(tokens := s.tokens + [if s.isConst then Some(Aggregate(s.setup.M, CommitsOf(inbox) + [c])) else None],
                        queries := s.queries[1..], job := Idle)
    ensures prog.absorb(s, inbox) == BeginQuery(next)
  {
    BeginAnew(next, next.(job := s.job));
    AbsorbBy(prog, s, inbox, BeginQuery(next));
  }

  predicate WrappedCommits(emits: seq<Payload>, cs: seq<int>) {
    |emits| == |cs| && forall p :: 0 <= p < |cs| ==> emits[p] == Commitment(cs[p])
  }

  lemma EveryoneAggregates(M: Modulus, emits: seq<Payload>, cs: seq<int>, p: nat)
    requires WrappedCommits(emits, cs) && p < |cs|
    ensures AllCommits(FromPeers(emits, p))
    ensures Aggregate(M, CommitsOf(FromPeers(emits, p)) + [cs[p]]) == Aggregate(M, cs)
  {
    assert CommitsOf(FromPeers(emits, p)) == FromPeers(cs, p);
    FromPeersPerm(cs, p);
    AggregateAnyOrder(M, FromPeers(cs, p) + [cs[p]], cs);
    forall m | m in FromPeers(emits, p) ensures m.Commitment? { var i :| 0 <= i < |emits| && emits[i] == m; }
  }

  predicate CertifyReady(bases: seq<Server>, setup: Setup) {
    forall p :: 0 <= p < |bases| ==> bases[p].setup == setup && bases[p].isConst == (p == 0) && |bases[p].queries| > 0
  }

  function TokenOf(setup: Setup, cs: seq<int>, p: nat): Option<int> {
    if p == 0 then Some(Aggregate(setup.M, cs)) else None
  }

  function NextBases(bases: seq<Server>, setup: Setup, used: nat, vEnd: nat, cs: seq<int>): (r: seq<Server>)
    requires CertifyReady(bases, setup)
    ensures |r| == |bases|
    ensures forall p :: 0 <= p < |r| ==>
      |bases[p].queries| > 0 && r[p] == NextBase(bases[p], used, vEnd, TokenOf(setup, cs, p))
  {
    assert forall p :: 0 <= p < |bases| ==> |bases[p].queries| > 0;
    seq(|bases|, p requires 0 <= p < |bases| => NextBase(bases[p], used, vEnd, TokenOf(setup, cs, p)))
  }

  function Begin(bases: seq<Server>): (r: seq<Server>)
    ensures |r| == |bases| && forall p :: 0 <= p < |r| ==> r[p] == BeginQuery(bases[p])
  {
    seq(|bases|, p requires 0 <= p < |bases| => BeginQuery(bases[p]))
  }

  lemma CertifyEmits(prog: Code, bases: seq<Server>, setup: Setup, used: nat, vEnd: nat,
                     ops: seq<Opening>)
    requires prog == ServerProgram() && CertifyReady(bases, setup) && |ops| == |bases|
    ensures WrappedCommits(OutsOf(prog, CertifyStates(bases, used, vEnd, ops)), Commits(setup.M, setup.gens, ops))
  {
    var states, cs := CertifyStates(bases, used, vEnd, ops), Commits(setup.M, setup.gens, ops);
    forall p | 0 <= p < |bases| ensures OutsOf(prog, states)[p] == Commitment(cs[p]) {
      CertifyEmit(prog, states[p], cs[p]);
    }
  }

  lemma CertifyAt(prog: Code, bases: seq<Server>, setup: Setup, used: nat, vEnd: nat,
                  ops: seq<Opening>,
                  states: seq<Server>, cs: seq<int>, emits: seq<Payload>, p: nat)
    requires prog == ServerProgram() && CertifyReady(bases, setup) && |ops| == |bases| && p < |bases|
    requires states == CertifyStates(bases, used, vEnd, ops) && cs == Commits(setup.M, setup.gens, ops)
    requires WrappedCommits(emits, cs)
    ensures prog.absorb(states[p], FromPeers(emits, p))
         == BeginQuery(NextBase(bases[p], used, vEnd, TokenOf(setup, cs, p)))
  {
    EveryoneAggregates(setup.M, emits, cs, p);
    CertifyAbsorb(prog, states[p], cs[p], FromPeers(emits, p), NextBase(bases[p], used, vEnd, TokenOf(setup, cs, p)));
  }

  /** The commitments are exchanged: the constant party has the aggregate, and all servers begin the
      next query. */
  lemma CertifyLeads(prog: Code, bases: seq<Server>, setup: Setup, used: nat, vEnd: nat,
                     ops: seq<Opening>, cs: seq<int>)
    requires prog == ServerProgram() && CertifyReady(bases, setup) && |ops| == |bases|
    requires cs == Commits(setup.M, setup.gens, ops)
    ensures Leads(prog, CertifyStates(bases, used, vEnd, ops), Begin(NextBases(bases, setup, used, vEnd, cs)))
  {
    var states, next := CertifyStates(bases, used, vEnd, ops), Begin(NextBases(bases, setup, used, vEnd, cs));
    CertifyEmits(prog, bases, setup, used, vEnd, ops);
    forall p | 0 <= p < |bases| ensures prog.absorb(states[p], FromPeers(OutsOf(prog, states), p)) == next[p] {
      CertifyAt(prog, bases, setup, used, vEnd, ops, states, cs, OutsOf(prog, states), p);
    }
  }
}
