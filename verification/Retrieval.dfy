/** Two-level retrieval of one record bit from a replicated database with shared one-hot vectors. */
module Retrieval {
  import opened Bits
  import opened Circuit
  import opened OneHot
  import opened AndLayer
  import opened Evaluation

  /** `idx_to_2dim`, of the server and of the client: position in the row, row. */
  function TwoDim(idx: nat, l1Dim: nat): (r: (nat, nat))
    requires l1Dim > 0
    ensures r.0 < l1Dim && idx == r.1 * l1Dim + r.0
  {
    (idx % l1Dim, idx / l1Dim)
  }

  /** One-bit records, in 2^k2 rows of 2^k1 bits. */
  datatype Database = Database(k1: nat, k2: nat, rows: seq<Bits>) {
    /** What `from_seed` asserts of the dimensions. */
    predicate Valid() {
      k1 >= 3 && k2 <= k1 && |rows| == Pow2(k2) && Rect(rows, Pow2(k1))
    }

    function Size(): nat { Times(Pow2(k2), Pow2(k1)) }

    function To2Dim(idx: nat): (nat, nat) { TwoDim(idx, Pow2(k1)) }

    /** The two parts of an index are in range and determine it. */
    lemma To2DimOk(idx: nat)
      requires idx < Size()
      ensures To2Dim(idx).0 < Pow2(k1) && To2Dim(idx).1 < Pow2(k2)
      ensures idx == Times(To2Dim(idx).1, Pow2(k1)) + To2Dim(idx).0
    {
      TimesIsProduct(Pow2(k2), Pow2(k1));
      DivBound(idx, Pow2(k1), Pow2(k2));
      TimesIsProduct(To2Dim(idx).1, Pow2(k1));
    }

    /** `get_record_bit(idx, 0)` */
    predicate RecordBit(idx: nat)
      requires Valid() && idx < Size()
    {
      To2DimOk(idx);
      rows[To2Dim(idx).1][To2Dim(idx).0]
    }
  }

  /* ---------- level one ---------- */

  /** `inner_prod`: XOR of the pairwise ANDs. */
  predicate InnerProd(x: Bits, y: Bits)
    requires |x| == |y|
  {
    Parity(AndBits(x, y))
  }

  function InnerProds(shares: seq<Bits>, row: Bits): (r: Bits)
    requires Rect(shares, |row|)
    ensures |r| == |shares| && forall p :: 0 <= p < |shares| ==> r[p] == InnerProd(shares[p], row)
  {
    seq(|shares|, p requires 0 <= p < |shares| => InnerProd(shares[p], row))
  }

  function AndRows(shares: seq<Bits>, row: Bits): (r: seq<Bits>)
    requires Rect(shares, |row|)
    ensures |r| == |shares| && Rect(r, |row|) && forall p :: 0 <= p < |shares| ==> r[p] == AndBits(shares[p], row)
  {
    seq(|shares|, p requires 0 <= p < |shares| => AndBits(shares[p], row))
  }

  lemma AndRowsRec(shares: seq<Bits>, row: Bits)
    requires Rect(shares, |row|)
    ensures RecBits(AndRows(shares, row), |row|) == AndBits(RecBits(shares, |row|), row)
  {
    forall j | 0 <= j < |row| ensures Rec(AndRows(shares, row), j) == (Rec(shares, j) && row[j]) {
      ParityAnd(row[j], Col(shares, j), Col(AndRows(shares, row), j));
    }
  }

  /** The inner product with a public row is linear over shares. */
  lemma InnerProdLinear(shares: seq<Bits>, row: Bits)
    requires Rect(shares, |row|)
    ensures Parity(InnerProds(shares, row)) == InnerProd(RecBits(shares, |row|), row)
  {
    ParityOfShares(AndRows(shares, row), |row|);
    assert RowParities(AndRows(shares, row)) == InnerProds(shares, row);
    AndRowsRec(shares, row);
  }

  /** The parties' inner products with shares of a one-hot vector share the selected bit. */
  lemma InnerProdSelects(shares: seq<Bits>, row: Bits, at: nat)
    requires Rect(shares, |row|) && at < |row|
    requires forall j :: 0 <= j < |row| ==> Rec(shares, j) == (j == at)
    ensures Parity(InnerProds(shares, row)) == row[at]
  {
    InnerProdLinear(shares, row);
    ParitySingle(AndBits(RecBits(shares, |row|), row), at);
  }

  /** A vector of `size` bits in whole bytes, the padding zero. */
  function Padded(d: Bits): (v: BitVec)
    ensures v.Valid() && v.size == |d| && v.Data() == d
  {
    var v := BitVec(d + BoolSeq(8 * CeilDiv8(|d|) - |d|, false), |d|);
    assert v.bits[..|d|] == d;
    v
  }

  function Lvl1Data(rows: seq<Bits>, ohe: Bits): (r: Bits)
    requires Rect(rows, |ohe|)
    ensures |r| == |rows| && forall i :: 0 <= i < |rows| ==> r[i] == InnerProd(ohe, rows[i])
  {
    seq(|rows|, i requires 0 <= i < |rows| => InnerProd(ohe, rows[i]))
  }

  /** `lvl1_pir_retrieve`: one inner product per row, over whole bytes. */
  method Lvl1PirRetrieve(db: Database, ohe: BitVec) returns (out: BitVec)
    requires db.Valid() && ohe.Valid() && ohe.size == Pow2(db.k1)
    ensures Rect(db.rows, |ohe.bits|) && out == Padded(Lvl1Data(db.rows, ohe.bits))
  {
    Pow2Bytes(db.k1);
    var n := Pow2(db.k2);
    var bits := BoolSeq(8 * CeilDiv8(n), false);
    for i := 0 to n
      invariant |bits| == 8 * CeilDiv8(n)
      invariant forall j :: 0 <= j < i ==> bits[j] == InnerProd(ohe.bits, db.rows[j])
      invariant forall j :: i <= j < |bits| ==> !bits[j]
    {
      bits := bits[i := InnerProd(ohe.bits, db.rows[i])];
    }
    out := BitVec(bits, n);
    assert out.bits == Padded(Lvl1Data(db.rows, ohe.bits)).bits;
  }

  /* ---------- level two ---------- */

  /** The single layer that ANDs the level-one answer with the level-two vector. */
  function SelectGates(answer: BitVec, ohe2: BitVec): (g: Gates)
    requires answer.size == ohe2.size
  {
    var t := Ticket(0, 0, answer.size);
    Gates(CeilDiv8(answer.size), [Copy(Input(answer), Relay(t, 0)), Copy(Input(ohe2), Relay(t, 1))])
  }

  /** That layer is what `and` builds on an empty circuit. */
  lemma SelectIsAnd(answer: BitVec, ohe2: BitVec)
    requires answer.size == ohe2.size
    ensures And([], answer.size, Input(answer), Input(ohe2))
         == ([SelectGates(answer, ohe2)], TakeZ(Ticket(0, 0, answer.size)))
  {
    var g := SelectGates(answer, ohe2);
    var r := And([], answer.size, Input(answer), Input(ohe2));
    assert GetLayer([], 0) == [Gates(0, [])];
    assert r.0[0].ops == g.ops && r.0 == [g];
    assert r.1 == TakeZ(Ticket(0, 0, answer.size));
  }

  lemma SelectRunnable(answer: BitVec, ohe2: BitVec)
    requires answer.size == ohe2.size && answer.Valid() && ohe2.Valid()
    ensures AllRunnable(SelectGates(answer, ohe2).ops, 0, CeilDiv8(answer.size), Bottom)
  {
  }

  /** The streams of the select layer: the two vectors' valid bits, and zero after them. */
  lemma SelectStreams(answer: BitVec, ohe2: BitVec, j: nat)
    requires answer.size == ohe2.size && answer.Valid() && ohe2.Valid() && j < 8 * CeilDiv8(answer.size)
    ensures At(StreamsFor(SelectGates(answer, ohe2), 0, None).x, j) == (j < answer.size && answer.bits[j])
    ensures At(StreamsFor(SelectGates(answer, ohe2), 0, None).y, j) == (j < answer.size && ohe2.bits[j])
  {
    SelectRunnable(answer, ohe2);
    var g := SelectGates(answer, ohe2);
    var size := g.size;
    var s0 := ZeroStreams(size);
    var s1 := ExecOp(s0, g.ops[1], 0, size, None);
    var s2 := ExecOp(s1, g.ops[0], 0, size, None);
    assert g.ops[..1] == [g.ops[0]] && [g.ops[0]][..0] == [];
    assert ExecOps(s2, [], 0, size, None) == s2;
    assert ExecOps(s1, [g.ops[0]], 0, size, None) == s2;
  }

  /* ---------- retrieval, over all parties ---------- */

  /** Every party holds a vector of `n` bits. */
  predicate VecsFit(vs: seq<BitVec>, n: nat) { forall p :: 0 <= p < |vs| ==> vs[p].Valid() && vs[p].size == n }

  /** The parties' valid bits. */
  function Datas(vs: seq<BitVec>, n: nat): (r: seq<Bits>)
    requires VecsFit(vs, n)
    ensures |r| == |vs| && Rect(r, n) && forall p :: 0 <= p < |vs| ==> r[p] == vs[p].Data()
  {
    seq(|vs|, p requires 0 <= p < |vs| => vs[p].Data())
  }

  /** The parties' vectors share the one-hot vector of `at`. */
  predicate SharesOneHot(vs: seq<BitVec>, n: nat, at: nat)
    requires VecsFit(vs, n)
  {
    forall j :: 0 <= j < n ==> Rec(Datas(vs, n), j) == (j == at)
  }

  /** Every party's level-one answer. */
  function Answers(db: Database, ohes: seq<BitVec>): (r: seq<BitVec>)
    requires db.Valid() && VecsFit(ohes, Pow2(db.k1))
    ensures |r| == |ohes| && VecsFit(r, Pow2(db.k2))
    ensures forall p :: 0 <= p < |r| ==> r[p] == Padded(Lvl1Data(db.rows, ohes[p].Data()))
  {
    seq(|ohes|, p requires 0 <= p < |ohes| => Padded(Lvl1Data(db.rows, ohes[p].Data())))
  }

  /** Level one: the parties' answers share the selected bit of every row. */
  lemma AnswersShare(db: Database, ohes: seq<BitVec>, at: nat, i: nat)
    requires db.Valid() && VecsFit(ohes, Pow2(db.k1)) && SharesOneHot(ohes, Pow2(db.k1), at)
    requires at < Pow2(db.k1) && i < Pow2(db.k2)
    ensures Rec(Datas(Answers(db, ohes), Pow2(db.k2)), i) == db.rows[i][at]
  {
    var shares := Datas(ohes, Pow2(db.k1));
    InnerProdSelects(shares, db.rows[i], at);
    assert Col(Datas(Answers(db, ohes), Pow2(db.k2)), i) == InnerProds(shares, db.rows[i]);
  }

  /** Every party's input streams of the select layer. */
  function SelectAll(answers: seq<BitVec>, ohes: seq<BitVec>, n: nat): (r: seq<Streams>)
    requires |answers| == |ohes| && VecsFit(answers, n) && VecsFit(ohes, n)
    ensures |r| == |ohes| && AllStreamsFit(r, 8 * CeilDiv8(n))
    ensures forall p :: 0 <= p < |r| ==> r[p] == StreamsFor(SelectGates(answers[p], ohes[p]), 0, None)
  {
    seq(|ohes|, p requires 0 <= p < |ohes| => StreamsFor(SelectGates(answers[p], ohes[p]), 0, None))
  }

  lemma SelectPoint(answers: seq<BitVec>, ohes: seq<BitVec>, n: nat, p: nat, j: nat)
    requires |answers| == |ohes| && VecsFit(answers, n) && VecsFit(ohes, n) && p < |ohes| && j < 8 * CeilDiv8(n)
    ensures At(Xs(SelectAll(answers, ohes, n))[p], j) == At(Datas(answers, n)[p], j)
    ensures At(Ys(SelectAll(answers, ohes, n))[p], j) == At(Datas(ohes, n)[p], j)
  {
    SelectStreams(answers[p], ohes[p], j);
  }

  lemma SelectColumns(answers: seq<BitVec>, ohes: seq<BitVec>, n: nat, j: nat)
    requires |answers| == |ohes| && VecsFit(answers, n) && VecsFit(ohes, n) && j < 8 * CeilDiv8(n)
    ensures Rec(Xs(SelectAll(answers, ohes, n)), j) == Rec(Datas(answers, n), j)
    ensures Rec(Ys(SelectAll(answers, ohes, n)), j) == Rec(Datas(ohes, n), j)
  {
    forall p | 0 <= p < |ohes|
      ensures At(Xs(SelectAll(answers, ohes, n))[p], j) == At(Datas(answers, n)[p], j)
      ensures At(Ys(SelectAll(answers, ohes, n))[p], j) == At(Datas(ohes, n)[p], j)
    {
      SelectPoint(answers, ohes, n, p, j);
    }
    SameColumn(Xs(SelectAll(answers, ohes, n)), j, Datas(answers, n), j);
    SameColumn(Ys(SelectAll(answers, ohes, n)), j, Datas(ohes, n), j);
  }

  /** Nothing is shared past the end of the valid bits. */
  lemma PastEnd(rows: seq<Bits>, n: nat, j: nat)
    requires Rect(rows, n) && j >= n
    ensures !Rec(rows, j)
  {
    ParityZero(Col(rows, j));
  }

  /** Every party's Z stream of the select layer, padding included. */
  function SelectZs(answers: seq<BitVec>, ohes: seq<BitVec>, ts: seq<Triple>, n: nat): (zs: seq<Bits>)
    requires |answers| == |ohes| == |ts| && VecsFit(answers, n) && VecsFit(ohes, n) && TriplesFit(ts, 8 * CeilDiv8(n))
    ensures |zs| == |ohes| && Rect(zs, 8 * CeilDiv8(n))
  {
    LayerZs(SelectAll(answers, ohes, n), ts, 8 * CeilDiv8(n))
  }

  /** Level two, bit by bit: the AND on valid bits; the padding, whatever each share holds there,
      cancels. */
  lemma SelectBit(answers: seq<BitVec>, ohes: seq<BitVec>, ts: seq<Triple>, n: nat, j: nat)
    requires |answers| == |ohes| == |ts| > 0 && VecsFit(answers, n) && VecsFit(ohes, n)
    requires TriplesFit(ts, 8 * CeilDiv8(n)) && Dealt(ts, 8 * CeilDiv8(n)) && j < 8 * CeilDiv8(n)
    ensures Rec(SelectZs(answers, ohes, ts, n), j) == (Rec(Datas(answers, n), j) && Rec(Datas(ohes, n), j))
    ensures j >= n ==> !Rec(SelectZs(answers, ohes, ts, n), j)
  {
    LayerAnd(SelectAll(answers, ohes, n), ts, 8 * CeilDiv8(n), j);
    SelectColumns(answers, ohes, n, j);
    if j >= n { PastEnd(Datas(ohes, n), n, j); }
  }

  /** `parity` of each party's answer, over whole bytes, shares the bit the one-hot vector selects. */
  lemma SelectParity(answers: seq<BitVec>, ohes: seq<BitVec>, ts: seq<Triple>, n: nat, at: nat)
    requires |answers| == |ohes| == |ts| > 0 && VecsFit(answers, n) && VecsFit(ohes, n) && at < n
    requires TriplesFit(ts, 8 * CeilDiv8(n)) && Dealt(ts, 8 * CeilDiv8(n)) && SharesOneHot(ohes, n, at)
    ensures Parity(RowParities(SelectZs(answers, ohes, ts, n))) == Rec(Datas(answers, n), at)
  {
    var w, zs := 8 * CeilDiv8(n), SelectZs(answers, ohes, ts, n);
    ParityOfShares(zs, w);
    forall j | 0 <= j < w
      ensures RecBits(zs, w)[j] == (j == at && Rec(Datas(answers, n), at))
    {
      SelectBit(answers, ohes, ts, n, j);
    }
    ParitySingle(RecBits(zs, w), at);
  }

  /** `rec_retrieve`: the XOR over all parties of the bits they return is the record's bit, for every
      database and index, whatever the padding of the shares holds. */
  lemma RetrievalCorrect(db: Database, idx: nat, ohes1: seq<BitVec>, ohes2: seq<BitVec>,
                         ts: seq<Triple>)
    requires db.Valid() && idx < db.Size() && |ohes1| == |ohes2| == |ts| > 0
    requires VecsFit(ohes1, Pow2(db.k1)) && SharesOneHot(ohes1, Pow2(db.k1), db.To2Dim(idx).0)
    requires VecsFit(ohes2, Pow2(db.k2)) && SharesOneHot(ohes2, Pow2(db.k2), db.To2Dim(idx).1)
    requires TriplesFit(ts, 8 * CeilDiv8(Pow2(db.k2))) && Dealt(ts, 8 * CeilDiv8(Pow2(db.k2)))
    ensures Parity(RowParities(SelectZs(Answers(db, ohes1), ohes2, ts, Pow2(db.k2)))) == db.RecordBit(idx)
  {
    db.To2DimOk(idx);
    SelectParity(Answers(db, ohes1), ohes2, ts, Pow2(db.k2), db.To2Dim(idx).1);
    AnswersShare(db, ohes1, db.To2Dim(idx).0, db.To2Dim(idx).1);
  }
}
