/** The protocol end to end: every query of every client request is answered with a commitment to the
    right record, whatever the interleaving of the servers' messages. */
module Protocol {
  import opened Bits
  import opened Folds
  import opened Scalars
  import opened Circuit
  import opened AndLayer
  import opened Evaluation
  import opened Beaver
  import opened Conversion
  import opened Retrieval
  import opened Sharing
  import opened Commitments
  import opened Budget
  import opened Rounds
  import opened Party
  import opened Lockstep
  import opened Answering
  import opened Certifying
  import Wire

  /* ---------- from the first layer to the select layer ---------- */

  lemma BeginIsExpand(s: Server, setup: Setup, isConst: bool, u: nat, v: nat, layers: seq<Gates>,
                      src1: Source, src2: Source)
    requires Legal(setup) && BaseOk(s, setup, isConst, u, v) && layers == Built2(s).0 && |layers| > 0
    requires src1 == Built1(s).1 && src2 == Built2(s).1
    ensures BeginQuery(s) == s.(usedB := u, job := Expand(layers, None, src1, src2))
  {
  }

  lemma BeginAt(c: Situation, w: nat, z: seq<nat>, t: Turn, last: nat, p: nat)
    requires BasesOk(c) && Stocked(c, w) && z == QueryPlan(c.K1(), c.K2()) && t == TurnOf(c, w, z) && TurnOk(t)
    requires last == |z| - 1 && p < |c.bases|
    ensures BeginQuery(c.bases[p]) == ExpandState(t, last, p, None)
  {
    var s := c.bases[p];
    BuiltOk(s, c.K1(), c.K2(), L1Values(c)[p], L2Values(c)[p]);
    assert Shaped(t.ps[p], z);
    assert t.ps[p].circuit[..last + 1] == Built2(s).0;
    BeginIsExpand(s, c.setup, p == 0, c.u, c.v, Built2(s).0, t.src1[p], t.src2[p]);
  }

  /** All servers build their circuits and stand before the last layer. */
  lemma BeginAll(c: Situation, w: nat, z: seq<nat>, t: Turn, last: nat)
    requires BasesOk(c) && Stocked(c, w) && z == QueryPlan(c.K1(), c.K2()) && t == TurnOf(c, w, z) && TurnOk(t)
    requires last == |z| - 1
    ensures Begin(c.bases) == ExpandAt(t, last)
  {
    var a, b := Begin(c.bases), ExpandAt(t, last);
    assert Done(t.ps, t.z, last + 1) == Nothing(|t.ps|);
    forall p | 0 <= p < |c.bases| ensures a[p] == b[p] { BeginAt(c, w, z, t, last, p); }
  }

  lemma ValuesBelow(c: Situation)
    requires BasesOk(c)
    ensures AllBelow(L1Values(c), c.K1()) && AllBelow(L2Values(c), c.K2())
  {
    forall p | 0 <= p < |c.bases| ensures L1Values(c)[p] < Pow2(c.K1()) && L2Values(c)[p] < Pow2(c.K2()) {
      assert BaseOk(c.bases[p], c.setup, p == 0, c.u, c.v);
    }
  }

  /** The servers can read `n` bits each from `srcs`, and these share the one-hot vector of `at`. */
  predicate OneHotOut(srcs: seq<Source>, outs: seq<Option<Finished>>, n: nat, at: nat) {
    AllReadable(srcs, outs, n) && VecsFit(VecsOf(srcs, outs), n) && SharesOneHot(VecsOf(srcs, outs), n, at)
  }

  /** After the run, both one-hot vectors can be read and are shared. */
  lemma {:induction false} RunOutcome(c: Situation, w: nat, z: seq<nat>, t: Turn, outs: seq<Option<Finished>>)
    requires BasesOk(c) && Stocked(c, w) && z == QueryPlan(c.K1(), c.K2()) && t == TurnOf(c, w, z) && TurnOk(t)
    requires outs == Done(t.ps, z, 0)
    ensures OneHotOut(t.src1, outs, Pow2(c.K1()), XorAll(L1Values(c)))
    ensures OneHotOut(t.src2, outs, Pow2(c.K2()), XorAll(L2Values(c)))
  {
    ValuesBelow(c);
    SidesFamily(c, w, z, t.ps);
    TreesEverywhere(c, w, z);
    RunShares(t.ps, z, Tree1(c.K1()), c.K1(), L1Values(c), outs);
    RunShares(t.ps, z, Tree2(c.K1(), c.K2()), c.K2(), L2Values(c), outs);
  }

  lemma SetupsSame(c: Situation)
    requires BasesOk(c)
    ensures forall p :: 0 <= p < |c.bases| ==>
      c.bases[p].setup == c.setup && c.bases[p].isConst == (p == 0) && |c.bases[p].queries| > 0
  {
    assert forall p :: 0 <= p < |c.bases| ==> BaseOk(c.bases[p], c.setup, p == 0, c.u, c.v);
  }

  /** What the select round works on. */
  datatype Choice = Choice(answers: seq<BitVec>, ohes: seq<BitVec>, n: nat, used: nat)

  predicate ChoiceOk(x: Choice, bases: seq<Server>) {
    |x.answers| == |x.ohes| == |bases| && VecsFit(x.answers, x.n) && VecsFit(x.ohes, x.n)
  }

  function ChoiceOf(t: Turn, outs: seq<Option<Finished>>, db: Database): (x: Choice)
    requires db.Valid() && |t.src1| == |t.src2| == |outs| == |t.bases|
    requires VecsFit(VecsOf(t.src1, outs), Pow2(db.k1)) && VecsFit(VecsOf(t.src2, outs), Pow2(db.k2))
    ensures ChoiceOk(x, t.bases)
  {
    Choice(Answers(db, VecsOf(t.src1, outs)), VecsOf(t.src2, outs), Pow2(db.k2), t.u + Tail(t.z, 0))
  }

  function Choosing(bases: seq<Server>, x: Choice): (r: seq<Server>)
    requires ChoiceOk(x, bases)
  {
    SelectStates(bases, x.used, x.answers, x.ohes, x.n)
  }

  lemma AboveIsChoosing(t: Turn, prevs: seq<Option<Finished>>, zs: seq<Bits>,
                        outs: seq<Option<Finished>>, db: Database, at1: nat, at2: nat)
    requires TurnOk(t) && 0 < |t.z| && |prevs| == |zs| == |t.bases| && outs == Wrap(0, zs) && db.Valid()
    requires forall p :: 0 <= p < |t.bases| ==> t.bases[p].setup.db == db
    requires OneHotOut(t.src1, outs, Pow2(db.k1), at1) && OneHotOut(t.src2, outs, Pow2(db.k2), at2)
    ensures AllAbove(t, 0, prevs, zs) == Choosing(t.bases, ChoiceOf(t, outs, db))
  {
    AllAboveSelect(t, prevs, zs, outs, db);
  }

  lemma {:induction false} AboveLeads(prog: Code, t: Turn, l: nat, m: nat, prevs: seq<Option<Finished>>, zs: seq<Bits>)
    requires prog == ServerProgram() && TurnOk(t) && m == l + 1 <= |t.z| && prevs == Done(t.ps, t.z, m)
    requires Ready(t.ps, m, prevs)
    requires zs == ZsAt(t.ps, t.z, l, prevs)
    ensures Leads(prog, ExpandAt(t, l), AllAbove(t, l, prevs, zs))
  {
    ExpandLeads(prog, t, l, prevs, zs);
  }

  lemma {:induction false} ZeroIsChoosing(t: Turn, l: nat, m: nat, prevs: seq<Option<Finished>>, zs: seq<Bits>,
                                          outs: seq<Option<Finished>>, db: Database,
                                          at1: nat, at2: nat)
    requires TurnOk(t) && l == 0 && m == 1 && 0 < |t.z| && prevs == Done(t.ps, t.z, m)
    requires zs == ZsAt(t.ps, t.z, l, prevs)
    requires outs == Done(t.ps, t.z, l) && db.Valid() && forall p :: 0 <= p < |t.bases| ==> t.bases[p].setup.db == db
    requires OneHotOut(t.src1, outs, Pow2(db.k1), at1) && OneHotOut(t.src2, outs, Pow2(db.k2), at2)
    ensures AllAbove(t, l, prevs, zs) == Choosing(t.bases, ChoiceOf(t, outs, db))
  {
    DoneStep(t.ps, t.z, l);
    AboveIsChoosing(t, prevs, zs, outs, db, at1, at2);
  }

  lemma {:induction false} LayerZeroLeads(prog: Code, t: Turn, l: nat, outs: seq<Option<Finished>>, db: Database,
                                          at1: nat, at2: nat)
    requires prog == ServerProgram() && TurnOk(t) && l == 0 < |t.z| && outs == Done(t.ps, t.z, l) && db.Valid()
    requires forall p :: 0 <= p < |t.bases| ==> t.bases[p].setup.db == db
    requires OneHotOut(t.src1, outs, Pow2(db.k1), at1) && OneHotOut(t.src2, outs, Pow2(db.k2), at2)
    ensures Leads(prog, ExpandAt(t, l), Choosing(t.bases, ChoiceOf(t, outs, db)))
  {
    var m := 1;
    var prevs := Done(t.ps, t.z, m);
    var zs := ZsAt(t.ps, t.z, l, prevs);
    DoneReady(t.ps, t.z, m);
    ZeroIsChoosing(t, l, m, prevs, zs, outs, db, at1, at2);
    AboveLeads(prog, t, l, m, prevs, zs);
  }

  /* ---------- the record bit ---------- */

  /** The servers' queries ask for record `idx` and carry shares of `rnd`. */
  predicate Asks(c: Situation, idx: nat, rnd: int)
    requires BasesOk(c)
  {
    && idx < c.setup.db.Size()
    && XorAll(L1Values(c)) == c.setup.db.To2Dim(idx).0 && XorAll(L2Values(c)) == c.setup.db.To2Dim(idx).1
    && Same(c.setup.M, Sum(RndsOf(c)), rnd)
  }

  function RndsOf(c: Situation): (r: seq<int>)
    requires BasesOk(c)
    ensures |r| == |c.bases|
    ensures forall p :: 0 <= p < |r| ==> |c.bases[p].queries| > 0 && r[p] == c.bases[p].queries[0].rnd
  {
    SetupsSame(c);
    seq(|c.bases|, p requires 0 <= p < |c.bases| => c.bases[p].queries[0].rnd)
  }

  /** The servers' shares of the record bit. */
  function Records(bases: seq<Server>, x: Choice, w: nat, u2: nat): (r: Bits)
    requires ChoiceOk(x, bases) && TriplesFit(Storages(bases), w) && u2 == x.used + CeilDiv8(x.n) && 8 * u2 <= w
    ensures |r| == |bases|
  {
    RowParities(SelectZs(x.answers, x.ohes, Slices(Storages(bases), w, x.used, u2), x.n))
  }

  lemma {:induction false} SelectStock(c: Situation, w: nat, z: seq<nat>, x: Choice, u2: nat)
    requires BasesOk(c) && Stocked(c, w) && z == QueryPlan(c.K1(), c.K2())
    requires x.used == c.u + Tail(z, 0) && x.n == Pow2(c.K2()) && u2 == c.u + QueryBytes(c.K1(), c.K2())
    ensures u2 == x.used + CeilDiv8(x.n) && 8 * u2 <= w && SelectReady(c.bases, x.used, x.n, CeilDiv8(x.n), w)
  {
    PlanTail(c.K1(), c.K2());
    SetupsSame(c);
  }

  lemma SelectDealt(ts: seq<Triple>, w: nat, st: nat, end: nat, bits: nat)
    requires GoodTriples(ts, w) && st <= end && 8 * end <= w && bits == 8 * (end - st)
    ensures TriplesFit(Slices(ts, w, st, end), bits) && Dealt(Slices(ts, w, st, end), bits)
  {
    SliceDealt(ts, w, st, end);
  }

  /** The shares XOR to the record's bit. */
  lemma RecordsRight(c: Situation, w: nat, t: Turn, outs: seq<Option<Finished>>, db: Database,
                     x: Choice, u2: nat, idx: nat, at1: nat, at2: nat)
    requires |c.bases| == |t.bases| == |outs| == |t.src1| == |t.src2| > 0 && db.Valid() && idx < db.Size()
    requires db.To2Dim(idx) == (at1, at2)
    requires OneHotOut(t.src1, outs, Pow2(db.k1), at1) && OneHotOut(t.src2, outs, Pow2(db.k2), at2)
    requires x == ChoiceOf(t, outs, db)
    requires GoodTriples(Storages(c.bases), w) && u2 == x.used + CeilDiv8(x.n) && 8 * u2 <= w
    ensures Parity(Records(c.bases, x, w, u2)) == db.RecordBit(idx)
  {
    var bits := 8 * CeilDiv8(x.n);
    SelectDealt(Storages(c.bases), w, x.used, u2, bits);
    RetrievalCorrect(db, idx, VecsOf(t.src1, outs), VecsOf(t.src2, outs), Slices(Storages(c.bases), w, x.used, u2));
  }

  lemma ChoosingLeads(prog: Code, c: Situation, w: nat, x: Choice, u2: nat, vEnd: nat, records: Bits)
    requires prog == ServerProgram() && ChoiceOk(x, c.bases) && TriplesFit(Storages(c.bases), w)
    requires AllConvertible(c.bases, vEnd)
    requires u2 == x.used + CeilDiv8(x.n) && 8 * u2 <= w && SelectReady(c.bases, x.used, x.n, CeilDiv8(x.n), w)
    requires forall p :: 0 <= p < |c.bases| ==> Pow2(c.bases[p].setup.db.k2) == x.n
    requires records == Records(c.bases, x, w, u2)
    ensures Leads(prog, Choosing(c.bases, x), ConvertStates(c.bases, u2, vEnd, records))
  {
    SelectLeads(prog, c.bases, x.used, x.answers, x.ohes, x.n, CeilDiv8(x.n), w, u2, vEnd,
                SelectZs(x.answers, x.ohes, Slices(Storages(c.bases), w, x.used, u2), x.n));
  }

  /* ---------- the joined index ---------- */

  function L1sOf(c: Situation): (r: seq<BooleanValue>)
    requires BasesOk(c)
    ensures |r| == |c.bases|
    ensures forall p :: 0 <= p < |r| ==> |c.bases[p].queries| > 0 && r[p] == c.bases[p].queries[0].l1
  {
    SetupsSame(c);
    seq(|c.bases|, p requires 0 <= p < |c.bases| => c.bases[p].queries[0].l1)
  }

  function L2sOf(c: Situation): (r: seq<BooleanValue>)
    requires BasesOk(c)
    ensures |r| == |c.bases|
    ensures forall p :: 0 <= p < |r| ==> |c.bases[p].queries| > 0 && r[p] == c.bases[p].queries[0].l2
  {
    SetupsSame(c);
    seq(|c.bases|, p requires 0 <= p < |c.bases| => c.bases[p].queries[0].l2)
  }

  lemma SharesFitLens(c: Situation)
    requires BasesOk(c)
    ensures ValuesFit(L1sOf(c), c.K1()) && ValuesFit(L2sOf(c), c.K2())
    ensures Values(L1sOf(c)) == L1Values(c) && Values(L2sOf(c)) == L2Values(c)
  {
    forall p | 0 <= p < |c.bases|
      ensures L1sOf(c)[p].Valid() && L1sOf(c)[p].bitLen == c.K1() && L2sOf(c)[p].Valid() && L2sOf(c)[p].bitLen == c.K2()
    {
      assert BaseOk(c.bases[p], c.setup, p == 0, c.u, c.v);
    }
  }

  lemma IndexSharesJoined(c: Situation, vEnd: nat)
    requires BasesOk(c) && AllConvertible(c.bases, vEnd) && ValuesFit(L1sOf(c), c.K1()) && ValuesFit(L2sOf(c), c.K2())
    ensures IndexShares(c.bases, vEnd) == Values(Joined(L1sOf(c), L2sOf(c), c.K1(), c.K2()))
  {
  }

  /** The servers' joined shares XOR to the index. */
  lemma {:induction false} IndexShared(c: Situation, vEnd: nat, idx: nat, rnd: int, len: nat)
    requires BasesOk(c) && AllConvertible(c.bases, vEnd) && Asks(c, idx, rnd) && len == c.K1() + c.K2()
    ensures XorAll(IndexShares(c.bases, vEnd)) == idx && idx < Pow2(len)
  {
    SharesFitLens(c);
    IndexSharesJoined(c, vEnd);
    JoinCommutes(L1sOf(c), L2sOf(c), c.K1(), c.K2());
    c.setup.db.To2DimOk(idx);
    JoinBelow(c.setup.db.To2Dim(idx).0, c.setup.db.To2Dim(idx).1, c.K1(), c.K2());
  }

  lemma QueryShared(c: Situation, vEnd: nat, idx: nat, rnd: int, len: nat)
    requires BasesOk(c) && AllConvertible(c.bases, vEnd) && Asks(c, idx, rnd) && len == c.K1() + c.K2()
    ensures SharesQuery(c.bases, c.setup.M, len, vEnd, idx, rnd)
  {
    IndexShared(c, vEnd, idx, rnd, len);
    assert RndShares(c.bases, vEnd) == RndsOf(c);
  }

  /* ---------- one query, all rounds ---------- */

  /** Enough matching daBits are left for the query. */
  predicate StockedD(c: Situation, d: nat, vEnd: nat)
    requires BasesOk(c)
  {
    && DaBitsFit(DaStorages(c.bases), d) && GoodDaBits(c.setup.M, DaStorages(c.bases), d)
    && vEnd == c.v + QueryDaBits(c.K1(), c.K2()) && vEnd <= d
  }

  lemma ConvertStock(c: Situation, d: nat, vEnd: nat)
    requires BasesOk(c) && StockedD(c, d, vEnd)
    ensures ConvertReady(c.bases, c.setup.M, c.K1(), c.K2(), c.v, vEnd, d)
  {
    forall p | 0 <= p < |c.bases|
      ensures Convertible(c.bases[p], vEnd) && ConvertBase(c.bases[p], c.setup.M, c.K1(), c.K2(), c.v, p == 0)
    {
      assert BaseOk(c.bases[p], c.setup, p == 0, c.u, c.v);
      assert DaStorages(c.bases)[p] == c.bases[p].dabits;
    }
  }

  /** `get_commitment` of the client: its own commitment to (randomness, index, record value). */
  function GetCommitment(setup: Setup, rnd: int, idx: nat, rec: int): int {
    Commit(setup.M, setup.gens, Opening(rnd, idx, rec))
  }

  /** All servers when the query is answered: the constant party has `token` to sign, the others
      nothing. */
  function Answered(c: Situation, u2: nat, vEnd: nat, token: int): (r: seq<Server>)
    requires BasesOk(c)
    ensures |r| == |c.bases|
    ensures forall p :: 0 <= p < |r| ==>
      |c.bases[p].queries| > 0 && r[p] == NextBase(c.bases[p], u2, vEnd, if p == 0 then Some(token) else None)
  {
    SetupsSame(c);
    seq(|c.bases|, p requires 0 <= p < |c.bases| => NextBase(c.bases[p], u2, vEnd,
                                                             if p == 0 then Some(token) else None))
  }

  lemma CertifyReadyOf(c: Situation)
    requires BasesOk(c)
    ensures CertifyReady(c.bases, c.setup)
  {
    SetupsSame(c);
  }

  lemma NextIsAnswered(c: Situation, u2: nat, vEnd: nat, cs: seq<int>, token: int)
    requires BasesOk(c) && CertifyReady(c.bases, c.setup) && Aggregate(c.setup.M, cs) == token
    ensures NextBases(c.bases, c.setup, u2, vEnd, cs) == Answered(c, u2, vEnd, token)
  {
    var a, b := NextBases(c.bases, c.setup, u2, vEnd, cs), Answered(c, u2, vEnd, token);
    forall p | 0 <= p < |c.bases| ensures a[p] == b[p] {}
  }

  /** The last round, when the openings add up to `op`. */
  lemma CommitLeads(prog: Code, c: Situation, u2: nat, vEnd: nat, ops: seq<Opening>, op: Opening,
                    token: int)
    requires prog == ServerProgram() && BasesOk(c) && |ops| == |c.bases| && SameOpening(c.setup.M, SumOpening(ops), op)
    requires token == Commit(c.setup.M, c.setup.gens, op)
    ensures Leads(prog, CertifyStates(c.bases, u2, vEnd, ops), Begin(Answered(c, u2, vEnd, token)))
  {
    var cs := Commits(c.setup.M, c.setup.gens, ops);
    CertifyReadyOf(c);
    AggregateOpens(c.setup.M, c.setup.gens, ops, op);
    NextIsAnswered(c, u2, vEnd, cs, token);
    CertifyLeads(prog, c.bases, c.setup, u2, vEnd, ops, cs);
  }

  /** From the record bits to the answer: two rounds. */
  lemma {:induction false} FinishQuery(sys: Sys, c: Situation, d: nat, u2: nat, vEnd: nat, records: Bits, idx: nat,
                                       rnd: int, token: int,
                                       r: nat, r1: nat, r2: nat)
    requires sys.prog == ServerProgram() && BasesOk(c) && StockedD(c, d, vEnd) && Asks(c, idx, rnd)
    requires |records| == |c.bases|
    requires AllConvertible(c.bases, vEnd) && Reached(sys, r, ConvertStates(c.bases, u2, vEnd, records))
    requires r1 == r + 1 && r2 == r1 + 1
    requires token == GetCommitment(c.setup, rnd, idx, ToInt(Parity(records)))
    ensures Reached(sys, r2, Begin(Answered(c, u2, vEnd, token)))
  {
    ConvertStock(c, d, vEnd);
    var M, k1, k2 := c.setup.M, c.K1(), c.K2();
    var ops := OpeningsOf(c.bases, M, k1, k2, c.v, vEnd, d, records);
    ConvertLeads(sys.prog, c.bases, M, k1, k2, c.v, vEnd, d, records, u2);
    ReachedNext(sys, r, r1, ConvertStates(c.bases, u2, vEnd, records), CertifyStates(c.bases, u2, vEnd, ops));
    FinishOpenings(c, d, vEnd, records, idx, rnd, ops);
    CommitLeads(sys.prog, c, u2, vEnd, ops, Opening(rnd, idx, ToInt(Parity(records))), token);
    ReachedNext(sys, r1, r2, CertifyStates(c.bases, u2, vEnd, ops), Begin(Answered(c, u2, vEnd, token)));
  }

  lemma {:induction false} FinishOpenings(c: Situation, d: nat, vEnd: nat, records: Bits, idx: nat, rnd: int,
                                          ops: seq<Opening>)
    requires BasesOk(c) && StockedD(c, d, vEnd) && Asks(c, idx, rnd) && |records| == |c.bases|
    requires ConvertReady(c.bases, c.setup.M, c.K1(), c.K2(), c.v, vEnd, d)
    requires ops == OpeningsOf(c.bases, c.setup.M, c.K1(), c.K2(), c.v, vEnd, d, records)
    ensures SameOpening(c.setup.M, SumOpening(ops), Opening(rnd, idx, ToInt(Parity(records))))
  {
    var len := c.K1() + c.K2();
    QueryShared(c, vEnd, idx, rnd, len);
    OpeningsSum(c.bases, c.setup.M, c.K1(), c.K2(), c.v, vEnd, d, records, len, idx, rnd, ops);
  }

  /** From the beginning of a query to the select layer: one round per layer. */
  lemma ExpandPhase(sys: Sys, c: Situation, w: nat, z: seq<nat>, t: Turn, last: nat, r: nat, r': nat)
    requires sys.prog == ServerProgram() && BasesOk(c) && Stocked(c, w) && z == QueryPlan(c.K1(), c.K2())
    requires t == TurnOf(c, w, z)
    requires TurnOk(t) && last == |z| - 1 && r' == r + last && Reached(sys, r, Begin(c.bases))
    ensures Reached(sys, r', ExpandAt(t, 0))
  {
    BeginAll(c, w, z, t, last);
    ExpandTo(sys, t, r, last, 0, r');
  }

  /** The run of a query's one-hot circuits leaves `outs`, from which the servers read shares of the
      one-hot vectors of `at1` and `at2`. */
  predicate RunReady(t: Turn, outs: seq<Option<Finished>>, db: Database, at1: nat, at2: nat) {
    && TurnOk(t) && 0 < |t.z| && outs == Done(t.ps, t.z, 0) && db.Valid()
    && (forall p :: 0 <= p < |t.bases| ==> t.bases[p].setup.db == db)
    && OneHotOut(t.src1, outs, Pow2(db.k1), at1) && OneHotOut(t.src2, outs, Pow2(db.k2), at2)
  }

  lemma ZeroLeads(prog: Code, t: Turn, outs: seq<Option<Finished>>, db: Database, at1: nat,
                  at2: nat, x: Choice)
    requires prog == ServerProgram() && RunReady(t, outs, db, at1, at2) && x == ChoiceOf(t, outs, db)
    ensures Leads(prog, ExpandAt(t, 0), Choosing(t.bases, x))
  {
    LayerZeroLeads(prog, t, 0, outs, db, at1, at2);
  }

  lemma SelectPhase(sys: Sys, t: Turn, outs: seq<Option<Finished>>, db: Database, at1: nat,
                    at2: nat, x: Choice, r: nat, r': nat)
    requires sys.prog == ServerProgram() && RunReady(t, outs, db, at1, at2) && x == ChoiceOf(t, outs, db)
    requires r' == r + 1 && Reached(sys, r, ExpandAt(t, 0))
    ensures Reached(sys, r', Choosing(t.bases, x))
  {
    ZeroLeads(sys.prog, t, outs, db, at1, at2, x);
    ReachedNext(sys, r, r', ExpandAt(t, 0), Choosing(t.bases, x));
  }

  /** The select round can take place, and its outputs share bit `idx` of the database. */
  predicate ChoiceRight(c: Situation, w: nat, x: Choice, u2: nat, idx: nat) {
    && c.setup.db.Valid() && idx < c.setup.db.Size()
    && ChoiceOk(x, c.bases) && TriplesFit(Storages(c.bases), w)
    && u2 == x.used + CeilDiv8(x.n) && 8 * u2 <= w && SelectReady(c.bases, x.used, x.n, CeilDiv8(x.n), w)
    && (forall p :: 0 <= p < |c.bases| ==> Pow2(c.bases[p].setup.db.k2) == x.n)
    && Parity(Records(c.bases, x, w, u2)) == c.setup.db.RecordBit(idx)
  }

  lemma ChoicePrepared(c: Situation, w: nat, z: seq<nat>, t: Turn, outs: seq<Option<Finished>>,
                       x: Choice, idx: nat, rnd: int, u2: nat)
    requires BasesOk(c) && Stocked(c, w) && z == QueryPlan(c.K1(), c.K2()) && t.bases == c.bases && t.u == c.u
    requires t.z == z
    requires |t.src1| == |t.src2| == |outs| == |c.bases| && Asks(c, idx, rnd) && u2 == c.u + QueryBytes(c.K1(), c.K2())
    requires OneHotOut(t.src1, outs, Pow2(c.K1()), XorAll(L1Values(c)))
    requires OneHotOut(t.src2, outs, Pow2(c.K2()), XorAll(L2Values(c)))
    requires x == ChoiceOf(t, outs, c.setup.db)
    ensures ChoiceRight(c, w, x, u2, idx)
  {
    SetupsSame(c);
    SelectStock(c, w, z, x, u2);
    RecordsRight(c, w, t, outs, c.setup.db, x, u2, idx, XorAll(L1Values(c)), XorAll(L2Values(c)));
  }

  lemma ConvertPhase(sys: Sys, c: Situation, w: nat, x: Choice, u2: nat, vEnd: nat, idx: nat,
                     r: nat, r': nat) returns (records: Bits)
    requires sys.prog == ServerProgram() && ChoiceRight(c, w, x, u2, idx) && AllConvertible(c.bases, vEnd)
    requires r' == r + 1 && Reached(sys, r, Choosing(c.bases, x))
    ensures |records| == |c.bases| && Parity(records) == c.setup.db.RecordBit(idx)
    ensures Reached(sys, r', ConvertStates(c.bases, u2, vEnd, records))
  {
    records := Records(c.bases, x, w, u2);
    ChoosingLeads(sys.prog, c, w, x, u2, vEnd, records);
    ReachedNext(sys, r, r', Choosing(c.bases, x), ConvertStates(c.bases, u2, vEnd, records));
  }

  /** The retrieval: after the round of layer 0 and that of the select layer, the servers hold shares
      of the record bit. */
  lemma RetrievePhase(sys: Sys, c: Situation, w: nat, t: Turn, outs: seq<Option<Finished>>,
                      at1: nat, at2: nat, x: Choice, idx: nat,
                      u2: nat, vEnd: nat, r: nat, r1: nat, r': nat) returns (records: Bits)
    requires sys.prog == ServerProgram() && RunReady(t, outs, c.setup.db, at1, at2)
    requires x == ChoiceOf(t, outs, c.setup.db)
    requires t.bases == c.bases && ChoiceRight(c, w, x, u2, idx) && AllConvertible(c.bases, vEnd)
    requires r1 == r + 1 && r' == r1 + 1 && Reached(sys, r, ExpandAt(t, 0))
    ensures |records| == |c.bases| && Parity(records) == c.setup.db.RecordBit(idx)
    ensures Reached(sys, r', ConvertStates(c.bases, u2, vEnd, records))
  {
    SelectPhase(sys, t, outs, c.setup.db, at1, at2, x, r, r1);
    records := ConvertPhase(sys, c, w, x, u2, vEnd, idx, r1, r');
  }

  lemma {:induction false} RunIsReady(c: Situation, w: nat, z: seq<nat>, t: Turn, outs: seq<Option<Finished>>)
    requires BasesOk(c) && Stocked(c, w) && z == QueryPlan(c.K1(), c.K2()) && t == TurnOf(c, w, z) && TurnOk(t)
    requires 0 < |z|
    requires outs == Done(t.ps, z, 0)
    ensures RunReady(t, outs, c.setup.db, XorAll(L1Values(c)), XorAll(L2Values(c)))
  {
    RunOutcome(c, w, z, t, outs);
    SetupsSame(c);
  }

  lemma ChoiceIsRight(c: Situation, w: nat, z: seq<nat>, t: Turn, outs: seq<Option<Finished>>,
                      x: Choice, idx: nat, rnd: int, u2: nat,
                      at1: nat, at2: nat)
    requires BasesOk(c) && Stocked(c, w) && z == QueryPlan(c.K1(), c.K2()) && t == TurnOf(c, w, z)
    requires RunReady(t, outs, c.setup.db, at1, at2) && at1 == XorAll(L1Values(c)) && at2 == XorAll(L2Values(c))
    requires x == ChoiceOf(t, outs, c.setup.db) && Asks(c, idx, rnd) && u2 == c.u + QueryBytes(c.K1(), c.K2())
    ensures ChoiceRight(c, w, x, u2, idx)
  {
    ChoicePrepared(c, w, z, t, outs, x, idx, rnd, u2);
  }

  /** Rounds of one query: one per layer, the select layer, the conversion, the commitment. */
  function QueryRounds(k1: nat, k2: nat): nat
    requires k1 >= 1 && k2 >= 1
  {
    |QueryPlan(k1, k2)| + 3
  }

  lemma RetrieveQuery(sys: Sys, c: Situation, w: nat, z: seq<nat>, t: Turn, idx: nat, rnd: int,
                      u2: nat, vEnd: nat, r: nat, r': nat)
      returns (records: Bits)
    requires sys.prog == ServerProgram() && BasesOk(c) && Stocked(c, w) && z == QueryPlan(c.K1(), c.K2())
    requires t == TurnOf(c, w, z)
    requires TurnOk(t) && 0 < |z| && AllConvertible(c.bases, vEnd) && Asks(c, idx, rnd)
    requires u2 == c.u + QueryBytes(c.K1(), c.K2())
    requires r' == r + |z| + 1 && Reached(sys, r, Begin(c.bases))
    ensures |records| == |c.bases| && Parity(records) == c.setup.db.RecordBit(idx)
    ensures Reached(sys, r', ConvertStates(c.bases, u2, vEnd, records))
  {
    var last := |z| - 1;
    var r0 := r + last;
    ExpandPhase(sys, c, w, z, t, last, r, r0);
    records := AfterRun(sys, c, w, z, t, idx, rnd, u2, vEnd, r0, r');
  }

  lemma AfterRun(sys: Sys, c: Situation, w: nat, z: seq<nat>, t: Turn, idx: nat, rnd: int, u2: nat,
                 vEnd: nat, r: nat, r': nat)
      returns (records: Bits)
    requires sys.prog == ServerProgram() && BasesOk(c) && Stocked(c, w) && z == QueryPlan(c.K1(), c.K2())
    requires t == TurnOf(c, w, z)
    requires TurnOk(t) && 0 < |z| && AllConvertible(c.bases, vEnd) && Asks(c, idx, rnd)
    requires u2 == c.u + QueryBytes(c.K1(), c.K2())
    requires r' == r + 2 && Reached(sys, r, ExpandAt(t, 0))
    ensures |records| == |c.bases| && Parity(records) == c.setup.db.RecordBit(idx)
    ensures Reached(sys, r', ConvertStates(c.bases, u2, vEnd, records))
  {
    var outs, at1, at2 := Done(t.ps, z, 0), XorAll(L1Values(c)), XorAll(L2Values(c));
    RunIsReady(c, w, z, t, outs);
    var x := ChoiceOf(t, outs, c.setup.db);
    ChoiceIsRight(c, w, z, t, outs, x, idx, rnd, u2, at1, at2);
    var r1 := r + 1;
    records := RetrievePhase(sys, c, w, t, outs, at1, at2, x, idx, u2, vEnd, r, r1, r');
  }

  lemma AllCanConvert(c: Situation, d: nat, vEnd: nat)
    requires BasesOk(c) && StockedD(c, d, vEnd)
    ensures AllConvertible(c.bases, vEnd)
  {
    ConvertStock(c, d, vEnd);
  }

  /** One query: after its rounds all servers have answered it, the constant party with exactly the
      client's commitment to the record's bit, and stand at the beginning of the next query with
      the planned randomness used. */
  lemma QueryAnswered(sys: Sys, c: Situation, w: nat, d: nat, idx: nat, rnd: int, u2: nat,
                      vEnd: nat, r: nat, r': nat, token: int)
    requires sys.prog == ServerProgram() && BasesOk(c) && Stocked(c, w) && StockedD(c, d, vEnd) && Asks(c, idx, rnd)
    requires u2 == c.u + QueryBytes(c.K1(), c.K2()) && r' == r + QueryRounds(c.K1(), c.K2())
    requires Reached(sys, r, Begin(c.bases))
    requires token == GetCommitment(c.setup, rnd, idx, ToInt(c.setup.db.RecordBit(idx)))
    ensures Reached(sys, r', Begin(Answered(c, u2, vEnd, token)))
  {
    var z := QueryPlan(c.K1(), c.K2());
    var t := TurnOf(c, w, z);
    TurnOfOk(c, w, z);
    AllCanConvert(c, d, vEnd);
    var r1 := r + |z| + 1;
    var r2 := r1 + 1;
    var records := RetrieveQuery(sys, c, w, z, t, idx, rnd, u2, vEnd, r, r1);
    FinishQuery(sys, c, d, u2, vEnd, records, idx, rnd, token, r1, r2, r');
  }

  /* ---------- the kind of every round ---------- */

  /** What a server in the middle of `job` exchanges is of kind `k`. */
  predicate JobFits(k: Kind, job: Job) {
    match k
    case BeaverExchange => job.Expand? || job.Select?
    case DabitExchange => job.Convert?
    case AggCommit => job.Certify?
  }

  /** Server `s` does broadcast, arrays of fewer than 2^32 bits or a commitment out of `M`. */
  predicate Sends(M: nat, s: Server) {
    match Emit(s)
    case Shares(b) => |b.u| == |b.v| < Wire.U32 && |b.u| % 8 == 0
    case Masked(e) => |e| < Wire.U32
    case Commitment(c) => 0 <= c < M
    case Silence => false
  }

  /** In round `r` all servers exchange messages of kind `k` that the wire can carry. */
  predicate AllJobs(sys: Sys, M: nat, r: nat, k: Kind) {
    AllSend(M, Lock(sys, r), k)
  }

  predicate AllSend(M: nat, states: seq<Server>, k: Kind) {
    forall p :: 0 <= p < |states| ==> JobFits(k, states[p].job) && Sends(M, states[p])
  }

  lemma JobsFit(sys: Sys, M: nat, r: nat, states: seq<Server>, k: Kind)
    requires Reached(sys, r, states) && AllSend(M, states, k)
    ensures AllJobs(sys, M, r, k)
  {
  }

  /** A layer that can be exchanged is broadcast. */
  lemma LayerSends(M: nat, s: Server, isConst: bool, g: Gates, l: nat, prev: Option<Finished>,
                   ss: Streams, t: Triple, w: nat)
    requires ExchangeOk(s, isConst, g, l, prev, ss, t, w) && w < Wire.U32
    requires Emit(s) == EmitLayer(s, g, l, prev)
    ensures Sends(M, s)
  {
    assert w % 8 == 0;
  }

  lemma ExpandSends(M: nat, t: Turn, l: nat, p: nat, prevs: seq<Option<Finished>>)
    requires TurnOk(t) && l < |t.z| && 8 * t.z[l] < Wire.U32 && p < |t.bases| && Ready(t.ps, l + 1, prevs)
    ensures JobFits(BeaverExchange, ExpandState(t, l, p, prevs[p]).job) && Sends(M, ExpandState(t, l, p, prevs[p]))
  {
    assert Shaped(t.ps[p], t.z);
    assert t.ps[p].circuit[..l + 1][l] == t.ps[p].circuit[l];
    ExpandPoint(t, l, p, prevs);
    LayerSends(M, ExpandState(t, l, p, prevs[p]), p == 0, GatesAt(t, l)[p], l, prevs[p],
               StreamsAt(t.ps, t.z, l, prevs)[p], TriplesAt(t.ps, t.z, l)[p], 8 * t.z[l]);
  }

  lemma ExpandAllSend(M: nat, t: Turn, l: nat, prevs: seq<Option<Finished>>)
    requires TurnOk(t) && l < |t.z| && 8 * t.z[l] < Wire.U32 && Ready(t.ps, l + 1, prevs)
    ensures AllSend(M, ExpandStates(t, l, prevs), BeaverExchange)
  {
    var states := ExpandStates(t, l, prevs);
    forall p | 0 <= p < |states| ensures JobFits(BeaverExchange, states[p].job) && Sends(M, states[p]) {
      ExpandSends(M, t, l, p, prevs);
    }
  }

  /** The outputs below layer `l` are there. */
  lemma {:induction false} PrevsReady(t: Turn, l: nat, prevs: seq<Option<Finished>>)
    requires TurnOk(t) && l < |t.z| && prevs == Done(t.ps, t.z, l + 1)
    ensures Ready(t.ps, l + 1, prevs) && |prevs| == |t.bases| && ExpandAt(t, l) == ExpandStates(t, l, prevs)
  {
    DoneReady(t.ps, t.z, l + 1);
  }

  lemma ExpandJobs(M: nat, t: Turn, l: nat)
    requires TurnOk(t) && l < |t.z| && 8 * t.z[l] < Wire.U32
    ensures AllSend(M, ExpandAt(t, l), BeaverExchange)
  {
    var prevs := Done(t.ps, t.z, l + 1);
    PrevsReady(t, l, prevs);
    ExpandAllSend(M, t, l, prevs);
  }

  lemma ChoosingSends(M: nat, bases: seq<Server>, x: Choice, size: nat, w: nat, p: nat)
    requires ChoiceOk(x, bases) && SelectReady(bases, x.used, x.n, size, w) && 8 * size < Wire.U32 && p < |bases|
    ensures Choosing(bases, x)[p].job.Select? && Sends(M, Choosing(bases, x)[p])
  {
    var s, ans, ohe := bases[p], x.answers[p], x.ohes[p];
    assert Storages(bases)[p] == s.triples;
    var t := Slice(s.triples, x.used, x.used + size);
    SelectExchange(s, x.used, ans, ohe, x.n, size, p == 0, t);
    LayerSends(M, SelectState(s, x.used, ans, ohe), p == 0, SelectGates(ans, ohe), 0, None,
               StreamsFor(SelectGates(ans, ohe), 0, None), t, 8 * size);
  }

  lemma ChoosingJobs(sys: Sys, M: nat, bases: seq<Server>, x: Choice, size: nat, w: nat, r: nat)
    requires ChoiceOk(x, bases) && SelectReady(bases, x.used, x.n, size, w) && 8 * size < Wire.U32
    requires Reached(sys, r, Choosing(bases, x))
    ensures AllJobs(sys, M, r, BeaverExchange)
  {
    forall p | 0 <= p < |bases| ensures Choosing(bases, x)[p].job.Select? && Sends(M, Choosing(bases, x)[p]) {
      ChoosingSends(M, bases, x, size, w, p);
    }
    JobsFit(sys, M, r, Choosing(bases, x), BeaverExchange);
  }

  lemma ConvertJobs(sys: Sys, M: nat, bases: seq<Server>, u2: nat, vEnd: nat, records: Bits, r: nat)
    requires |records| == |bases| && AllConvertible(bases, vEnd)
    requires Reached(sys, r, ConvertStates(bases, u2, vEnd, records))
    ensures AllJobs(sys, M, r, DabitExchange)
  {
    var states := ConvertStates(bases, u2, vEnd, records);
    forall p | 0 <= p < |states| ensures JobFits(DabitExchange, states[p].job) && Sends(M, states[p]) {
      assert Convertible(bases[p], vEnd);
    }
    JobsFit(sys, M, r, states, DabitExchange);
  }

  lemma CertifyJobs(sys: Sys, M: Modulus, bases: seq<Server>, u2: nat, vEnd: nat, ops: seq<Opening>, r: nat)
    requires |ops| == |bases| && Reached(sys, r, CertifyStates(bases, u2, vEnd, ops))
    requires forall p :: 0 <= p < |bases| ==> bases[p].setup.M == M
    ensures AllJobs(sys, M, r, AggCommit)
  {
    JobsFit(sys, M, r, CertifyStates(bases, u2, vEnd, ops), AggCommit);
  }

  /** The rounds of the one-hot layers. */
  lemma LayerRounds(sys: Sys, c: Situation, w: nat, z: seq<nat>, t: Turn, last: nat, r: nat, l: nat,
                    r': nat)
    requires sys.prog == ServerProgram() && BasesOk(c) && Stocked(c, w) && z == QueryPlan(c.K1(), c.K2())
    requires t == TurnOf(c, w, z)
    requires TurnOk(t) && l <= last == |z| - 1 && r' == r + (last - l) && Reached(sys, r, Begin(c.bases))
    ensures AllJobs(sys, c.setup.M, r', BeaverExchange)
  {
    BeginAll(c, w, z, t, last);
    ExpandTo(sys, t, r, last, l, r');
    MessagesFit(c.K1(), c.K2(), l);
    ExpandJobs(c.setup.M, t, l);
    JobsFit(sys, c.setup.M, r', ExpandAt(t, l), BeaverExchange);
  }

  /** The round of the select layer. */
  lemma SelectRoundJobs(sys: Sys, M: nat, t: Turn, outs: seq<Option<Finished>>, db: Database, at1: nat,
                        at2: nat, x: Choice, size: nat, w: nat, r: nat, r': nat)
    requires sys.prog == ServerProgram() && RunReady(t, outs, db, at1, at2) && x == ChoiceOf(t, outs, db)
    requires SelectReady(t.bases, x.used, x.n, size, w) && 8 * size < Wire.U32
    requires r' == r + 1 && Reached(sys, r, ExpandAt(t, 0))
    ensures AllJobs(sys, M, r', BeaverExchange)
  {
    SelectPhase(sys, t, outs, db, at1, at2, x, r, r');
    ChoosingJobs(sys, M, t.bases, x, size, w, r');
  }

  lemma SelectRound(sys: Sys, c: Situation, w: nat, z: seq<nat>, t: Turn, last: nat, r: nat,
                    r0: nat, r': nat)
    requires sys.prog == ServerProgram() && BasesOk(c) && Stocked(c, w) && z == QueryPlan(c.K1(), c.K2())
    requires t == TurnOf(c, w, z)
    requires TurnOk(t) && 0 < |z| && last == |z| - 1 && r0 == r + last && r' == r0 + 1
    requires Reached(sys, r, Begin(c.bases))
    ensures AllJobs(sys, c.setup.M, r', BeaverExchange)
  {
    ExpandPhase(sys, c, w, z, t, last, r, r0);
    var outs := Done(t.ps, z, 0);
    RunIsReady(c, w, z, t, outs);
    MessagesFit(c.K1(), c.K2(), 0);
    var x, u2 := ChoiceOf(t, outs, c.setup.db), c.u + QueryBytes(c.K1(), c.K2());
    SelectStock(c, w, z, x, u2);
    SelectRoundJobs(sys, c.setup.M, t, outs, c.setup.db, XorAll(L1Values(c)), XorAll(L2Values(c)), x,
                    CeilDiv8(x.n), w, r0, r');
  }

  /** The rounds of the conversion and of the commitment. */
  lemma LastRounds(sys: Sys, c: Situation, d: nat, u2: nat, vEnd: nat, records: Bits, r: nat,
                   r1: nat)
    requires sys.prog == ServerProgram() && BasesOk(c) && StockedD(c, d, vEnd) && |records| == |c.bases|
    requires AllConvertible(c.bases, vEnd) && Reached(sys, r, ConvertStates(c.bases, u2, vEnd, records)) && r1 == r + 1
    ensures AllJobs(sys, c.setup.M, r, DabitExchange) && AllJobs(sys, c.setup.M, r1, AggCommit)
  {
    ConvertJobs(sys, c.setup.M, c.bases, u2, vEnd, records, r);
    ConvertStock(c, d, vEnd);
    var M, k1, k2 := c.setup.M, c.K1(), c.K2();
    var ops := OpeningsOf(c.bases, M, k1, k2, c.v, vEnd, d, records);
    ConvertLeads(sys.prog, c.bases, M, k1, k2, c.v, vEnd, d, records, u2);
    ReachedNext(sys, r, r1, ConvertStates(c.bases, u2, vEnd, records), CertifyStates(c.bases, u2, vEnd, ops));
    SetupsSame(c);
    CertifyJobs(sys, M, c.bases, u2, vEnd, ops, r1);
  }

  /** The kinds of the rounds of one query. */
  function QuerySched(layers: nat): (r: seq<Kind>)
    ensures |r| == layers + 3
    ensures forall i :: 0 <= i < |r| ==>
              r[i] == if i <= layers then BeaverExchange else if i == layers + 1 then DabitExchange else AggCommit
  {
    seq(layers + 1, i => BeaverExchange) + [DabitExchange, AggCommit]
  }

  lemma EarlyKinds(sys: Sys, c: Situation, w: nat, z: seq<nat>, t: Turn, r: nat, i: nat, r': nat)
    requires sys.prog == ServerProgram() && BasesOk(c) && Stocked(c, w) && z == QueryPlan(c.K1(), c.K2())
    requires t == TurnOf(c, w, z)
    requires TurnOk(t) && 0 < |z| && i <= |z| && r' == r + i && Reached(sys, r, Begin(c.bases))
    ensures AllJobs(sys, c.setup.M, r', BeaverExchange)
  {
    var last := |z| - 1;
    if i < |z| {
      var l := last - i;
      LayerRounds(sys, c, w, z, t, last, r, l, r');
    } else {
      var r0 := r + last;
      SelectRound(sys, c, w, z, t, last, r, r0, r');
    }
  }

  lemma AnyKinds(sys: Sys, c: Situation, w: nat, d: nat, z: seq<nat>, t: Turn, idx: nat, rnd: int,
                 vEnd: nat, r: nat, i: nat, r': nat)
    requires sys.prog == ServerProgram() && BasesOk(c) && Stocked(c, w) && StockedD(c, d, vEnd) && Asks(c, idx, rnd)
    requires z == QueryPlan(c.K1(), c.K2()) && t == TurnOf(c, w, z) && TurnOk(t) && 0 < |z|
    requires AllConvertible(c.bases, vEnd)
    requires i < |z| + 3 && r' == r + i && Reached(sys, r, Begin(c.bases))
    ensures i <= |z| ==> AllJobs(sys, c.setup.M, r', BeaverExchange)
    ensures i == |z| + 1 ==> AllJobs(sys, c.setup.M, r', DabitExchange)
    ensures i == |z| + 2 ==> AllJobs(sys, c.setup.M, r', AggCommit)
  {
    if i <= |z| {
      EarlyKinds(sys, c, w, z, t, r, i, r');
    } else if i == |z| + 1 {
      var r2 := r' + 1;
      LateKinds(sys, c, w, d, z, t, idx, rnd, vEnd, r, r', r2);
    } else {
      var r1 := r' - 1;
      LateKinds(sys, c, w, d, z, t, idx, rnd, vEnd, r, r1, r');
    }
  }

  /** In every round of a query all servers exchange what the schedule says. */
  lemma QueryKinds(sys: Sys, c: Situation, w: nat, d: nat, idx: nat, rnd: int, vEnd: nat, r: nat,
                   i: nat, r': nat)
    requires sys.prog == ServerProgram() && BasesOk(c) && Stocked(c, w) && StockedD(c, d, vEnd) && Asks(c, idx, rnd)
    requires i < QueryRounds(c.K1(), c.K2()) && r' == r + i && Reached(sys, r, Begin(c.bases))
    ensures AllJobs(sys, c.setup.M, r', QuerySched(|QueryPlan(c.K1(), c.K2())|)[i])
  {
    var z := QueryPlan(c.K1(), c.K2());
    var t := TurnOf(c, w, z);
    TurnOfOk(c, w, z);
    AllCanConvert(c, d, vEnd);
    AnyKinds(sys, c, w, d, z, t, idx, rnd, vEnd, r, i, r');
  }

  lemma LateKinds(sys: Sys, c: Situation, w: nat, d: nat, z: seq<nat>, t: Turn, idx: nat, rnd: int,
                  vEnd: nat, r: nat, r1: nat, r2: nat)
    requires sys.prog == ServerProgram() && BasesOk(c) && Stocked(c, w) && StockedD(c, d, vEnd) && Asks(c, idx, rnd)
    requires z == QueryPlan(c.K1(), c.K2()) && t == TurnOf(c, w, z) && TurnOk(t) && 0 < |z|
    requires AllConvertible(c.bases, vEnd)
    requires r1 == r + |z| + 1 && r2 == r1 + 1 && Reached(sys, r, Begin(c.bases))
    ensures AllJobs(sys, c.setup.M, r1, DabitExchange) && AllJobs(sys, c.setup.M, r2, AggCommit)
  {
    var u2 := c.u + QueryBytes(c.K1(), c.K2());
    var records := RetrieveQuery(sys, c, w, z, t, idx, rnd, u2, vEnd, r, r1);
    LastRounds(sys, c, d, u2, vEnd, records, r1, r2);
  }
}
