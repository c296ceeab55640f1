/** One server working off its queries: what it broadcasts in every round of the protocol, and how it
    continues from what its peers sent. A failed assertion anywhere leaves it `Panicked`. */
module Party {
  import opened Bits
  import opened Folds
  import opened Circuit
  import opened OneHot
  import opened AndLayer
  import opened Evaluation
  import opened Beaver
  import opened Conversion
  import opened Retrieval
  import opened Sharing
  import opened Commitments
  import opened Rounds

  type Modulus = m: nat | m > 0 witness 1

  /** What one server is sent: its shares of the two halves of the index, and of the randomness. */
  datatype Query = Query(l1: BooleanValue, l2: BooleanValue, rnd: int)

  datatype Setup = Setup(M: Modulus, gens: Generators, db: Database)

  /** What a server is in the middle of, when it is about to broadcast. */
  datatype Job =
    | Expand(layers: seq<Gates>, prev: Option<Finished>, src1: Source, src2: Source)
    | Select(gates: Gates)
    | Convert(bvs: seq<BooleanValue>, ds: seq<DaBit>)
    | Certify(commit: int)
    | Idle
    | Panicked

  /** `queries` are those still to answer, the current one first; `tokens` what was signed so far. */
  datatype Server = Server(setup: Setup, isConst: bool, triples: Triple, dabits: seq<DaBit>,
                           usedB: nat, usedD: nat, queries: seq<Query>, tokens: seq<Option<int>>, job: Job)

  datatype Payload = Shares(m: Blinded) | Masked(e: Bits) | Commitment(c: int) | Silence

  function Fail(s: Server): Server { s.(job := Panicked) }

  /* ---------- exchanging a layer ---------- */

  /** `zeros` and `take` succeed for a layer of `size` bytes. */
  predicate CanTake(s: Server, size: nat) {
    size > 0 && TripleFits(s.triples, |s.triples.a|) && 8 * (s.usedB + size) <= |s.triples.a|
  }

  /** No assertion fails up to the broadcast of the layer. */
  predicate LayerRunnable(s: Server, g: Gates, l: nat, prev: Option<Finished>) {
    AllRunnable(g.ops, l, g.size, BelowOf(prev)) && CanTake(s, g.size)
  }

  function Taken(s: Server, size: nat): (t: Triple)
    requires CanTake(s, size)
    ensures TripleFits(t, 8 * size)
  {
    Slice(s.triples, s.usedB, s.usedB + size)
  }

  function OwnBlind(s: Server, g: Gates, l: nat, prev: Option<Finished>): (m: Blinded)
    requires LayerRunnable(s, g, l, prev)
    ensures BlindedFits(m, 8 * g.size)
  {
    Blind(StreamsFor(g, l, prev), Taken(s, g.size))
  }

  function ShareOf(m: Payload): Blinded { if m.Shares? then m.m else Blinded([], []) }

  function SharesOf(inbox: seq<Payload>): (r: seq<Blinded>)
    ensures |r| == |inbox| && forall i :: 0 <= i < |r| ==> r[i] == ShareOf(inbox[i])
  {
    Map(ShareOf, inbox)
  }

  /** Everything received is a pair of arrays of `w` bits. */
  predicate AllShares(inbox: seq<Payload>, w: nat) {
    forall m :: m in inbox ==> m.Shares? && BlindedFits(m.m, w)
  }

  lemma SharesFit(inbox: seq<Payload>, w: nat)
    requires AllShares(inbox, w)
    ensures InboxFits(SharesOf(inbox), w)
  {
    forall b | b in SharesOf(inbox) ensures |b.u| == w && |b.v| == w {
      var i :| 0 <= i < |inbox| && SharesOf(inbox)[i] == b;
      assert inbox[i] in inbox;
    }
  }

  /** The Z stream of the layer, or nothing if a share does not fit. */
  function AfterLayer(s: Server, g: Gates, l: nat, prev: Option<Finished>, inbox: seq<Payload>): (r: Option<Bits>)
    ensures r.Some? ==> |r.value| == 8 * g.size
  {
    if !LayerRunnable(s, g, l, prev) || !AllShares(inbox, 8 * g.size) then None
    else
      SharesFit(inbox, 8 * g.size);
      Some(FinishZ(s.isConst, StreamsFor(g, l, prev), Recons(OwnBlind(s, g, l, prev), SharesOf(inbox)),
                   Taken(s, g.size).c))
  }

  /* ---------- the steps of a query ---------- */

  /** `rec_retrieve` up to its first exchange: both one-hot circuits. */
  function BeginQuery(s: Server): Server {
    if |s.queries| == 0 then s.(job := Idle)
    else
      var q := s.queries[0];
      if q.l1.bitLen == 0 || q.l2.bitLen == 0 then Fail(s)
      else
        var c1 := Ohe([], 0, q.l1.bitLen, q.l1.value, s.isConst);
        var c2 := Ohe(c1.0, 0, q.l2.bitLen, q.l2.value, s.isConst);
        NextLayer(s, c2.0, None, c1.1, c2.1)
  }

  /** `run` pops the next layer, or ends. */
  function NextLayer(s: Server, layers: seq<Gates>, prev: Option<Finished>, src1: Source, src2: Source): Server {
    if |layers| > 0 then s.(job := Expand(layers, prev, src1, src2)) else BeginSelect(s, prev, src1, src2)
  }

  function AfterExpand(s: Server, inbox: seq<Payload>): Server
    requires s.job.Expand?
  {
    if |s.job.layers| == 0 then Fail(s)
    else
      var l := |s.job.layers| - 1;
      var g := s.job.layers[l];
      match AfterLayer(s, g, l, s.job.prev, inbox)
      case None => Fail(s)
      case Some(z) =>
        NextLayer(s.(usedB := s.usedB + g.size), s.job.layers[..l], Some(Finished(l, z)), s.job.src1, s.job.src2)
  }

  /** Level one of the retrieval, on the outputs of the one-hot circuits. */
  function BeginSelect(s: Server, out: Option<Finished>, src1: Source, src2: Source): Server {
    var db := s.setup.db;
    if !SourceOk(src1, BelowOf(out)) || !SourceOk(src2, BelowOf(out)) then Fail(s)
    else
      var ohe1, ohe2 := Extract(src1, out), Extract(src2, out);
      if !db.Valid() || ohe1.size != Pow2(db.k1) || ohe2.size != Pow2(db.k2) then Fail(s)
      else s.(job := Select(SelectGates(Padded(Lvl1Data(db.rows, ohe1.Data())), ohe2)))
  }

  /** Level two: the parity of the select layer's output. */
  function AfterSelect(s: Server, inbox: seq<Payload>): Server
    requires s.job.Select?
  {
    match AfterLayer(s, s.job.gates, 0, None, inbox)
    case None => Fail(s)
    case Some(z) =>
      var t := Ticket(0, 0, Pow2(s.setup.db.k2));
      if !TicketFits(t, 0, |z| / 8) then Fail(s)
      else BeginConvert(s.(usedB := s.usedB + s.job.gates.size), Parity(ReadOutput(Finished(0, z), t).bits))
  }

  /** The values to convert: the joined index and the record bit. */
  function ToConvert(q: Query, record: bool): (r: seq<BooleanValue>)
    requires q.l1.bitLen < 32 && q.l1.bitLen + q.l2.bitLen <= 32
    ensures |r| == 2 && r[0] == JoinBoolean(q.l1, q.l2) && r[1] == BooleanValue(1, if record then 1 else 0)
    ensures TotalBits(r) == q.l1.bitLen + q.l2.bitLen + 1
  {
    var r := [JoinBoolean(q.l1, q.l2), BooleanValue(1, if record then 1 else 0)];
    TwoValues(r);
    r
  }

  lemma {:induction false} TwoValues(bvs: seq<BooleanValue>)
    requires |bvs| == 2
    ensures TotalBits(bvs) == bvs[0].bitLen + bvs[1].bitLen
    ensures Offset(bvs, 0) == 0 && Offset(bvs, 1) == bvs[0].bitLen
  {
    assert bvs[..0] == [] && bvs[..1] == [bvs[0]] && bvs[..1][..0] == [];
    assert TotalBits(bvs[..1]) == bvs[0].bitLen;
  }

  function BeginConvert(s: Server, record: bool): Server {
    if |s.queries| == 0 || s.queries[0].l1.bitLen >= 32 || s.queries[0].l1.bitLen + s.queries[0].l2.bitLen > 32
    then Fail(s)
    else
      var bvs := ToConvert(s.queries[0], record);
      var w := TotalBits(bvs);
      if !bvs[0].Valid() || s.usedD + w > |s.dabits| then Fail(s)
      else s.(usedD := s.usedD + w, job := Convert(bvs, s.dabits[s.usedD..s.usedD + w]))
  }

  function MaskedOf(m: Payload): Bits { if m.Masked? then m.e else [] }

  function MaskedsOf(inbox: seq<Payload>): (r: seq<Bits>)
    ensures |r| == |inbox| && forall i :: 0 <= i < |r| ==> r[i] == MaskedOf(inbox[i])
  {
    Map(MaskedOf, inbox)
  }

  predicate AllMasked(inbox: seq<Payload>, w: nat) { forall m :: m in inbox ==> m.Masked? && |m.e| == w }

  lemma MaskedFit(inbox: seq<Payload>, w: nat)
    requires AllMasked(inbox, w)
    ensures AllLong(MaskedsOf(inbox), w)
  {
    forall b | b in MaskedsOf(inbox) ensures |b| == w {
      var i :| 0 <= i < |inbox| && MaskedsOf(inbox)[i] == b;
      assert inbox[i] in inbox;
    }
  }

  /** The conversion, and the commitment to what it yields. */
  function AfterConvert(s: Server, inbox: seq<Payload>): Server
    requires s.job.Convert?
  {
    var bvs, ds, M := s.job.bvs, s.job.ds, s.setup.M;
    if |bvs| != 2 || |ds| != TotalBits(bvs) || |inbox| == 0 || !AllMasked(inbox, |ds|) || |s.queries| == 0 then Fail(s)
    else
      MaskedFit(inbox, |ds|);
      var arith := ArithShares(M, s.isConst, bvs, XorIn(BlindBits(bvs, ds), MaskedsOf(inbox)), ds);
      s.(job := Certify(Commit(M, s.setup.gens, Opening(s.queries[0].rnd, arith[0], arith[1]))))
  }

  function CommitOf(m: Payload): int { if m.Commitment? then m.c else 0 }

  function CommitsOf(inbox: seq<Payload>): (r: seq<int>)
    ensures |r| == |inbox| && forall i :: 0 <= i < |r| ==> r[i] == CommitOf(inbox[i])
  {
    Map(CommitOf, inbox)
  }

  predicate AllCommits(inbox: seq<Payload>) { forall m :: m in inbox ==> m.Commitment? }

  /** `aggregate_commitments`; only the constant party gets a commitment to sign. */
  function AfterCertify(s: Server, inbox: seq<Payload>): Server
    requires s.job.Certify?
  {
    if !AllCommits(inbox) || |s.queries| == 0 then Fail(s)
    else
      var agg := if s.isConst then Some(Aggregate(s.setup.M, CommitsOf(inbox) + [s.job.commit])) else None;
      BeginQuery(s.(tokens := s.tokens + [agg], queries := s.queries[1..]))
  }

  /* ---------- the server as the code of a party ---------- */

  function EmitLayer(s: Server, g: Gates, l: nat, prev: Option<Finished>): Payload {
    if LayerRunnable(s, g, l, prev) then Shares(OwnBlind(s, g, l, prev)) else Silence
  }

  /** What the server broadcasts. */
  function Emit(s: Server): Payload {
    match s.job
    case Expand(layers, prev, _, _) =>
      if |layers| == 0 then Silence else EmitLayer(s, layers[|layers| - 1], |layers| - 1, prev)
    case Select(g) => EmitLayer(s, g, 0, None)
    case Convert(bvs, ds) => if |ds| == TotalBits(bvs) then Masked(BlindBits(bvs, ds)) else Silence
    case Certify(c) => Commitment(c)
    case Idle => Silence
    case Panicked => Silence
  }

  /** How it continues from what its peers sent. */
  function Absorb(s: Server, inbox: seq<Payload>): Server {
    match s.job
    case Expand(_, _, _, _) => AfterExpand(s, inbox)
    case Select(_) => AfterSelect(s, inbox)
    case Convert(_, _) => AfterConvert(s, inbox)
    case Certify(_) => AfterCertify(s, inbox)
    case Idle => s
    case Panicked => s
  }

  function ServerProgram(): Program<Server, Payload> { Program(Emit, Absorb) }

  /* ---------- the order of arrival does not matter ---------- */

  lemma SameMembers<T>(a: seq<T>, b: seq<T>)
    requires multiset(a) == multiset(b)
    ensures |a| == |b| && forall m :: m in a <==> m in b
  {
    assert |multiset(a)| == |multiset(b)|;
    forall m ensures m in a <==> m in b { assert m in multiset(a) <==> m in multiset(b); }
  }

  lemma SharesAnyOrder(own: Blinded, a: seq<Payload>, b: seq<Payload>, w: nat)
    requires BlindedFits(own, w) && AllShares(a, w) && multiset(a) == multiset(b)
    ensures InboxFits(SharesOf(a), w) && InboxFits(SharesOf(b), w)
    ensures Recons(own, SharesOf(a)) == Recons(own, SharesOf(b))
  {
    SharesFit(a, w);
    MapPerm(ShareOf, a, b);
    ReconsAnyOrder(own, SharesOf(a), SharesOf(b));
  }

  lemma LayerAnyOrder(s: Server, g: Gates, l: nat, prev: Option<Finished>, a: seq<Payload>,
                      b: seq<Payload>)
    requires multiset(a) == multiset(b)
    ensures AfterLayer(s, g, l, prev, a) == AfterLayer(s, g, l, prev, b)
  {
    SameMembers(a, b);
    if LayerRunnable(s, g, l, prev) && AllShares(a, 8 * g.size) {
      SharesAnyOrder(OwnBlind(s, g, l, prev), a, b, 8 * g.size);
    }
  }

  lemma ConvertAnyOrder(s: Server, a: seq<Payload>, b: seq<Payload>)
    requires multiset(a) == multiset(b) && s.job.Convert?
    ensures AfterConvert(s, a) == AfterConvert(s, b)
  {
    SameMembers(a, b);
    var bvs, ds := s.job.bvs, s.job.ds;
    if |ds| == TotalBits(bvs) && AllMasked(a, |ds|) {
      MaskedFit(a, |ds|);
      MapPerm(MaskedOf, a, b);
      XorInAnyOrder(BlindBits(bvs, ds), MaskedsOf(a), MaskedsOf(b));
    }
  }

  lemma CertifyAnyOrder(s: Server, a: seq<Payload>, b: seq<Payload>)
    requires multiset(a) == multiset(b) && s.job.Certify?
    ensures AfterCertify(s, a) == AfterCertify(s, b)
  {
    SameMembers(a, b);
    MapPerm(CommitOf, a, b);
    AggregateAnyOrder(s.setup.M, CommitsOf(a) + [s.job.commit], CommitsOf(b) + [s.job.commit]);
  }

  lemma AbsorbAnyOrder(s: Server, a: seq<Payload>, b: seq<Payload>)
    requires multiset(a) == multiset(b)
    ensures Absorb(s, a) == Absorb(s, b)
  {
    match s.job
    case Expand(layers, prev, _, _) =>
      if |layers| > 0 { LayerAnyOrder(s, layers[|layers| - 1], |layers| - 1, prev, a, b); }
    case Select(g) => LayerAnyOrder(s, g, 0, None, a, b);
    case Convert(_, _) => ConvertAnyOrder(s, a, b);
    case Certify(_) => CertifyAnyOrder(s, a, b);
    case Idle =>
    case Panicked =>
  }

  /** A server never looks at the order in which a round's messages arrived. */
  lemma ServerOrderFree()
    ensures OrderFree(ServerProgram())
  {
    forall s: Server, a: seq<Payload>, b: seq<Payload> | multiset(a) == multiset(b)
      ensures ServerProgram().absorb(s, a) == ServerProgram().absorb(s, b)
    {
      AbsorbAnyOrder(s, a, b);
    }
  }
}
