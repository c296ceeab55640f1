/** The whole system: dealer, client requests and servers, over every interleaving of messages. */
module EndToEnd {
  import opened Bits
  import opened Scalars
  import opened Circuit
  import opened AndLayer
  import opened Beaver
  import opened Conversion
  import opened Retrieval
  import opened Sharing
  import opened Commitments
  import opened Budget
  import opened Rounds
  import opened Party
  import opened Lockstep
  import opened Answering
  import opened Certifying
  import opened Protocol
  import DaBits
  import Wire

  /** A client's request: the index, its commitment randomness, and what it draws for the shares. */
  datatype Request = Request(idx: nat, rnd: int, draws1: seq<nat>, draws2: seq<nat>, drawsR: seq<int>)

  /** Everything that is drawn or chosen: the dealer's and the other servers' randomness for
      `expected` queries, and the requests. */
  datatype World = World(setup: Setup, expected: nat, a: Bits, b: Bits, others: seq<Triple>,
                         vals: Bits, otherDs: seq<seq<DaBit>>, requests: seq<Request>) {
    function N(): nat { |others| + 1 }
    function K1(): nat { setup.db.k1 }
    function K2(): nat { setup.db.k2 }
    /** Bits of triples and daBits that `init_seeded_correlated_randomness` stores. */
    predicate Budgeted() {
      && expected * BeaverPerQuery(Pow2(K1()), Pow2(K2())) >= 0
      && |a| == |b| == 8 * StoredBytes(expected, K1(), K2()) && TriplesFit(others, |a|)
      && |vals| == expected * DABITS_PER_QUERY && |otherDs| == |others| && DaBitsFit(otherDs, |vals|)
    }
  }

  predicate RequestOk(w: World, q: Request) {
    q.idx < w.setup.db.Size() && |q.draws1| == |q.draws2| == |q.drawsR| == |w.others|
  }

  predicate WorldOk(w: World) {
    && Legal(w.setup) && |w.others| >= 1 && w.expected >= 1 && w.Budgeted() && |w.requests| <= w.expected
    && forall i :: 0 <= i < |w.requests| ==> RequestOk(w, w.requests[i])
  }

  /* ---------- what every server holds ---------- */

  function AllTriples(w: World): (r: seq<Triple>)
    requires WorldOk(w)
    ensures |r| == w.N() && GoodTriples(r, |w.a|)
  {
    Beaver.DealerDeals(w.a, w.b, w.others);
    [DealerShare(w.a, w.b, w.others)] + w.others
  }

  function AllDaBits(w: World): (r: seq<seq<DaBit>>)
    requires WorldOk(w)
    ensures |r| == w.N() && DaBitsFit(r, |w.vals|) && GoodDaBits(w.setup.M, r, |w.vals|)
  {
    DaBits.DealerDeals(w.setup.M, w.vals, w.otherDs);
    [DaBits.DealerDaBits(w.setup.M, w.vals, w.otherDs)] + w.otherDs
  }

  /** `query_all_servers`: the shares of one request. */
  function L1Shares(w: World, q: Request): (r: seq<BooleanValue>)
    requires WorldOk(w) && RequestOk(w, q)
    ensures |r| == w.N() && ValuesFit(r, w.K1())
  {
    IndexPath(w.setup.db, q.idx, q.draws1, q.draws2);
    ShareBoolean(L1Value(w.setup.db, q.idx), q.draws1)
  }

  function L2Shares(w: World, q: Request): (r: seq<BooleanValue>)
    requires WorldOk(w) && RequestOk(w, q)
    ensures |r| == w.N() && ValuesFit(r, w.K2())
  {
    IndexPath(w.setup.db, q.idx, q.draws1, q.draws2);
    ShareBoolean(L2Value(w.setup.db, q.idx), q.draws2)
  }

  function QueryFor(w: World, q: Request, p: nat): Query
    requires WorldOk(w) && RequestOk(w, q) && p < w.N()
  {
    Query(L1Shares(w, q)[p], L2Shares(w, q)[p], ShareArith(w.setup.M, q.rnd, q.drawsR)[p])
  }

  /** Every server but the last is sent what the client drew for it, cut to the lengths of the two halves. */
  lemma QueryIsDrawn(w: World, q: Request, p: nat)
    requires WorldOk(w) && RequestOk(w, q) && p < |w.others|
    ensures QueryFor(w, q, p).l1 == BooleanValue(w.K1(), q.draws1[p] % Pow2(w.K1()))
    ensures QueryFor(w, q, p).l2 == BooleanValue(w.K2(), q.draws2[p] % Pow2(w.K2()))
    ensures QueryFor(w, q, p).rnd == q.drawsR[p]
  {
    HalvesValid(w.setup.db, q.idx);
    SharesAreDraws(L1Value(w.setup.db, q.idx), q.draws1, p);
    SharesAreDraws(L2Value(w.setup.db, q.idx), q.draws2, p);
  }

  function QueriesFor(w: World, p: nat): (r: seq<Query>)
    requires WorldOk(w) && p < w.N()
    ensures |r| == |w.requests|
    ensures forall i :: 0 <= i < |r| ==> RequestOk(w, w.requests[i]) && r[i] == QueryFor(w, w.requests[i], p)
  {
    seq(|w.requests|, i requires 0 <= i < |w.requests| => QueryFor(w, w.requests[i], p))
  }

  /** The client's own commitment to the record it asked for. */
  function Expected(w: World, q: Request): int
    requires WorldOk(w) && RequestOk(w, q)
  {
    GetCommitment(w.setup, q.rnd, q.idx, ToInt(w.setup.db.RecordBit(q.idx)))
  }

  /** What server `p` has signed after the first `i` requests. */
  function Tokens(w: World, i: nat, p: nat): (r: seq<Option<int>>)
    requires WorldOk(w) && i <= |w.requests|
    ensures |r| == i
    ensures forall j :: 0 <= j < i ==> r[j] == if p == 0 then Some(Expected(w, w.requests[j])) else None
  {
    assert forall j :: 0 <= j < i ==> RequestOk(w, w.requests[j]);
    seq(i, j requires 0 <= j < i => if p == 0 then Some(Expected(w, w.requests[j])) else None)
  }

  /** Bytes of triples and daBits used after `i` requests. */
  function UsedB(w: World, i: nat): nat
    requires WorldOk(w)
  {
    Times(i, QueryBytes(w.K1(), w.K2()))
  }

  function UsedD(w: World, i: nat): nat
    requires WorldOk(w)
  {
    Times(i, QueryDaBits(w.K1(), w.K2()))
  }

  /** Server `p` between requests i - 1 and i. */
  function BaseAt(w: World, i: nat, p: nat): Server
    requires WorldOk(w) && i <= |w.requests| && p < w.N()
  {
    Server(w.setup, p == 0, AllTriples(w)[p], AllDaBits(w)[p], UsedB(w, i), UsedD(w, i), QueriesFor(w, p)[i..],
           Tokens(w, i, p), Idle)
  }

  function BasesAt(w: World, i: nat): (r: seq<Server>)
    requires WorldOk(w) && i <= |w.requests|
    ensures |r| == w.N() && forall p :: 0 <= p < |r| ==> r[p] == BaseAt(w, i, p)
  {
    seq(w.N(), p requires 0 <= p < w.N() => BaseAt(w, i, p))
  }

  function SituationAt(w: World, i: nat): Situation
    requires WorldOk(w) && i <= |w.requests|
  {
    Situation(w.setup, BasesAt(w, i), UsedB(w, i), UsedD(w, i))
  }

  /* ---------- every request meets what a query needs ---------- */

  lemma HeadQuery(w: World, i: nat, p: nat)
    requires WorldOk(w) && i < |w.requests| && p < w.N()
    ensures RequestOk(w, w.requests[i])
    ensures |BaseAt(w, i, p).queries| > 0 && BaseAt(w, i, p).queries[0] == QueryFor(w, w.requests[i], p)
  {
  }

  lemma BasesAreOk(w: World, i: nat)
    requires WorldOk(w) && i < |w.requests|
    ensures BasesOk(SituationAt(w, i))
  {
    var c := SituationAt(w, i);
    forall p | 0 <= p < |c.bases| ensures BaseOk(c.bases[p], c.setup, p == 0, c.u, c.v) {
      HeadQuery(w, i, p);
      assert ValuesFit(L1Shares(w, w.requests[i]), w.K1()) && ValuesFit(L2Shares(w, w.requests[i]), w.K2());
    }
  }

  lemma UsedNext(w: World, i: nat, i': nat)
    requires WorldOk(w) && i' == i + 1
    ensures UsedB(w, i') == UsedB(w, i) + QueryBytes(w.K1(), w.K2())
    ensures UsedD(w, i') == UsedD(w, i) + QueryDaBits(w.K1(), w.K2())
  {
  }

  /** The budget covers request `i`. */
  lemma BudgetCovers(w: World, i: nat, i': nat)
    requires WorldOk(w) && i < |w.requests| && i' == i + 1
    ensures 8 * UsedB(w, i') <= |w.a| && UsedD(w, i') <= |w.vals|
  {
    NeverExhausted(i, w.expected, w.K1(), w.K2());
    UsedNext(w, i, i');
    TimesIsProduct(i, QueryBytes(w.K1(), w.K2()));
    TimesIsProduct(i, QueryDaBits(w.K1(), w.K2()));
  }

  lemma Supplies(w: World, i: nat, i': nat)
    requires WorldOk(w) && i < |w.requests| && i' == i + 1 && BasesOk(SituationAt(w, i))
    ensures Stocked(SituationAt(w, i), |w.a|) && StockedD(SituationAt(w, i), |w.vals|, UsedD(w, i'))
  {
    BudgetCovers(w, i, i');
    UsedNext(w, i, i');
    assert Storages(BasesAt(w, i)) == AllTriples(w);
    assert DaStorages(BasesAt(w, i)) == AllDaBits(w);
  }

  lemma ValuesOfShares(w: World, i: nat)
    requires WorldOk(w) && i < |w.requests| && BasesOk(SituationAt(w, i)) && RequestOk(w, w.requests[i])
    ensures L1Values(SituationAt(w, i)) == Values(L1Shares(w, w.requests[i]))
    ensures L2Values(SituationAt(w, i)) == Values(L2Shares(w, w.requests[i]))
    ensures RndsOf(SituationAt(w, i)) == ShareArith(w.setup.M, w.requests[i].rnd, w.requests[i].drawsR)
  {
    forall p | 0 <= p < w.N()
      ensures |BaseAt(w, i, p).queries| > 0 && BaseAt(w, i, p).queries[0] == QueryFor(w, w.requests[i], p)
    {
      HeadQuery(w, i, p);
    }
  }

  lemma RequestAsks(w: World, i: nat)
    requires WorldOk(w) && i < |w.requests| && BasesOk(SituationAt(w, i)) && RequestOk(w, w.requests[i])
    ensures Asks(SituationAt(w, i), w.requests[i].idx, w.requests[i].rnd)
  {
    var q := w.requests[i];
    ValuesOfShares(w, i);
    HalvesValid(w.setup.db, q.idx);
    ShareBooleanCorrect(L1Value(w.setup.db, q.idx), q.draws1);
    ShareBooleanCorrect(L2Value(w.setup.db, q.idx), q.draws2);
    ShareArithCorrect(w.setup.M, q.rnd, q.drawsR);
  }

  /* ---------- request after request ---------- */

  lemma NextBaseIs(w: World, i: nat, i': nat, p: nat)
    requires WorldOk(w) && i < |w.requests| && i' == i + 1 && p < w.N() && RequestOk(w, w.requests[i])
    ensures |BaseAt(w, i, p).queries| > 0
    ensures NextBase(BaseAt(w, i, p), UsedB(w, i'), UsedD(w, i'),
                     if p == 0 then Some(Expected(w, w.requests[i])) else None)
         == BaseAt(w, i', p)
  {
    assert Tokens(w, i', p) == Tokens(w, i, p) + [if p == 0 then Some(Expected(w, w.requests[i])) else None];
    assert QueriesFor(w, p)[i..][1..] == QueriesFor(w, p)[i'..];
  }

  lemma AnsweredIsNext(w: World, i: nat, i': nat)
    requires WorldOk(w) && i < |w.requests| && i' == i + 1 && BasesOk(SituationAt(w, i)) && RequestOk(w, w.requests[i])
    ensures Answered(SituationAt(w, i), UsedB(w, i'), UsedD(w, i'), Expected(w, w.requests[i])) == BasesAt(w, i')
  {
    var a, b := Answered(SituationAt(w, i), UsedB(w, i'), UsedD(w, i'), Expected(w, w.requests[i])), BasesAt(w, i');
    forall p | 0 <= p < w.N() ensures a[p] == b[p] { NextBaseIs(w, i, i', p); }
  }

  /** One request: all servers go from before it to after it. */
  lemma RequestAnswered(sys: Sys, w: World, i: nat, i': nat, r: nat, r': nat)
    requires sys.prog == ServerProgram() && WorldOk(w) && i < |w.requests| && i' == i + 1
    requires r' == r + QueryRounds(w.K1(), w.K2())
    requires Reached(sys, r, Begin(BasesAt(w, i)))
    ensures Reached(sys, r', Begin(BasesAt(w, i')))
  {
    BasesAreOk(w, i);
    Supplies(w, i, i');
    RequestAsks(w, i);
    UsedNext(w, i, i');
    var q := w.requests[i];
    QueryAnswered(sys, SituationAt(w, i), |w.a|, |w.vals|, q.idx, q.rnd, UsedB(w, i'), UsedD(w, i'), r, r',
                  Expected(w, q));
    AnsweredIsNext(w, i, i');
  }

  lemma {:induction false} TimesNext(h: nat, i: nat, n: nat)
    requires i == h + 1
    ensures Times(i, n) == Times(h, n) + n
  {
  }

  lemma {:induction false} RequestsAnswered(sys: Sys, w: World, i: nat, r: nat)
    requires sys.prog == ServerProgram() && WorldOk(w) && i <= |w.requests| && sys.init == Begin(BasesAt(w, 0))
    requires r == Times(i, QueryRounds(w.K1(), w.K2()))
    ensures Reached(sys, r, Begin(BasesAt(w, i)))
    decreases i
  {
    if i > 0 {
      var h, n := i - 1, QueryRounds(w.K1(), w.K2());
      var r0 := Times(h, n);
      TimesNext(h, i, n);
      RequestsAnswered(sys, w, h, r0);
      RequestAnswered(sys, w, h, i, r0, r);
    }
  }

  /* ---------- the system ---------- */

  function Repeated(s: seq<Kind>, n: nat): (r: seq<Kind>)
    ensures |r| == Times(n, |s|)
  {
    if n == 0 then [] else Repeated(s, n - 1) + s
  }

  function Sched(w: World): (r: seq<Kind>)
    requires WorldOk(w)
    ensures |r| == Times(|w.requests|, QueryRounds(w.K1(), w.K2()))
  {
    Repeated(QuerySched(|QueryPlan(w.K1(), w.K2())|), |w.requests|)
  }

  function SystemOf(w: World): (sys: Sys)
    requires WorldOk(w)
    ensures |sys.init| == sys.n == w.N()
  {
    System(w.N(), Sched(w), ServerProgram(), Begin(BasesAt(w, 0)))
  }

  lemma {:induction false} RepeatedAt(s: seq<Kind>, n: nat, i: nat, j: nat, r: nat)
    requires i < n && j < |s| && r == Times(i, |s|) + j
    ensures r < Times(n, |s|) && Repeated(s, n)[r] == s[j]
    decreases n
  {
    if i < n - 1 { RepeatedAt(s, n - 1, i, j, r); }
  }

  /** In round `j` of request `i` all servers exchange messages of the scheduled kind. */
  lemma {:induction false} RoundKinds(w: World, sys: Sys, i: nat, j: nat, r0: nat, r: nat)
    requires WorldOk(w) && sys == SystemOf(w) && i < |w.requests| && j < QueryRounds(w.K1(), w.K2())
    requires r0 == Times(i, QueryRounds(w.K1(), w.K2())) && r == r0 + j
    ensures r < |Sched(w)| && AllJobs(sys, w.setup.M, r, Sched(w)[r])
  {
    RequestsAnswered(sys, w, i, r0);
    var i' := i + 1;
    BasesAreOk(w, i);
    Supplies(w, i, i');
    RequestAsks(w, i);
    var q := w.requests[i];
    QueryKinds(sys, SituationAt(w, i), |w.a|, |w.vals|, q.idx, q.rnd, UsedD(w, i'), r0, j, r);
    RepeatedAt(QuerySched(|QueryPlan(w.K1(), w.K2())|), |w.requests|, i, j, r);
  }

  lemma {:induction false} RoundParts(n: nat, m: nat, r: nat) returns (i: nat, j: nat)
    requires r < Times(n, m)
    ensures i < n && j < m && r == Times(i, m) + j
  {
    if r < Times(n - 1, m) {
      i, j := RoundParts(n - 1, m, r);
    } else {
      i, j := n - 1, r - Times(n - 1, m);
    }
  }

  /** The schedule is the servers' own: in every round, what they exchange is of the scheduled kind. */
  lemma ScheduleFollowed(w: World, r: nat)
    requires WorldOk(w) && r < |Sched(w)|
    ensures AllJobs(SystemOf(w), w.setup.M, r, Sched(w)[r])
  {
    var i, j := RoundParts(|w.requests|, QueryRounds(w.K1(), w.K2()), r);
    RoundKinds(w, SystemOf(w), i, j, Times(i, QueryRounds(w.K1(), w.K2())), r);
  }

  /** Every request takes as many rounds as the length of the longer half of an index can be halved, rounding up,
      and three more. */
  lemma RoundsNeeded(w: World)
    requires WorldOk(w)
    ensures |Sched(w)| == |w.requests| * (CeilLog2(w.K1()) + 3)
  {
    QueryDepth(w.K1(), w.K2());
    TimesIsProduct(|w.requests|, QueryRounds(w.K1(), w.K2()));
  }

  /** The steps of every finished run: in each of its rounds a server sends to and receives from every other
      one and finishes once. */
  lemma StepsNeeded(w: World)
    requires WorldOk(w)
    ensures TotalWork(SystemOf(w)) == w.N() * (|w.requests| * (CeilLog2(w.K1()) + 3) * (2 * (w.N() - 1) + 1))
  {
    RoundsNeeded(w);
    TimesIsProduct(|Sched(w)|, 2 * w.N() - 1);
    TimesIsProduct(w.N(), Times(|Sched(w)|, 2 * w.N() - 1));
  }

  lemma SystemIsOk(w: World)
    requires WorldOk(w)
    ensures SystemOk(SystemOf(w))
  {
    ServerOrderFree();
  }

  /** Where the lockstep execution ends: every server idle, with its tokens. */
  lemma LockstepEnds(w: World, p: nat)
    requires WorldOk(w) && p < w.N()
    ensures Lock(SystemOf(w), |Sched(w)|)[p].job == Idle
    ensures Lock(SystemOf(w), |Sched(w)|)[p].tokens == Tokens(w, |w.requests|, p)
  {
    RequestsAnswered(SystemOf(w), w, |w.requests|, |Sched(w)|);
    assert QueriesFor(w, p)[|w.requests|..] == [];
  }

  /** Every server is idle and has signed what it should, and nothing else. */
  predicate AllAnswered(w: World, net: Net<Server, Payload>)
    requires WorldOk(w) && net.Net? && |net.nodes| == w.N()
  {
    forall p :: 0 <= p < w.N() ==>
      net.nodes[p].local.job == Idle && net.nodes[p].local.tokens == Tokens(w, |w.requests|, p)
  }

  lemma EndsAnswered(w: World, sys: Sys, rounds: nat, net: Net<Server, Payload>)
    requires WorldOk(w) && sys == SystemOf(w) && rounds == |Sched(w)| && net.Net? && |net.nodes| == w.N()
    requires InLockstep(sys, net) && AllFinished(sys, net)
    ensures AllAnswered(w, net)
  {
    forall p | 0 <= p < w.N()
      ensures net.nodes[p].local.job == Idle && net.nodes[p].local.tokens == Tokens(w, |w.requests|, p)
    {
      LockstepEnds(w, p);
    }
  }

  /** What Rounds guarantees of every run, without its invariant. */
  lemma {:induction false} RunFacts(sys: Sys, acts: seq<Action>, net: Net<Server, Payload>)
    requires SystemOk(sys) && sys.n <= 256 && Run(sys, Start(sys), acts, net)
    ensures net.Net? && |net.nodes| == sys.n && |acts| <= TotalWork(sys)
    ensures !AllFinished(sys, net) ==> exists a :: Enabled(sys, net, a)
    ensures InLockstep(sys, net)
  {
    EveryRun(sys, acts, net);
    forall p | 0 <= p < sys.n
      ensures net.nodes[p].round <= |sys.sched| && net.nodes[p].local == Lock(sys, net.nodes[p].round)[p]
    {
      assert NodeOk(sys, net.nodes[p], p);
    }
  }

  /** Every server is where the lockstep execution has it in its round. */
  predicate InLockstep(sys: Sys, net: Net<Server, Payload>)
    requires net.Net? && |net.nodes| == sys.n == |sys.init|
  {
    forall p :: 0 <= p < sys.n ==>
      net.nodes[p].round <= |sys.sched| && net.nodes[p].local == Lock(sys, net.nodes[p].round)[p]
  }

  /** Server `p` is about to exchange what its round is for; in particular it has not panicked. */
  predicate OnSchedule(w: World, me: Node<Server, Payload>)
    requires WorldOk(w)
  {
    me.round < |Sched(w)| ==> JobFits(Sched(w)[me.round], me.local.job) && Sends(w.setup.M, me.local)
  }

  lemma StaysOnSchedule(w: World, sys: Sys, net: Net<Server, Payload>, p: nat)
    requires WorldOk(w) && sys == SystemOf(w) && net.Net? && |net.nodes| == w.N() && InLockstep(sys, net) && p < w.N()
    ensures OnSchedule(w, net.nodes[p])
  {
    if net.nodes[p].round < |Sched(w)| { ScheduleFollowed(w, net.nodes[p].round); }
  }

  /** End to end. For every number of servers up to 256, every database, every list of requests
      within the expected number, every choice of all shares and dealer randomness and every
      interleaving of sends, receives and finishes: no assertion fails and every server's next
      exchange is the scheduled one; while a server has rounds left some step is possible, and the
      number of steps is bounded; and when all have finished,
      the constant party has signed, request by request, exactly the commitment the requesting
      client computes for the record at its index, and nobody else has signed anything. */
  lemma {:induction false} EveryRunAnswers(w: World, acts: seq<Action>, net: Net<Server, Payload>)
    requires WorldOk(w) && w.N() <= 256 && Run(SystemOf(w), Start(SystemOf(w)), acts, net)
    ensures net.Net? && |net.nodes| == w.N()
    ensures |acts| <= TotalWork(SystemOf(w))
    ensures !AllFinished(SystemOf(w), net) ==> exists a :: Enabled(SystemOf(w), net, a)
    ensures forall p :: 0 <= p < w.N() ==> OnSchedule(w, net.nodes[p])
    ensures AllFinished(SystemOf(w), net) ==> AllAnswered(w, net)
  {
    var sys := SystemOf(w);
    SystemIsOk(w);
    RunFacts(sys, acts, net);
    forall p | 0 <= p < w.N() ensures OnSchedule(w, net.nodes[p]) { StaysOnSchedule(w, sys, net, p); }
    if AllFinished(sys, net) { EndsAnswered(w, sys, |Sched(w)|, net); }
  }

  /* ---------- on the wire ---------- */

  /** What message `m` of server `owner` becomes on the wire is read back by its peers, and the arrays
      they store are those it was made of. */
  predicate Arrives(k: Wire.Codec<int>, owner: Wire.Byte, m: Payload) {
    match m
    case Shares(b) =>
      && |b.u| == |b.v| && |b.u| % 8 == 0
      && var u, v := BitVec(b.u, |b.u|), BitVec(b.v, |b.v|);
         var cmd := Wire.BeaverCmd<int>(owner, u, v);
         Wire.Deserialize(k, Wire.Serialize(k, cmd)) == Some(cmd) && Wire.Stored(cmd) == Some([u, v])
    case Masked(e) =>
      var cmd := Wire.DabitCmd<int>(owner, Padded(e));
      Wire.Deserialize(k, Wire.Serialize(k, cmd)) == Some(cmd) && Wire.Stored(cmd) == Some([Padded(e)])
    case Commitment(c) =>
      Wire.Deserialize(k, Wire.Serialize(k, Wire.AggCommit(owner, c))) == Some(Wire.AggCommit(owner, c))
    case Silence => false
  }

  lemma SharesReach(k: Wire.Codec<int>, owner: Wire.Byte, b: Blinded, w: nat)
    requires BlindedFits(b, w) && w % 8 == 0 && w < Wire.U32
    ensures Arrives(k, owner, Shares(b))
  {
    Wire.SharesArrive(k, owner, BitVec(b.u, |b.u|), BitVec(b.v, |b.v|));
  }

  lemma MaskedReaches(k: Wire.Codec<int>, owner: Wire.Byte, e: Bits)
    requires |e| < Wire.U32
    ensures Arrives(k, owner, Masked(e))
  {
    Wire.SharesArrive(k, owner, Padded(e), Padded(e));
  }

  lemma CommitmentReaches(k: Wire.Codec<int>, owner: Wire.Byte, M: nat, c: int)
    requires Wire.LosslessBelow(k, M) && 0 <= c < M
    ensures Arrives(k, owner, Commitment(c))
  {
    Wire.RoundTripIff(k, Wire.AggCommit(owner, c));
  }

  lemma MessageReaches(k: Wire.Codec<int>, owner: Wire.Byte, M: nat, s: Server)
    requires Wire.LosslessBelow(k, M) && Sends(M, s)
    ensures Arrives(k, owner, Emit(s))
  {
    match Emit(s)
    case Shares(b) => SharesReach(k, owner, b, |b.u|);
    case Masked(e) => MaskedReaches(k, owner, e);
    case Commitment(c) => CommitmentReaches(k, owner, M, c);
    case Silence =>
  }

  /** In every run, a server with rounds left does broadcast, and its message survives the wire bit for
      bit, whatever codec carries the commitments of the group. */
  lemma {:induction false} EveryMessageArrives(w: World, acts: seq<Action>, net: Net<Server, Payload>, p: nat,
                                               k: Wire.Codec<int>, owner: Wire.Byte)
    requires WorldOk(w) && w.N() <= 256 && Run(SystemOf(w), Start(SystemOf(w)), acts, net) && p < w.N()
    requires Wire.LosslessBelow(k, w.setup.M)
    ensures net.Net? && |net.nodes| == w.N()
    ensures net.nodes[p].round < |Sched(w)| ==> Arrives(k, owner, Emit(net.nodes[p].local))
  {
    EveryRunAnswers(w, acts, net);
    assert OnSchedule(w, net.nodes[p]);
    if net.nodes[p].round < |Sched(w)| { MessageReaches(k, owner, w.setup.M, net.nodes[p].local); }
  }

  /** The token for a record is not one for the other bit, unless the response generator is neutral. */
  lemma TokenBinds(w: World, q: Request)
    requires WorldOk(w) && RequestOk(w, q)
    ensures Expected(w, q) == GetCommitment(w.setup, q.rnd, q.idx, 1 - ToInt(w.setup.db.RecordBit(q.idx)))
       <==> Same(w.setup.M, w.setup.gens.g2, 0)
  {
    BindsResponse(w.setup.M, w.setup.gens, q.rnd, q.idx, w.setup.db.RecordBit(q.idx));
  }

  /** What party 0 signs for a request: the randomness, the index and the record's bit, each times its own
      generator. */
  lemma TokenIs(w: World, q: Request)
    requires WorldOk(w) && RequestOk(w, q)
    ensures 0 <= Expected(w, q) < w.setup.M
    ensures var g := w.setup.gens;
            Same(w.setup.M, Expected(w, q), q.rnd * g.h + q.idx * g.g1 + ToInt(w.setup.db.RecordBit(q.idx)) * g.g2)
  {
    SameMod(w.setup.M, Raw(w.setup.gens, Opening(q.rnd, q.idx, ToInt(w.setup.db.RecordBit(q.idx)))));
  }

  /** The token for a request is also what a client computes for index `j` and randomness `rnd`. */
  predicate OpensAt(w: World, q: Request, rnd: int, j: nat)
    requires WorldOk(w) && RequestOk(w, q)
  {
    Expected(w, q) == GetCommitment(w.setup, rnd, j, ToInt(w.setup.db.RecordBit(q.idx)))
  }

  /** The token for one record is not one for another: in a group of prime order that has room for all indices
      it opens at another index exactly when the index generator is neutral. */
  lemma TokenBindsIndex(w: World, q: Request, j: nat)
    requires WorldOk(w) && RequestOk(w, q) && j < w.setup.db.Size()
    ensures OpensAt(w, q, q.rnd, j) <==> Meets(w.setup.M, q.idx, j, w.setup.gens.g1)
    ensures Prime(w.setup.M) && w.setup.db.Size() <= w.setup.M ==>
              (OpensAt(w, q, q.rnd, j) <==> q.idx == j || Same(w.setup.M, w.setup.gens.g1, 0))
  {
    BindsIndex(w.setup.M, w.setup.gens, q.rnd, q.idx, j, ToInt(w.setup.db.RecordBit(q.idx)));
    if w.setup.db.Size() <= w.setup.M { SmallSame(w.setup.M, q.idx, j); }
  }

  lemma SmallSame(M: nat, i: nat, j: nat)
    requires i < M && j < M
    ensures Same(M, i, j) <==> i == j
  {
    assert i % M == i && j % M == j;
  }

  /** Nor is it one for other randomness. */
  lemma TokenBindsRandomness(w: World, q: Request, rnd: int)
    requires WorldOk(w) && RequestOk(w, q)
    ensures OpensAt(w, q, rnd, q.idx) <==> Meets(w.setup.M, q.rnd, rnd, w.setup.gens.h)
    ensures Prime(w.setup.M) ==>
              (OpensAt(w, q, rnd, q.idx) <==> Same(w.setup.M, q.rnd, rnd) || Same(w.setup.M, w.setup.gens.h, 0))
  {
    BindsRandomness(w.setup.M, w.setup.gens, q.rnd, rnd, q.idx, ToInt(w.setup.db.RecordBit(q.idx)));
  }
}
