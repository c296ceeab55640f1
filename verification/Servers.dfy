/** A server's code as the object it is in the program, and that it broadcasts and computes what the
    state machine of the protocol does when it is given the same messages. */
module Servers {
  import opened Bits
  import opened Folds
  import opened Circuit
  import opened OneHot
  import opened AndLayer
  import opened Beaver
  import opened Layers
  import opened Mpc
  import opened Conversion
  import opened Retrieval
  import opened Commitments
  import opened Party
  import opened Lockstep
  import opened Budget
  import opened Answering
  import opened Certifying
  import DaBits
  import ConvLayer

  /* ---------- talking to the state machine ---------- */

  /** The state machine fed with the inboxes of consecutive rounds. */
  function Feed(prog: Code, s: Server, rounds: seq<seq<Payload>>): Server
    decreases |rounds|
  {
    if |rounds| == 0 then s else Feed(prog, prog.absorb(s, rounds[0]), rounds[1..])
  }

  /** What it broadcasts meanwhile: before each inbox, one message. */
  function Said(prog: Code, s: Server, rounds: seq<seq<Payload>>): (r: seq<Payload>)
    ensures |r| == |rounds|
    decreases |rounds|
  {
    if |rounds| == 0 then [] else [prog.emit(s)] + Said(prog, prog.absorb(s, rounds[0]), rounds[1..])
  }

  /** The i-th broadcast is what the machine emits after the first i inboxes. */
  lemma {:induction false} SaidAt(prog: Code, s: Server, rounds: seq<seq<Payload>>, i: nat)
    requires i < |rounds|
    ensures Said(prog, s, rounds)[i] == prog.emit(Feed(prog, s, rounds[..i]))
    decreases |rounds|
  {
    if i > 0 {
      SaidAt(prog, prog.absorb(s, rounds[0]), rounds[1..], i - 1);
      assert rounds[..i][1..] == rounds[1..][..i - 1];
    }
  }

  /** From `s`, fed with `rounds`, the machine broadcasts `sent` and ends in `end`. */
  predicate Talks(prog: Code, s: Server, rounds: seq<seq<Payload>>, sent: seq<Payload>, end: Server) {
    Feed(prog, s, rounds) == end && Said(prog, s, rounds) == sent
  }

  lemma TalksNothing(prog: Code, s: Server)
    ensures Talks(prog, s, [], [], s)
  {
  }

  lemma TalksFirst(prog: Code, s: Server, inbox: seq<Payload>, m: Payload, mid: Server,
                   rounds: seq<seq<Payload>>, sent: seq<Payload>, end: Server)
    requires prog.emit(s) == m && prog.absorb(s, inbox) == mid && Talks(prog, mid, rounds, sent, end)
    ensures Talks(prog, s, [inbox] + rounds, [m] + sent, end)
  {
    assert ([inbox] + rounds)[1..] == rounds;
  }

  lemma {:induction false} TalksConcat(prog: Code, s: Server, r1: seq<seq<Payload>>, sent1: seq<Payload>, mid: Server,
                                       r2: seq<seq<Payload>>, sent2: seq<Payload>, end: Server)
    requires Talks(prog, s, r1, sent1, mid) && Talks(prog, mid, r2, sent2, end)
    ensures Talks(prog, s, r1 + r2, sent1 + sent2, end)
    decreases |r1|
  {
    if |r1| == 0 {
      assert r1 + r2 == r2 && sent1 + sent2 == sent2;
    } else {
      var next := prog.absorb(s, r1[0]);
      var rest := Said(prog, next, r1[1..]);
      TalksConcat(prog, next, r1[1..], rest, mid, r2, sent2, end);
      TalksFirst(prog, s, r1[0], prog.emit(s), next, r1[1..] + r2, rest + sent2, end);
      assert [r1[0]] + (r1[1..] + r2) == r1 + r2;
      assert [prog.emit(s)] + (rest + sent2) == sent1 + sent2;
    }
  }

  /** One more round. */
  lemma TalksThen(prog: Code, s: Server, rounds: seq<seq<Payload>>, sent: seq<Payload>, mid: Server,
                  inbox: seq<Payload>, m: Payload, end: Server)
    requires Talks(prog, s, rounds, sent, mid) && prog.emit(mid) == m && prog.absorb(mid, inbox) == end
    ensures Talks(prog, s, rounds + [inbox], sent + [m], end)
  {
    TalksNothing(prog, end);
    TalksFirst(prog, mid, inbox, m, end, [], [], end);
    assert [inbox] + [] == [inbox] && [m] + [] == [m];
    TalksConcat(prog, s, rounds, sent, mid, [inbox], [m], end);
  }

  function AsShares(inbox: seq<Blinded>): (r: seq<Payload>)
    ensures |r| == |inbox| && forall i :: 0 <= i < |r| ==> r[i] == Shares(inbox[i])
  {
    seq(|inbox|, i requires 0 <= i < |inbox| => Shares(inbox[i]))
  }

  /** The inboxes of a run in the order of its rounds: the last layer first. */
  function LayerRounds(inboxes: seq<seq<Blinded>>, n: nat): (r: seq<seq<Payload>>)
    requires n <= |inboxes|
    ensures |r| == n
  {
    if n == 0 then [] else [AsShares(inboxes[n - 1])] + LayerRounds(inboxes, n - 1)
  }

  lemma {:induction false} RoundsFirst(inboxes: seq<seq<Blinded>>, l: nat, n: nat)
    requires n == l + 1 <= |inboxes|
    ensures LayerRounds(inboxes, n) == [AsShares(inboxes[l])] + LayerRounds(inboxes, l)
  {
  }

  /* ---------- a run is the machine's expand phase ---------- */

  lemma WrappedFits(inbox: seq<Blinded>, w: nat)
    requires InboxFits(inbox, w)
    ensures AllShares(AsShares(inbox), w) && SharesOf(AsShares(inbox)) == inbox
  {
    forall m | m in AsShares(inbox) ensures m.Shares? && BlindedFits(m.m, w) {
      var i :| 0 <= i < |inbox| && AsShares(inbox)[i] == m;
      assert Us(inbox)[i] in Us(inbox) && Vs(inbox)[i] in Vs(inbox);
    }
  }

  /** The machine's part in a layer: what it broadcasts, and what it makes of its inbox. */
  lemma MachineStep(s: Server, g: Gates, l: nat, prev: Option<Finished>, inbox: seq<Blinded>,
                    ss: Streams, t: Triple)
    requires LayerRunnable(s, g, l, prev) && SliceReady(g, l, t, inbox, prev)
    requires ss == LayerStreams(g, l, prev) && t == Taken(s, g.size)
    requires AllShares(AsShares(inbox), 8 * g.size) && SharesOf(AsShares(inbox)) == inbox
    ensures EmitLayer(s, g, l, prev) == Shares(Blind(ss, t))
    ensures AfterLayer(s, g, l, prev, AsShares(inbox)) == Some(FinishZ(s.isConst, ss, Recons(Blind(ss, t), inbox), t.c))
  {
  }

  lemma ObjectStep(isConst: bool, g: Gates, l: nat, prev: Option<Finished>, inbox: seq<Blinded>,
                   ss: Streams, t: Triple, turned: Turned)
    requires SliceReady(g, l, t, inbox, prev) && ss == LayerStreams(g, l, prev)
    requires turned == GatesTurn(isConst, g, l, t, inbox, prev)
    ensures turned.sent == Blind(ss, t) && turned.z == FinishZ(isConst, ss, Recons(Blind(ss, t), inbox), t.c)
  {
  }

  /** It is the layer object's. */
  lemma GatesStep(s: Server, g: Gates, l: nat, prev: Option<Finished>, inbox: seq<Blinded>,
                  t: Triple, turned: Turned)
    requires LayerRunnable(s, g, l, prev) && SliceReady(g, l, t, inbox, prev) && t == Taken(s, g.size)
    requires turned == GatesTurn(s.isConst, g, l, t, inbox, prev)
    ensures EmitLayer(s, g, l, prev) == Shares(turned.sent)
    ensures AfterLayer(s, g, l, prev, AsShares(inbox)) == Some(turned.z)
  {
    WrappedFits(inbox, 8 * g.size);
    var ss := LayerStreams(g, l, prev);
    MachineStep(s, g, l, prev, inbox, ss, t);
    ObjectStep(s.isConst, g, l, prev, inbox, ss, t, turned);
  }

  /** Server `s` is the party that runs the course. */
  predicate Runs(s: Server, co: Course) { s.isConst == co.isConst && s.triples == co.t }

  lemma ReadyRuns(s: Server, co: Course, l: nat, g: Gates, prev: Option<Finished>, t: Triple)
    requires Runs(s, co) && TurnReady(co, l, s.usedB, prev) && g == co.c[l] && t == Next(co.t, s.usedB, g.size)
    ensures LayerRunnable(s, g, l, prev) && t == Taken(s, g.size) && SliceReady(g, l, t, co.inboxes[l], prev)
    ensures LayerTurn(co, l, s.usedB, prev) == GatesTurn(co.isConst, g, l, t, co.inboxes[l], prev)
  {
  }

  lemma TurnStep(s: Server, co: Course, l: nat, g: Gates, prev: Option<Finished>, turned: Turned)
    requires Runs(s, co) && TurnReady(co, l, s.usedB, prev) && g == co.c[l] && turned == LayerTurn(co, l, s.usedB, prev)
    ensures EmitLayer(s, g, l, prev) == Shares(turned.sent)
    ensures AfterLayer(s, g, l, prev, AsShares(co.inboxes[l])) == Some(turned.z)
  {
    var t := Next(co.t, s.usedB, g.size);
    ReadyRuns(s, co, l, g, prev, t);
    GatesStep(s, g, l, prev, co.inboxes[l], t, turned);
  }

  lemma NextLayerJob(s: Server, job: Job, layers: seq<Gates>, prev: Option<Finished>,
                     src1: Source, src2: Source)
    ensures NextLayer(s.(job := job), layers, prev, src1, src2) == NextLayer(s, layers, prev, src1, src2)
  {
  }

  lemma PrefixOf(c: seq<Gates>, l: nat, n: nat)
    requires n == l + 1 <= |c|
    ensures |c[..n]| == l + 1 && c[..n][l] == c[l] && c[..n][..l] == c[..l]
  {
  }

  /** One round: from before layer `l` to after it. */
  lemma ExpandStepIs(prog: Code, s: Server, x: Server, c: seq<Gates>, l: nat, n: nat,
                     prev: Option<Finished>,
                     src1: Source, src2: Source, inbox: seq<Payload>, used: nat, m: Blinded, z: Bits)
    requires prog == ServerProgram() && n == l + 1 <= |c| && used == s.usedB + c[l].size
    requires x == s.(job := Expand(c[..n], prev, src1, src2))
    requires EmitLayer(x, c[l], l, prev) == Shares(m) && AfterLayer(x, c[l], l, prev, inbox) == Some(z)
    ensures prog.emit(x) == Shares(m)
    ensures prog.absorb(x, inbox) == NextLayer(s.(usedB := used), c[..l], Some(Finished(l, z)), src1, src2)
  {
    PrefixOf(c, l, n);
    ExpandEmit(prog, x, c[..n], l);
    ExpandAbsorb(prog, x, c[..n], l, inbox, z, used);
    NextLayerJob(s.(usedB := used), x.job, c[..l], Some(Finished(l, z)), src1, src2);
  }

  lemma OneRound(prog: Code, s: Server, co: Course, l: nat, n: nat, prev: Option<Finished>,
                 src1: Source, src2: Source, end: nat, next: Option<Finished>, m: Blinded)
    requires prog == ServerProgram() && Runs(s, co) && n == l + 1 && TurnReady(co, l, s.usedB, prev)
    requires Stepped(co, l, s.usedB, prev, end, next, m)
    ensures n <= |co.c| && prog.emit(NextLayer(s, co.c[..n], prev, src1, src2)) == Shares(m)
    ensures prog.absorb(NextLayer(s, co.c[..n], prev, src1, src2), AsShares(co.inboxes[l]))
         == NextLayer(s.(usedB := end), co.c[..l], next, src1, src2)
  {
    var x := s.(job := Expand(co.c[..n], prev, src1, src2));
    var turned := LayerTurn(co, l, s.usedB, prev);
    TurnStep(x, co, l, co.c[l], prev, turned);
    ExpandStepIs(prog, s, x, co.c, l, n, prev, src1, src2, AsShares(co.inboxes[l]), end, turned.sent, turned.z);
  }

  lemma SteppedTurn(co: Course, l: nat, used: nat, prev: Option<Finished>)
      returns (end: nat, next: Option<Finished>, m: Blinded)
    requires l < |co.c|
    ensures Stepped(co, l, used, prev, end, next, m)
  {
    var turned := LayerTurn(co, l, used, prev);
    end, next, m := used + co.c[l].size, Some(Finished(l, turned.z)), turned.sent;
  }

  /** Feeding the inboxes of a run to the machine runs it: it broadcasts what the run broadcasts, and
      comes out of the last layer with the run's output, its triples used up accordingly. */
  lemma {:induction false} RunRefines(prog: Code, s: Server, co: Course, n: nat, f: Turns, prev: Option<Finished>,
                                      src1: Source,
                                      src2: Source, sent: seq<Blinded>, goal: Goal) returns (rest: seq<Blinded>)
    requires prog == ServerProgram() && Runs(s, co) && OnWay(f, co, n, s.usedB, prev, sent, goal)
    ensures goal.sent == sent + rest
    ensures Talks(prog, NextLayer(s, co.c[..n], prev, src1, src2), LayerRounds(co.inboxes, n), AsShares(rest),
                  NextLayer(s.(usedB := goal.used), [], goal.out, src1, src2))
    decreases n
  {
    if n == 0 {
      rest := [];
      RunOver(prog, s, co, n, f, prev, src1, src2, sent, goal);
    } else {
      var l := n - 1;
      var s', next, m := RunStep(prog, s, co, l, n, f, prev, src1, src2, sent, goal);
      var sent' := sent + [m];
      var tail := RunRefines(prog, s', co, l, f, next, src1, src2, sent', goal);
      rest := [m] + tail;
      RunJoin(prog, s, s', co, l, n, prev, next, src1, src2, sent, m, sent', tail, rest, goal);
    }
  }

  lemma {:induction false} RunOver(prog: Code, s: Server, co: Course, n: nat, f: Turns, prev: Option<Finished>,
                                   src1: Source, src2: Source, sent: seq<Blinded>, goal: Goal)
    requires n == 0 && OnWay(f, co, n, s.usedB, prev, sent, goal)
    ensures goal.sent == sent + []
    ensures Talks(prog, NextLayer(s, co.c[..n], prev, src1, src2), LayerRounds(co.inboxes, n), AsShares([]),
                  NextLayer(s.(usedB := goal.used), [], goal.out, src1, src2))
  {
    OnWayEnd(f, co, s.usedB, prev, sent, goal);
    assert co.c[..0] == [] && s.(usedB := goal.used) == s;
    TalksNothing(prog, NextLayer(s, [], prev, src1, src2));
  }

  lemma {:induction false} RunJoin(prog: Code, s: Server, s': Server, co: Course, l: nat, n: nat,
                                   prev: Option<Finished>,
                                   next: Option<Finished>, src1: Source, src2: Source, sent: seq<Blinded>, m: Blinded,
                                   sent': seq<Blinded>, tail: seq<Blinded>, rest: seq<Blinded>, goal: Goal)
    requires n == l + 1 <= |co.c| && n <= |co.inboxes| && s' == s.(usedB := s'.usedB)
    requires sent' == sent + [m] && rest == [m] + tail && goal.sent == sent' + tail
    requires prog.emit(NextLayer(s, co.c[..n], prev, src1, src2)) == Shares(m)
    requires prog.absorb(NextLayer(s, co.c[..n], prev, src1, src2), AsShares(co.inboxes[l]))
          == NextLayer(s', co.c[..l], next, src1, src2)
    requires Talks(prog, NextLayer(s', co.c[..l], next, src1, src2), LayerRounds(co.inboxes, l), AsShares(tail),
                   NextLayer(s'.(usedB := goal.used), [], goal.out, src1, src2))
    ensures goal.sent == sent + rest
    ensures Talks(prog, NextLayer(s, co.c[..n], prev, src1, src2), LayerRounds(co.inboxes, n), AsShares(rest),
                  NextLayer(s.(usedB := goal.used), [], goal.out, src1, src2))
  {
    assert s'.(usedB := goal.used) == s.(usedB := goal.used);
    TalksLayer(prog, NextLayer(s, co.c[..n], prev, src1, src2), co.inboxes, l, n, m,
               NextLayer(s', co.c[..l], next, src1, src2), tail, rest,
               NextLayer(s.(usedB := goal.used), [], goal.out, src1, src2));
  }

  lemma RunStep(prog: Code, s: Server, co: Course, l: nat, n: nat, f: Turns, prev: Option<Finished>,
                src1: Source, src2: Source, sent: seq<Blinded>, goal: Goal)
      returns (s': Server, next: Option<Finished>, m: Blinded)
    requires prog == ServerProgram() && n == l + 1 && Runs(s, co) && OnWay(f, co, n, s.usedB, prev, sent, goal)
    ensures s' == s.(usedB := s'.usedB) && OnWay(f, co, l, s'.usedB, next, sent + [m], goal)
    ensures prog.emit(NextLayer(s, co.c[..n], prev, src1, src2)) == Shares(m)
    ensures prog.absorb(NextLayer(s, co.c[..n], prev, src1, src2), AsShares(co.inboxes[l]))
         == NextLayer(s', co.c[..l], next, src1, src2)
  {
    OnWayReady(f, co, l, n, s.usedB, prev, sent, goal);
    var end;
    end, next, m := SteppedTurn(co, l, s.usedB, prev);
    s' := s.(usedB := end);
    OnWayNext(f, co, l, n, s.usedB, prev, sent, goal, end, next, m);
    OneRound(prog, s, co, l, n, prev, src1, src2, end, next, m);
  }

  lemma {:induction false} TalksLayer(prog: Code, x: Server, inboxes: seq<seq<Blinded>>, l: nat, n: nat, m: Blinded,
                                      y: Server,
                                      tail: seq<Blinded>, rest: seq<Blinded>, end: Server)
    requires n == l + 1 <= |inboxes| && prog.emit(x) == Shares(m) && prog.absorb(x, AsShares(inboxes[l])) == y
    requires Talks(prog, y, LayerRounds(inboxes, l), AsShares(tail), end) && rest == [m] + tail
    ensures Talks(prog, x, LayerRounds(inboxes, n), AsShares(rest), end)
  {
    RoundsFirst(inboxes, l, n);
    TalksFirst(prog, x, AsShares(inboxes[l]), Shares(m), y, LayerRounds(inboxes, l), AsShares(tail), end);
    assert AsShares(rest) == [Shares(m)] + AsShares(tail);
  }

  /* ---------- a query's circuits ---------- */

  /** The messages of a run fit the planned layers, and enough triples are left. */
  predicate RunSupplied(k1: nat, k2: nat, t: Triple, used: nat, inboxes: seq<seq<Blinded>>)
    requires k1 >= 1 && k2 >= 1
  {
    var z := QueryPlan(k1, k2);
    && TripleFits(t, |t.a|) && 8 * (used + Sum(z)) <= |t.a|
    && |inboxes| == |z| && forall l :: 0 <= l < |z| ==> InboxFits(inboxes[l], 8 * z[l])
  }

  lemma {:induction false} SizeSumIs(c: seq<Gates>, n: nat)
    requires n <= |c|
    ensures SizeSum(c, n) == Sum(Sizes(c)[..n])
  {
    if n > 0 {
      SizeSumIs(c, n - 1);
      assert Sizes(c)[..n][..n - 1] == Sizes(c)[..n - 1];
    }
  }

  lemma {:induction false} QueryRunOk(co: Course, n: nat, k1: nat, k2: nat, x1: nat, x2: nat, used: nat)
    requires k1 >= 1 && k2 >= 1 && n == |co.c| && QueryCircuit(co.c, k1, k2, x1, x2, co.isConst)
    requires RunSupplied(k1, k2, co.t, used, co.inboxes)
    ensures RunOk(co, n, used, None) && SizeSum(co.c, n) == Sum(QueryPlan(k1, k2)) && |co.inboxes| == n
  {
    SizeSumIs(co.c, n);
    assert Sizes(co.c)[..n] == Sizes(co.c);
    forall l | 0 <= l < n ensures InboxFits(co.inboxes[l], 8 * co.c[l].size) {
      assert Sizes(co.c)[l] == co.c[l].size;
    }
  }

  lemma {:induction false} QueryOutputs(c: seq<Gates>, k1: nat, k2: nat, x1: nat, x2: nat, isConst: bool,
                                        out: Option<Finished>)
    requires k1 >= 1 && k2 >= 1 && QueryCircuit(c, k1, k2, x1, x2, isConst) && BelowOf(out) == BelowFrom(c, 0)
    ensures Answering.Readable(RootOf(Tree1(k1), x1, isConst), out, Pow2(k1))
    ensures Answering.Readable(RootOf(Tree2(k1, k2), x2, isConst), out, Pow2(k2))
  {
    RootReadable(c, Tree1(k1), k1, x1, isConst, out);
    RootReadable(c, Tree2(k1, k2), k2, x2, isConst, out);
  }

  /** The query's circuit, as the two builder calls leave it. */
  predicate BuiltBy(q: Query, isConst: bool, c: seq<Gates>, src1: Source, src2: Source)
    requires q.l1.bitLen >= 1 && q.l2.bitLen >= 1
  {
    var c1 := Ohe([], 0, q.l1.bitLen, q.l1.value, isConst);
    c1.1 == src1 && Ohe(c1.0, 0, q.l2.bitLen, q.l2.value, isConst) == (c, src2)
  }

  lemma BuiltFrom(q: Query, isConst: bool, c1: seq<Gates>, c: seq<Gates>, src1: Source, src2: Source)
    requires q.l1.bitLen >= 1 && q.l2.bitLen >= 1
    requires IsOhe([], 0, q.l1.bitLen, q.l1.value, isConst, c1, src1)
    requires IsOhe(c1, 0, q.l2.bitLen, q.l2.value, isConst, c, src2)
    ensures BuiltBy(q, isConst, c, src1, src2)
  {
  }

  lemma BuiltIsQuery(q: Query, isConst: bool, c: seq<Gates>, src1: Source, src2: Source)
    requires q.l1.bitLen >= 1 && q.l2.bitLen >= 1 && BuiltBy(q, isConst, c, src1, src2)
    ensures QueryCircuit(c, q.l1.bitLen, q.l2.bitLen, q.l1.value, q.l2.value, isConst)
    ensures src1 == RootOf(Tree1(q.l1.bitLen), q.l1.value, isConst)
    ensures src2 == RootOf(Tree2(q.l1.bitLen, q.l2.bitLen), q.l2.value, isConst)
  {
    var k1, k2, x1, x2 := q.l1.bitLen, q.l2.bitLen, q.l1.value, q.l2.value;
    var c1 := Ohe([], 0, k1, x1, isConst);
    assert Sizes([]) == [];
    OheFaithful([], [], 0, k1, x1, isConst);
    OheFaithful(c1.0, Plan([], 0, k1).0, 0, k2, x2, isConst);
    HoldsGrows(c1.0, c, 0, Tree1(k1), k1, x1, isConst);
  }

  /** The circuits of query `q` were run on the course: they left `out`, `end` bytes of triples are
      used, and `sent` was broadcast. */
  predicate RanQuery(q: Query, co: Course, used: nat, src1: Source, src2: Source, end: nat, out: Option<Finished>,
                     sent: seq<Blinded>) {
    && q.l1.bitLen >= 1 && q.l2.bitLen >= 1 && BuiltBy(q, co.isConst, co.c, src1, src2)
    && |co.inboxes| == |co.c| && RunOk(co, |co.c|, used, None) && Ran(co, used, out, end, sent)
    && end == used + Sum(QueryPlan(q.l1.bitLen, q.l2.bitLen))
    && Answering.Readable(src1, out, Pow2(q.l1.bitLen)) && Answering.Readable(src2, out, Pow2(q.l2.bitLen))
  }

  lemma {:induction false} BuiltRuns(q: Query, co: Course, n: nat, src1: Source, src2: Source, used: nat)
    requires q.l1.bitLen >= 1 && q.l2.bitLen >= 1 && BuiltBy(q, co.isConst, co.c, src1, src2) && n == |co.c|
    requires RunSupplied(q.l1.bitLen, q.l2.bitLen, co.t, used, co.inboxes)
    ensures RunOk(co, n, used, None) && |co.inboxes| == n
    ensures SizeSum(co.c, n) == Sum(QueryPlan(q.l1.bitLen, q.l2.bitLen))
  {
    BuiltIsQuery(q, co.isConst, co.c, src1, src2);
    QueryRunOk(co, n, q.l1.bitLen, q.l2.bitLen, q.l1.value, q.l2.value, used);
  }

  lemma BuiltRan(q: Query, co: Course, src1: Source, src2: Source, used: nat, end: nat,
                 out: Option<Finished>, sent: seq<Blinded>)
    requires q.l1.bitLen >= 1 && q.l2.bitLen >= 1 && BuiltBy(q, co.isConst, co.c, src1, src2)
    requires RunSupplied(q.l1.bitLen, q.l2.bitLen, co.t, used, co.inboxes) && Ran(co, used, out, end, sent)
    ensures RanQuery(q, co, used, src1, src2, end, out, sent)
  {
    BuiltRuns(q, co, |co.c|, src1, src2, used);
    BuiltIsQuery(q, co.isConst, co.c, src1, src2);
    QueryOutputs(co.c, q.l1.bitLen, q.l2.bitLen, q.l1.value, q.l2.value, co.isConst, out);
  }

  lemma BeginIs(v: Server, q: Query, c: seq<Gates>, src1: Source, src2: Source)
    requires v.queries == [q] && q.l1.bitLen >= 1 && q.l2.bitLen >= 1 && BuiltBy(q, v.isConst, c, src1, src2)
    ensures BeginQuery(v) == NextLayer(v, c, None, src1, src2)
  {
  }

  lemma WholeRun(prog: Code, v: Server, co: Course, src1: Source, src2: Source, end: nat,
                 out: Option<Finished>, sent: seq<Blinded>)
    requires prog == ServerProgram() && Runs(v, co) && |co.inboxes| == |co.c| && RunOk(co, |co.c|, v.usedB, None)
    requires Ran(co, v.usedB, out, end, sent)
    ensures Talks(prog, NextLayer(v, co.c, None, src1, src2), LayerRounds(co.inboxes, |co.inboxes|), AsShares(sent),
                  NextLayer(v.(usedB := end), [], out, src1, src2))
  {
    var f, n, goal := TurnsOf(co), |co.c|, GoalOf(co, v.usedB);
    OnWayStart(f, co, n, v.usedB, goal);
    var rest := RunRefines(prog, v, co, n, f, None, src1, src2, [], goal);
    assert co.c[..n] == co.c && [] + rest == rest;
  }

  /** The machine's way to the select layer, given what the run left. */
  lemma TalkIndex(prog: Code, v: Server, q: Query, co: Course, src1: Source, src2: Source,
                  out: Option<Finished>,
                  sent: seq<Blinded>, ohe1: BitVec, ohe2: BitVec, v': Server)
    requires prog == ServerProgram() && v.queries == [q] && v.setup.db.Valid() && Runs(v, co)
    requires v' == v.(usedB := v'.usedB)
    requires q.l1.bitLen == v.setup.db.k1 && q.l2.bitLen == v.setup.db.k2
    requires RanQuery(q, co, v.usedB, src1, src2, v'.usedB, out, sent) && ohe1 == Extract(src1, out)
    requires ohe2 == Extract(src2, out)
    ensures ohe1.Valid() && ohe1.size == Pow2(v.setup.db.k1) && ohe2.Valid() && ohe2.size == Pow2(v.setup.db.k2)
    ensures Talks(prog, BeginQuery(v), LayerRounds(co.inboxes, |co.inboxes|), AsShares(sent),
                  SelectState(v', v'.usedB, Padded(Lvl1Data(v.setup.db.rows, ohe1.Data())), ohe2))
  {
    BeginIs(v, q, co.c, src1, src2);
    WholeRun(prog, v, co, src1, src2, v'.usedB, out, sent);
    BeginSelectIs(v', out, src1, src2);
  }

  /* ---------- the select layer ---------- */

  /** A vector of 2^k bits, k at least 3, has no padding. */
  lemma {:induction false} WholeVector(v: BitVec, k: nat)
    requires v.Valid() && v.size == Pow2(k) && k >= 3
    ensures v.Data() == v.bits
  {
    Pow2Bytes(k);
    WholeBytes(v, Pow2(k - 3));
  }

  lemma WholeBytes(v: BitVec, bytes: nat)
    requires v.Valid() && v.size == 8 * bytes
    ensures v.Data() == v.bits
  {
    assert CeilDiv8(8 * bytes) == bytes;
  }

  lemma SelectRunOk(ans: BitVec, ohe2: BitVec, g: Gates, co: Course, used: nat)
    requires ans.Valid() && ohe2.Valid() && ans.size == ohe2.size > 0 && g == SelectGates(ans, ohe2) && co.c == [g]
    requires |co.inboxes| == 1 && Holding(co.t, used + g.size) && InboxFits(co.inboxes[0], 8 * g.size)
    ensures RunOk(co, 1, used, None) && TurnReady(co, 0, used, None)
  {
    SelectRunnable(ans, ohe2);
    assert LayerOk(co.c, 0);
    assert SizeSum(co.c, 0) == 0 && SizeSum(co.c, 1) == g.size;
  }

  /** The run of a course of one layer. */
  lemma OneLayerRan(co: Course, used: nat, out: Option<Finished>, end: nat, sent: seq<Blinded>,
                    turned: Turned)
    requires |co.c| == 1 && Ran(co, used, out, end, sent) && turned == LayerTurn(co, 0, used, None)
    ensures out == Some(Finished(0, turned.z)) && end == used + co.c[0].size && sent == [turned.sent]
  {
    var f := TurnsOf(co);
    TurnsOfIs(co, f, 0, used, None);
    var next := Some(Finished(0, turned.z));
    assert RunSends(f, co.c, 0, end, next) == [] && RunFrom(f, co.c, 0, end, next) == next && SizeSum(co.c, 0) == 0;
    OneLayer(f, co.c, used, end, next, turned);
  }

  lemma {:induction false} OneLayer(f: Turns, c: seq<Gates>, used: nat, end: nat, next: Option<Finished>,
                                    turned: Turned)
    requires |c| == 1 && f(0, used, None) == turned && next == Some(Finished(0, turned.z))
    ensures RunFrom(f, c, 1, used, None) == next && RunSends(f, c, 1, used, None) == [turned.sent]
    ensures SizeSum(c, 1) == c[0].size
  {
    assert RunFrom(f, c, 0, used + c[0].size, next) == next;
    assert RunSends(f, c, 0, used + c[0].size, next) == [];
    assert SizeSum(c, 0) == 0;
  }

  lemma ConvertAnyJob(s: Server, x: Server, record: bool)
    requires x == s.(job := x.job)
    ensures BeginConvert(x, record) == BeginConvert(s, record)
  {
    assert x.queries == s.queries && x.usedD == s.usedD && x.dabits == s.dabits && Fail(x) == Fail(s);
  }

  lemma TalkSelect(prog: Code, v: Server, ans: BitVec, ohe2: BitVec, g: Gates, co: Course,
                   turned: Turned, v': Server)
    requires prog == ServerProgram() && ans.size == ohe2.size == Pow2(v.setup.db.k2) && g == SelectGates(ans, ohe2)
    requires Runs(v, co) && co.c == [g] && TurnReady(co, 0, v.usedB, None) && turned == LayerTurn(co, 0, v.usedB, None)
    requires v' == v.(usedB := v'.usedB) && v'.usedB == v.usedB + g.size
    ensures prog.emit(SelectState(v, v.usedB, ans, ohe2)) == Shares(turned.sent)
    ensures prog.absorb(SelectState(v, v.usedB, ans, ohe2), AsShares(co.inboxes[0]))
         == BeginConvert(v', Parity(turned.z))
  {
    var x := SelectState(v, v.usedB, ans, ohe2);
    TurnStep(x, co, 0, g, None, turned);
    SelectEmit(prog, x, g);
    SelectAbsorb(prog, x, g, AsShares(co.inboxes[0]), turned.z, v'.usedB);
    ConvertAnyJob(v', x.(usedB := v'.usedB), Parity(turned.z));
  }

  /* ---------- conversion and commitment ---------- */

  function AsMasked(inbox: seq<Bits>): (r: seq<Payload>)
    ensures |r| == |inbox| && forall i :: 0 <= i < |r| ==> r[i] == Masked(inbox[i])
  {
    seq(|inbox|, i requires 0 <= i < |inbox| => Masked(inbox[i]))
  }

  function AsCommits(inbox: seq<int>): (r: seq<Payload>)
    ensures |r| == |inbox| && forall i :: 0 <= i < |r| ==> r[i] == Commitment(inbox[i])
  {
    seq(|inbox|, i requires 0 <= i < |inbox| => Commitment(inbox[i]))
  }

  lemma MaskedWraps(inbox: seq<Bits>, w: nat)
    requires AllLong(inbox, w)
    ensures AllMasked(AsMasked(inbox), w) && MaskedsOf(AsMasked(inbox)) == inbox
  {
    forall m | m in AsMasked(inbox) ensures m.Masked? && |m.e| == w {
      var i :| 0 <= i < |inbox| && AsMasked(inbox)[i] == m;
      assert inbox[i] in inbox;
    }
  }

  lemma CommitsWrap(inbox: seq<int>)
    ensures AllCommits(AsCommits(inbox)) && CommitsOf(AsCommits(inbox)) == inbox
  {
    forall m | m in AsCommits(inbox) ensures m.Commitment? {
      var i :| 0 <= i < |inbox| && AsCommits(inbox)[i] == m;
    }
  }

  /** The values a server converts, its daBits, what it receives, opens and commits to. */
  datatype Converting = Converting(bvs: seq<BooleanValue>, ds: seq<DaBit>, masked: seq<Bits>, e: Bits, commit: int)

  predicate Converted(v: Server, q: Query, record: bool, vEnd: nat, x: Converting) {
    && v.queries == [q] && Convertible(v, vEnd) && x.bvs == ToConvert(q, record) && x.ds == v.dabits[v.usedD..vEnd]
    && |x.masked| > 0 && AllLong(x.masked, |x.ds|) && x.e == XorIn(BlindBits(x.bvs, x.ds), x.masked)
    && x.commit == Commit(v.setup.M, v.setup.gens, OpeningOf(v.setup.M, v.isConst, q, x.bvs, x.e, x.ds))
  }

  /** The machine's conversion round. */
  lemma TalkConvert(prog: Code, v: Server, q: Query, record: bool, vEnd: nat, x: Converting,
                    s: Server)
    requires prog == ServerProgram() && Converted(v, q, record, vEnd, x)
    requires s == v.(usedD := vEnd, job := Party.Certify(x.commit))
    ensures prog.emit(BeginConvert(v, record)) == Masked(BlindBits(x.bvs, x.ds))
    ensures prog.absorb(BeginConvert(v, record), AsMasked(x.masked)) == s
  {
    BeginConvertIs(v, v, v.usedB, vEnd, record);
    MaskedWraps(x.masked, |x.ds|);
    var y := ConvertState(v, v.usedB, vEnd, record);
    ConvertEmit(prog, y, x.bvs, x.ds);
    ConvertAbsorb(prog, y, x.bvs, x.ds, AsMasked(x.masked), x.masked, x.e, |x.ds|);
  }

  /** Its commitment round, when no query follows. */
  lemma TalkCommit(prog: Code, s: Server, commits: seq<int>, commit: int, token: Option<int>,
                   end: Server)
    requires prog == ServerProgram() && s.job == Party.Certify(commit) && |s.queries| == 1
    requires token == if s.isConst then Some(Aggregate(s.setup.M, commits + [commit])) else None
    requires end == s.(tokens := s.tokens + [token], queries := [], job := Idle)
    ensures prog.emit(s) == Commitment(commit) && prog.absorb(s, AsCommits(commits)) == end
  {
    CommitsWrap(commits);
    assert s.queries[1..] == [];
    CertifyEmit(prog, s, commit);
    CertifyAbsorb(prog, s, commit, AsCommits(commits), end);
  }

  lemma TalkCertify(prog: Code, v: Server, q: Query, record: bool, vEnd: nat, x: Converting,
                    commits: seq<int>,
                    token: Option<int>, v': Server)
    requires prog == ServerProgram() && Converted(v, q, record, vEnd, x) && v.job == Idle
    requires token == if v.isConst then Some(Aggregate(v.setup.M, commits + [x.commit])) else None
    requires v' == v.(usedD := vEnd, tokens := v.tokens + [token])
    ensures Talks(prog, BeginConvert(v, record), [AsMasked(x.masked), AsCommits(commits)],
                  [Masked(BlindBits(x.bvs, x.ds)), Commitment(x.commit)], v'.(queries := []))
  {
    var s, end := v.(usedD := vEnd, job := Party.Certify(x.commit)), v'.(queries := []);
    TalkConvert(prog, v, q, record, vEnd, x, s);
    TalkCommit(prog, s, commits, x.commit, token, end);
    TalksTwo(prog, BeginConvert(v, record), AsMasked(x.masked), Masked(BlindBits(x.bvs, x.ds)), s,
             AsCommits(commits), Commitment(x.commit), end);
  }

  lemma TalksTwo(prog: Code, s: Server, inbox1: seq<Payload>, m1: Payload, mid: Server,
                 inbox2: seq<Payload>, m2: Payload, end: Server)
    requires prog.emit(s) == m1 && prog.absorb(s, inbox1) == mid && prog.emit(mid) == m2
    requires prog.absorb(mid, inbox2) == end
    ensures Talks(prog, s, [inbox1, inbox2], [m1, m2], end)
  {
    TalksNothing(prog, end);
    TalksFirst(prog, mid, inbox2, m2, end, [], [], end);
    TalksFirst(prog, s, inbox1, m1, mid, [inbox2] + [], [m2] + [], end);
    assert [inbox1] + ([inbox2] + []) == [inbox1, inbox2] && [m1] + ([m2] + []) == [m1, m2];
  }

  /* ---------- when a query panics ---------- */

  lemma {:induction false} PanicStays(prog: Code, s: Server, rounds: seq<seq<Payload>>)
    requires prog == ServerProgram() && s.job == Panicked
    ensures Feed(prog, s, rounds) == s
    decreases |rounds|
  {
    if |rounds| > 0 {
      AbsorbBy(prog, s, rounds[0], s);
      PanicStays(prog, s, rounds[1..]);
    }
  }

  /** What a query finds at a server: shares of the database's index lengths, and enough matching
      material and messages for its layers. */
  predicate Served(v: Server, q: Query, inboxes: seq<seq<Blinded>>, inbox: seq<Blinded>, masked: seq<Bits>) {
    var k1, k2 := v.setup.db.k1, v.setup.db.k2;
    && v.queries == [q] && v.job == Idle && v.setup.db.Valid()
    && q.l1.Valid() && q.l1.bitLen == k1 && q.l2.Valid() && q.l2.bitLen == k2
    && (k2 >= 1 ==> RunSupplied(k1, k2, v.triples, v.usedB, inboxes) && Holding(v.triples,
          v.usedB + QueryBytes(k1, k2)))
    && InboxFits(inbox, 8 * CeilDiv8(Pow2(k2)))
    && v.usedD + k1 + k2 + 1 <= |v.dabits| && |masked| > 0 && AllLong(masked, k1 + k2 + 1)
  }

  lemma BuiltCircuit(v: Server, q: Query) returns (c: seq<Gates>, src1: Source, src2: Source)
    requires q.l1.bitLen >= 1 && q.l2.bitLen >= 1
    ensures BuiltBy(q, v.isConst, c, src1, src2)
  {
    var c1 := Ohe([], 0, q.l1.bitLen, q.l1.value, v.isConst);
    var c2 := Ohe(c1.0, 0, q.l2.bitLen, q.l2.value, v.isConst);
    c, src1, src2 := c2.0, c1.1, c2.1;
  }

  /** The run of the one-hot circuits always succeeds. */
  lemma IndexTalks(prog: Code, v: Server, q: Query, inboxes: seq<seq<Blinded>>, inbox: seq<Blinded>,
                   masked: seq<Bits>)
      returns (v': Server, ohe1: BitVec, ohe2: BitVec)
    requires prog == ServerProgram() && Served(v, q, inboxes, inbox, masked) && v.setup.db.k2 >= 1
    ensures v' == v.(usedB := v'.usedB) && v'.usedB == v.usedB + Sum(QueryPlan(v.setup.db.k1, v.setup.db.k2))
    ensures ohe1.Valid() && ohe1.size == Pow2(v.setup.db.k1) && ohe2.Valid() && ohe2.size == Pow2(v.setup.db.k2)
    ensures Feed(prog, BeginQuery(v), LayerRounds(inboxes, |inboxes|))
         == SelectState(v', v'.usedB, Padded(Lvl1Data(v.setup.db.rows, ohe1.Data())), ohe2)
  {
    var c, src1, src2 := BuiltCircuit(v, q);
    var co := Course(v.isConst, c, v.triples, inboxes);
    BuiltRuns(q, co, |c|, src1, src2, v.usedB);
    var goal := GoalOf(co, v.usedB);
    RunLands(co, |c|, v.usedB, goal);
    BuiltRan(q, co, src1, src2, v.usedB, goal.used, goal.out, goal.sent);
    v' := v.(usedB := goal.used);
    ohe1, ohe2 := Extract(src1, goal.out), Extract(src2, goal.out);
    TalkIndex(prog, v, q, co, src1, src2, goal.out, goal.sent, ohe1, ohe2, v');
  }

  /** A run that can start comes to its end. */
  lemma RunLands(co: Course, n: nat, used: nat, goal: Goal)
    requires n == |co.c| && RunOk(co, n, used, None) && goal == GoalOf(co, used)
    ensures Ran(co, used, goal.out, goal.used, goal.sent)
  {
    OnWayStart(TurnsOf(co), co, n, used, goal);
    LandsFrom(TurnsOf(co), co, n, used, None, [], goal);
  }

  lemma {:induction false} LandsFrom(f: Turns, co: Course, n: nat, used: nat, prev: Option<Finished>,
                                     sent: seq<Blinded>, goal: Goal)
    requires OnWay(f, co, n, used, prev, sent, goal)
    ensures BelowOf(goal.out) == BelowFrom(co.c, 0)
    decreases n
  {
    if n == 0 {
      OnWayEnd(f, co, used, prev, sent, goal);
    } else {
      var l := n - 1;
      var end, next, m := SteppedTurn(co, l, used, prev);
      OnWayNext(f, co, l, n, used, prev, sent, goal, end, next, m);
      LandsFrom(f, co, l, end, next, sent + [m], goal);
    }
  }

  lemma SelectTalks(prog: Code, v: Server, ans: BitVec, ohe2: BitVec, g: Gates, inbox: seq<Blinded>)
      returns (v': Server, record: bool)
    requires prog == ServerProgram() && ans.Valid() && ohe2.Valid() && ans.size == ohe2.size == Pow2(v.setup.db.k2)
    requires g == SelectGates(ans, ohe2) && Holding(v.triples, v.usedB + g.size) && InboxFits(inbox, 8 * g.size)
    ensures v' == v.(usedB := v.usedB + g.size)
    ensures prog.absorb(SelectState(v, v.usedB, ans, ohe2), AsShares(inbox)) == BeginConvert(v', record)
  {
    var co := Course(v.isConst, [g], v.triples, [inbox]);
    SelectRunOk(ans, ohe2, g, co, v.usedB);
    var turned := LayerTurn(co, 0, v.usedB, None);
    v', record := v.(usedB := v.usedB + g.size), Parity(turned.z);
    TalkSelect(prog, v, ans, ohe2, g, co, turned, v');
  }

  /** The machine always gets as far as the conversion. */
  lemma ReachesConvert(prog: Code, v: Server, q: Query, inboxes: seq<seq<Blinded>>,
                       inbox: seq<Blinded>, masked: seq<Bits>)
      returns (v': Server, record: bool)
    requires prog == ServerProgram() && Served(v, q, inboxes, inbox, masked) && v.setup.db.k2 >= 1
    ensures v' == v.(usedB := v'.usedB)
    ensures Feed(prog, BeginQuery(v), LayerRounds(inboxes, |inboxes|) + [AsShares(inbox)]) == BeginConvert(v', record)
  {
    QueryPlanBytes(q.l1.bitLen, q.l2.bitLen);
    var mid, ohe1, ohe2 := IndexTalks(prog, v, q, inboxes, inbox, masked);
    var ans := Padded(Lvl1Data(v.setup.db.rows, ohe1.Data()));
    v', record := SelectTalks(prog, mid, ans, ohe2, SelectGates(ans, ohe2), inbox);
    var s := SelectState(mid, mid.usedB, ans, ohe2);
    var rounds := LayerRounds(inboxes, |inboxes|);
    TalksThen(prog, BeginQuery(v), rounds, Said(prog, BeginQuery(v), rounds), s, AsShares(inbox), prog.emit(s),
              BeginConvert(v', record));
  }

  lemma {:induction false} ConvertEnds(prog: Code, v: Server, q: Query, record: bool, masked: seq<Bits>,
                                       commits: seq<int>, vEnd: nat)
    requires prog == ServerProgram() && v.queries == [q] && v.job == Idle && q.l1.Valid() && q.l2.Valid()
    requires q.l1.bitLen < 32 && q.l1.bitLen + q.l2.bitLen <= 32
    requires vEnd == v.usedD + q.l1.bitLen + q.l2.bitLen + 1 <= |v.dabits|
    requires |masked| > 0 && AllLong(masked, q.l1.bitLen + q.l2.bitLen + 1)
    ensures Feed(prog, BeginConvert(v, record), [AsMasked(masked), AsCommits(commits)]).job == Idle
  {
    var bvs, ds := ToConvert(q, record), v.dabits[v.usedD..vEnd];
    var e := XorIn(BlindBits(bvs, ds), masked);
    var commit := Commit(v.setup.M, v.setup.gens, OpeningOf(v.setup.M, v.isConst, q, bvs, e, ds));
    var x := Converting(bvs, ds, masked, e, commit);
    var token := if v.isConst then Some(Aggregate(v.setup.M, commits + [commit])) else None;
    TalkCertify(prog, v, q, record, vEnd, x, commits, token, v.(usedD := vEnd, tokens := v.tokens + [token]));
  }

  /** From there it ends idle exactly when the joined index fits a word. */
  lemma {:induction false} ConvertPanicsIff(prog: Code, v: Server, q: Query, record: bool, masked: seq<Bits>,
                                            commits: seq<int>)
    requires prog == ServerProgram() && v.queries == [q] && v.job == Idle && q.l1.Valid() && q.l2.Valid()
    requires v.usedD + q.l1.bitLen + q.l2.bitLen + 1 <= |v.dabits|
    requires |masked| > 0 && AllLong(masked, q.l1.bitLen + q.l2.bitLen + 1)
    ensures Feed(prog, BeginConvert(v, record), [AsMasked(masked), AsCommits(commits)]).job
         == if q.l1.bitLen < 32 && q.l1.bitLen + q.l2.bitLen <= 32 then Idle else Panicked
  {
    if q.l1.bitLen < 32 && q.l1.bitLen + q.l2.bitLen <= 32 {
      ConvertEnds(prog, v, q, record, masked, commits, v.usedD + q.l1.bitLen + q.l2.bitLen + 1);
    } else {
      PanicStays(prog, BeginConvert(v, record), [AsMasked(masked), AsCommits(commits)]);
    }
  }

  /** On a valid database a query with everything it needs panics exactly when the dimensions are not
      legal: a second dimension of one, a first of 32 bits or more, or more than 32 bits together. */
  lemma QueryPanicsIff(prog: Code, v: Server, q: Query, inboxes: seq<seq<Blinded>>,
                       inbox: seq<Blinded>,
                       masked: seq<Bits>, commits: seq<int>)
    requires prog == ServerProgram() && Served(v, q, inboxes, inbox, masked)
    ensures Feed(prog, BeginQuery(v),
                 (if v.setup.db.k2 >= 1 then LayerRounds(inboxes, |inboxes|) else []) + [AsShares(inbox)]
                 + [AsMasked(masked), AsCommits(commits)]).job
         == if Legal(v.setup) then Idle else Panicked
  {
    if v.setup.db.k2 == 0 {
      PanicStays(prog, BeginQuery(v), [] + [AsShares(inbox)] + [AsMasked(masked), AsCommits(commits)]);
    } else {
      var first, last := LayerRounds(inboxes, |inboxes|) + [AsShares(inbox)], [AsMasked(masked), AsCommits(commits)];
      var v', record := ReachesConvert(prog, v, q, inboxes, inbox, masked);
      ConvertPanicsIff(prog, v', q, record, masked, commits);
      var mid := BeginConvert(v', record);
      TalksConcat(prog, BeginQuery(v), first, Said(prog, BeginQuery(v), first), mid,
                  last, Said(prog, mid, last), Feed(prog, mid, last));
    }
  }

  /* ---------- the object ---------- */

  class PRCServer {
    const setup: Setup
    const mpc: MpcProvider
    const dabits: DaBits.DaBitProvider

    constructor (setup: Setup, mpc: MpcProvider, dabits: DaBits.DaBitProvider)
      ensures this.setup == setup && this.mpc == mpc && this.dabits == dabits
    {
      this.setup, this.mpc, this.dabits := setup, mpc, dabits;
    }

    /** Between queries: no layers, and the providers are initialized. */
    ghost predicate Valid()
      reads this, mpc, mpc.layers, mpc.beaver, dabits
    {
      setup.db.Valid() && MpcReady() && dabits.Valid() && dabits.storage.Some?
    }

    ghost predicate MpcReady()
      reads this, mpc, mpc.layers, mpc.beaver
    {
      mpc.layers == [] && mpc.Building() && mpc.beaver.Valid() && mpc.beaver.storage.Some?
    }

    /** The server as the protocol's state machine sees it, with `q` to answer. */
    ghost function View(q: Query, tokens: seq<Option<int>>): Server
      requires Valid()
      reads this, mpc, mpc.layers, mpc.beaver, dabits
    {
      Server(setup, mpc.isConst, mpc.beaver.storage.value, dabits.storage.value, mpc.beaver.used, dabits.used, [q],
             tokens, Idle)
    }

    /** Builds both one-hot circuits. */
    method BuildQuery(q: Query) returns (src1: Source, src2: Source)
      requires Valid() && q.l1.bitLen >= 1 && q.l2.bitLen >= 1
      modifies mpc`layers
      ensures mpc.Building() && BuiltBy(q, mpc.isConst, mpc.Circ(), src1, src2)
      ensures forall i :: 0 <= i < |mpc.layers| ==> fresh(mpc.layers[i])
    {
      assert mpc.Circ() == [];
      src1 := mpc.OheVec(q.l1.bitLen, q.l1.value);
      ghost var c1 := mpc.Circ();
      src2 := mpc.OheVec(q.l2.bitLen, q.l2.value);
      BuiltFrom(q, mpc.isConst, c1, mpc.Circ(), src1, src2);
    }

    /** Builds the query's circuits and runs them. */
    method RunQuery(q: Query, inboxes: seq<seq<Blinded>>)
        returns (src1: Source, src2: Source, sent: seq<Blinded>, ghost co: Course)
      requires Valid() && q.l1.bitLen >= 1 && q.l2.bitLen >= 1
      requires RunSupplied(q.l1.bitLen, q.l2.bitLen, mpc.beaver.storage.value, mpc.beaver.used, inboxes)
      modifies mpc, mpc.beaver`used
      ensures Valid() && Layers.Readable(mpc.output)
      ensures co.isConst == mpc.isConst && co.t == mpc.beaver.storage.value && co.inboxes == inboxes
      ensures RanQuery(q, co, old(mpc.beaver.used), src1, src2, mpc.beaver.used, OutputOf(mpc.output), sent)
    {
      src1, src2 := BuildQuery(q);
      co := mpc.CourseOf(inboxes);
      ghost var u := mpc.beaver.used;
      BuiltRuns(q, co, |mpc.layers|, src1, src2, u);
      sent := mpc.Run(inboxes);
      BuiltRan(q, co, src1, src2, u, mpc.beaver.used, OutputOf(mpc.output), sent);
    }

    /** `rec_retrieve` up to the outputs of the one-hot circuits. */
    method ExpandIndex(q: Query, inboxes: seq<seq<Blinded>>, ghost tokens: seq<Option<int>>)
        returns (ohe1: BitVec, ohe2: BitVec, sent: seq<Blinded>)
      requires Valid() && q.l1.bitLen == setup.db.k1 && q.l2.bitLen == setup.db.k2 >= 1
      requires RunSupplied(setup.db.k1, setup.db.k2, mpc.beaver.storage.value, mpc.beaver.used, inboxes)
      modifies mpc, mpc.beaver`used
      ensures Valid() && mpc.beaver.used == old(mpc.beaver.used) + Sum(QueryPlan(setup.db.k1, setup.db.k2))
      ensures ohe1.Valid() && ohe1.size == Pow2(setup.db.k1) && ohe2.Valid() && ohe2.size == Pow2(setup.db.k2)
      ensures Talks(ServerProgram(), BeginQuery(old(View(q, tokens))), LayerRounds(inboxes, |inboxes|), AsShares(sent),
                    SelectState(View(q, tokens), mpc.beaver.used, Padded(Lvl1Data(setup.db.rows, ohe1.Data())), ohe2))
    {
      ghost var v := View(q, tokens);
      ghost var co;
      var src1, src2;
      src1, src2, sent, co := RunQuery(q, inboxes);
      ghost var out := OutputOf(mpc.output);
      ohe1 := mpc.GetOutput(src1);
      ohe2 := mpc.GetOutput(src2);
      mpc.Clear();
      TalkIndex(ServerProgram(), v, q, co, src1, src2, out, sent, ohe1, ohe2, View(q, tokens));
    }

    /** Builds the select layer. */
    method BuildSelect(ans: BitVec, ohe2: BitVec) returns (src: Source)
      requires Valid() && ans.size == ohe2.size > 0
      modifies mpc`layers
      ensures mpc.Building() && mpc.Circ() == [SelectGates(ans, ohe2)] && src == TakeZ(Ticket(0, 0, ans.size))
      ensures forall i :: 0 <= i < |mpc.layers| ==> fresh(mpc.layers[i])
    {
      assert mpc.Circ() == [];
      SelectIsAnd(ans, ohe2);
      src := mpc.And(ans.size, Input(ans), Input(ohe2));
    }

    /** Runs it and takes the parity of its output. */
    method AndParity(ans: BitVec, ohe2: BitVec, inbox: seq<Blinded>, size: nat)
        returns (record: bool, m: Blinded, ghost co: Course, ghost turned: Turned)
      requires Valid() && ans.Valid() && ohe2.Valid() && ans.size == ohe2.size > 0 && size == CeilDiv8(ans.size)
      requires Holding(mpc.beaver.storage.value, mpc.beaver.used + size) && InboxFits(inbox, 8 * size)
      modifies mpc, mpc.beaver`used
      ensures Valid() && mpc.beaver.used == old(mpc.beaver.used) + size
      ensures co == Course(mpc.isConst, [SelectGates(ans, ohe2)], mpc.beaver.storage.value, [inbox])
      ensures TurnReady(co, 0, old(mpc.beaver.used), None) && turned == LayerTurn(co, 0, old(mpc.beaver.used), None)
      ensures record == Parity(turned.z) && m == turned.sent
    {
      ghost var u := mpc.beaver.used;
      var src := BuildSelect(ans, ohe2);
      co := mpc.CourseOf([inbox]);
      SelectRunOk(ans, ohe2, SelectGates(ans, ohe2), co, u);
      var sent := mpc.Run([inbox]);
      turned := LayerTurn(co, 0, u, None);
      OneLayerRan(co, u, OutputOf(mpc.output), mpc.beaver.used, sent, turned);
      m := sent[0];
      WholeOutput(turned.z, ans.size);
      var answer := mpc.GetOutput(src);
      record := Parity(answer.bits);
    }

    /** The rest of `rec_retrieve`: level one on the database, the AND, and the parity of its output. */
    method SelectRecord(q: Query, ohe1: BitVec, ohe2: BitVec, inbox: seq<Blinded>, ghost tokens: seq<Option<int>>)
        returns (record: bool, m: Blinded)
      requires Valid() && ohe1.Valid() && ohe1.size == Pow2(setup.db.k1) && ohe2.Valid()
      requires ohe2.size == Pow2(setup.db.k2)
      requires Holding(mpc.beaver.storage.value, mpc.beaver.used + CeilDiv8(Pow2(setup.db.k2)))
      requires InboxFits(inbox, 8 * CeilDiv8(Pow2(setup.db.k2)))
      modifies mpc, mpc.beaver`used
      ensures Valid() && mpc.beaver.used == old(mpc.beaver.used) + CeilDiv8(Pow2(setup.db.k2))
      ensures var x := SelectState(old(View(q, tokens)), old(mpc.beaver.used),
                                   Padded(Lvl1Data(setup.db.rows, ohe1.Data())), ohe2);
              && ServerProgram().emit(x) == Shares(m)
              && ServerProgram().absorb(x, AsShares(inbox)) == BeginConvert(View(q, tokens), record)
    {
      ghost var v := View(q, tokens);
      WholeVector(ohe1, setup.db.k1);
      var ans := Lvl1PirRetrieve(setup.db, ohe1);
      ghost var co, turned;
      record, m, co, turned := AndParity(ans, ohe2, inbox, CeilDiv8(ans.size));
      ghost var v', g := View(q, tokens), SelectGates(ans, ohe2);
      TalkSelect(ServerProgram(), v, ans, ohe2, g, co, turned, v');
    }

    /** `rec_retrieve`: the same broadcasts and the same share of the record bit as the state machine. */
    method RecRetrieve(q: Query, inboxes: seq<seq<Blinded>>, inbox: seq<Blinded>, ghost tokens: seq<Option<int>>)
        returns (record: bool, sent: seq<Payload>)
      requires Valid() && q.l1.bitLen == setup.db.k1 && q.l2.bitLen == setup.db.k2 >= 1
      requires RunSupplied(setup.db.k1, setup.db.k2, mpc.beaver.storage.value, mpc.beaver.used, inboxes)
      requires Holding(mpc.beaver.storage.value, mpc.beaver.used + QueryBytes(setup.db.k1, setup.db.k2))
      requires InboxFits(inbox, 8 * CeilDiv8(Pow2(setup.db.k2)))
      modifies mpc, mpc.beaver`used
      ensures Valid() && mpc.beaver.used == old(mpc.beaver.used) + QueryBytes(setup.db.k1, setup.db.k2)
      ensures Talks(ServerProgram(), BeginQuery(old(View(q, tokens))),
                    LayerRounds(inboxes, |inboxes|) + [AsShares(inbox)], sent,
                    BeginConvert(View(q, tokens), record))
    {
      ghost var start := BeginQuery(View(q, tokens));
      QueryPlanBytes(setup.db.k1, setup.db.k2);
      var ohe1, ohe2, first := ExpandIndex(q, inboxes, tokens);
      ghost var mid := SelectState(View(q, tokens), mpc.beaver.used, Padded(Lvl1Data(setup.db.rows, ohe1.Data())),
                                   ohe2);
      var m;
      record, m := SelectRecord(q, ohe1, ohe2, inbox, tokens);
      sent := AsShares(first) + [Shares(m)];
      TalksThen(ServerProgram(), start, LayerRounds(inboxes, |inboxes|), AsShares(first), mid, AsShares(inbox),
                Shares(m),
                BeginConvert(View(q, tokens), record));
    }

    /** `aggregate_commitments`: only the constant party aggregates, its own commitment last. */
    method AggregateCommitments(commits: seq<int>, commit: int) returns (agg: Option<int>)
      ensures agg == if mpc.isConst then Some(Aggregate(setup.M, commits + [commit])) else None
    {
      agg := None;
      if mpc.isConst {
        var c := AggregateCommits(setup.M, commits + [commit]);
        agg := Some(c);
      }
    }

    /** Conversion, and the commitment to what it yields. */
    method CommitTo(q: Query, bvs: seq<BooleanValue>, masked: seq<Bits>, w: nat)
        returns (sent: Bits, ghost x: Converting, commit: int)
      requires dabits.Valid() && dabits.storage.Some? && |bvs| == 2 && w == TotalBits(bvs) > 0
      requires dabits.used + w <= |dabits.storage.value| && |masked| > 0 && AllLong(masked, w)
      modifies dabits`used
      ensures dabits.Valid() && dabits.used == old(dabits.used) + w
      ensures x.bvs == bvs && x.masked == masked && x.ds == dabits.storage.value[old(dabits.used)..dabits.used]
      ensures |x.ds| == w
      ensures sent == BlindBits(bvs, x.ds) && x.e == XorIn(sent, masked) && commit == x.commit
      ensures x.commit == Commit(setup.M, setup.gens, OpeningOf(setup.M, mpc.isConst, q, bvs, x.e, x.ds))
    {
      var arith;
      sent, arith := ConvLayer.Interact(setup.M, mpc.isConst, bvs, dabits, masked);
      commit := Commit(setup.M, setup.gens, Opening(q.rnd, arith[0], arith[1]));
      x := Converting(bvs, dabits.storage.value[old(dabits.used)..dabits.used], masked, XorIn(sent, masked), commit);
    }

    /** Conversion and commitment, from the share of the record bit on. */
    method Certify(q: Query, record: bool, masked: seq<Bits>, commits: seq<int>, ghost tokens: seq<Option<int>>,
                   ghost vEnd: nat)
        returns (token: Option<int>, sent: seq<Payload>)
      requires Valid() && Convertible(View(q, tokens), vEnd) && |masked| > 0
      requires AllLong(masked, q.l1.bitLen + q.l2.bitLen + 1)
      modifies dabits`used
      ensures Valid() && dabits.used == vEnd
      ensures Talks(ServerProgram(), BeginConvert(old(View(q, tokens)), record),
                    [AsMasked(masked), AsCommits(commits)], sent,
                    View(q, tokens + [token]).(queries := []))
    {
      ghost var v := View(q, tokens);
      var bvs := ToConvert(q, record);
      var w := TotalBits(bvs);
      var e, commit;
      ghost var x;
      e, x, commit := CommitTo(q, bvs, masked, w);
      assert dabits.used == vEnd && MpcReady();
      token := AggregateCommitments(commits, commit);
      sent := [Masked(e), Commitment(commit)];
      ghost var v' := View(q, tokens + [token]);
      TalkCertify(ServerProgram(), v, q, record, vEnd, x, commits, token, v');
    }

    /** `prc_protocol`: given the same messages, the server broadcasts round by round what the state
        machine broadcasts, and ends with the token the machine ends with. */
    method PrcProtocol(q: Query, inboxes: seq<seq<Blinded>>, inbox: seq<Blinded>, masked: seq<Bits>, commits: seq<int>,
                       ghost tokens: seq<Option<int>>, ghost vEnd: nat)
        returns (token: Option<int>, sent: seq<Payload>)
      requires Valid() && q.l1.bitLen == setup.db.k1 && q.l2.bitLen == setup.db.k2 >= 1
      requires Convertible(View(q, tokens), vEnd)
      requires RunSupplied(setup.db.k1, setup.db.k2, mpc.beaver.storage.value, mpc.beaver.used, inboxes)
      requires Holding(mpc.beaver.storage.value, mpc.beaver.used + QueryBytes(setup.db.k1, setup.db.k2))
      requires InboxFits(inbox, 8 * CeilDiv8(Pow2(setup.db.k2)))
      requires |masked| > 0 && AllLong(masked, q.l1.bitLen + q.l2.bitLen + 1)
      modifies mpc, mpc.beaver`used, dabits`used
      ensures Valid() && mpc.beaver.used == old(mpc.beaver.used) + QueryBytes(setup.db.k1, setup.db.k2)
      ensures dabits.used == vEnd
      ensures Talks(ServerProgram(), BeginQuery(old(View(q, tokens))),
                    LayerRounds(inboxes, |inboxes|) + [AsShares(inbox)] + [AsMasked(masked), AsCommits(commits)], sent,
                    View(q, tokens + [token]).(queries := []))
    {
      ghost var start := BeginQuery(View(q, tokens));
      var record, first := RecRetrieve(q, inboxes, inbox, tokens);
      ghost var mid := BeginConvert(View(q, tokens), record);
      var last;
      token, last := Certify(q, record, masked, commits, tokens, vEnd);
      sent := first + last;
      TalksConcat(ServerProgram(), start, LayerRounds(inboxes, |inboxes|) + [AsShares(inbox)], first, mid,
                  [AsMasked(masked), AsCommits(commits)], last, View(q, tokens + [token]).(queries := []));
    }
  }
}
