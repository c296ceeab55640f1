/** All servers answering one query in lockstep: what each of them holds after every round. */
module Lockstep {
  import opened Bits
  import opened Folds
  import opened Circuit
  import opened OneHot
  import opened AndLayer
  import opened Evaluation
  import opened Beaver
  import opened Rounds
  import opened Party

  type Code = Program<Server, Payload>

  function OutsOf(prog: Code, states: seq<Server>): (r: seq<Payload>)
    ensures |r| == |states| && forall p :: 0 <= p < |states| ==> r[p] == prog.emit(states[p])
  {
    seq(|states|, p requires 0 <= p < |states| => prog.emit(states[p]))
  }

  /** One round of all servers, inboxes listed by peer, leads from `states` to `next`. */
  predicate Leads(prog: Code, states: seq<Server>, next: seq<Server>) {
    && |next| == |states|
    && forall p :: 0 <= p < |states| ==> prog.absorb(states[p], FromPeers(OutsOf(prog, states), p)) == next[p]
  }

  lemma AbsorbBy(prog: Code, s: Server, inbox: seq<Payload>, next: Server)
    requires prog == ServerProgram() && Absorb(s, inbox) == next
    ensures prog.absorb(s, inbox) == next
  {
  }

  lemma EmitBy(prog: Code, s: Server, m: Payload)
    requires prog == ServerProgram() && Emit(s) == m
    ensures prog.emit(s) == m
  {
  }

  /* ---------- exchanging one layer ---------- */

  predicate ExchangeOk(s: Server, isConst: bool, g: Gates, l: nat, prev: Option<Finished>, ss: Streams, t: Triple,
                       w: nat) {
    && s.isConst == isConst && LayerRunnable(s, g, l, prev) && 8 * g.size == w
    && ss == StreamsFor(g, l, prev) && t == Taken(s, g.size)
  }

  /** All servers are about to exchange a layer of `w` gates with input streams `ss` and triples `ts`. */
  predicate Exchanging(states: seq<Server>, gs: seq<Gates>, l: nat, prevs: seq<Option<Finished>>,
                       ss: seq<Streams>, ts: seq<Triple>, w: nat) {
    && |states| == |gs| == |prevs| == |ss| == |ts| && LayerFits(ss, ts, w)
    && forall p :: 0 <= p < |states| ==> ExchangeOk(states[p], p == 0, gs[p], l, prevs[p], ss[p], ts[p], w)
  }

  /** The messages are everyone's blinded streams. */
  predicate Wrapped(emits: seq<Payload>, ms: seq<Blinded>) {
    |emits| == |ms| && forall p :: 0 <= p < |ms| ==> emits[p] == Shares(ms[p])
  }

  lemma WrappedPeers(emits: seq<Payload>, ms: seq<Blinded>, p: nat, w: nat)
    requires Wrapped(emits, ms) && p < |ms| && Rect(Us(ms), w) && Rect(Vs(ms), w)
    ensures SharesOf(FromPeers(emits, p)) == FromPeers(ms, p)
    ensures AllShares(FromPeers(emits, p), w)
  {
    forall m | m in FromPeers(emits, p) ensures m.Shares? && BlindedFits(m.m, w) {
      var i :| 0 <= i < |emits| && emits[i] == m;
      assert Us(ms)[i] == ms[i].u && Vs(ms)[i] == ms[i].v;
    }
  }

  lemma EmitsWrapped(states: seq<Server>, gs: seq<Gates>, l: nat, prevs: seq<Option<Finished>>,
                     ss: seq<Streams>, ts: seq<Triple>, w: nat, emits: seq<Payload>)
    requires Exchanging(states, gs, l, prevs, ss, ts, w) && |emits| == |states|
    requires forall p :: 0 <= p < |states| ==> emits[p] == EmitLayer(states[p], gs[p], l, prevs[p])
    ensures Wrapped(emits, Broadcasts(ss, ts, w))
  {
    forall p | 0 <= p < |states| ensures emits[p] == Shares(Broadcasts(ss, ts, w)[p]) {
      assert ExchangeOk(states[p], p == 0, gs[p], l, prevs[p], ss[p], ts[p], w);
    }
  }

  lemma LayerZsAt(ss: seq<Streams>, ts: seq<Triple>, w: nat, p: nat)
    requires LayerFits(ss, ts, w) && p < |ss|
    ensures var outs := Broadcasts(ss, ts, w);
            && BlindedFits(outs[p], w) && InboxFits(FromPeers(outs, p), w)
            && LayerZs(ss, ts, w)[p] == FinishZ(p == 0, ss[p], Recons(outs[p], FromPeers(outs, p)), ts[p].c)
  {
    PeersFit(Broadcasts(ss, ts, w), p, w);
  }

  lemma AfterLayerIs(s: Server, isConst: bool, g: Gates, l: nat, prev: Option<Finished>,
                     ss: Streams, t: Triple,
                     w: nat, inbox: seq<Payload>, ms: seq<Blinded>)
    requires ExchangeOk(s, isConst, g, l, prev, ss, t, w) && AllShares(inbox, w) && SharesOf(inbox) == ms
    requires StreamsFit(ss, g.size) && TripleFits(t, w) && InboxFits(ms, w)
    ensures AfterLayer(s, g, l, prev, inbox) == Some(FinishZ(isConst, ss, Recons(Blind(ss, t), ms), t.c))
  {
  }

  /** Whatever the layer, every server finishes with its share of the AND. */
  lemma ExchangeRound(states: seq<Server>, gs: seq<Gates>, l: nat, prevs: seq<Option<Finished>>,
                      ss: seq<Streams>, ts: seq<Triple>, w: nat, emits: seq<Payload>, p: nat)
    requires Exchanging(states, gs, l, prevs, ss, ts, w) && |emits| == |states| && p < |states|
    requires forall p :: 0 <= p < |states| ==> emits[p] == EmitLayer(states[p], gs[p], l, prevs[p])
    ensures AfterLayer(states[p], gs[p], l, prevs[p], FromPeers(emits, p)) == Some(LayerZs(ss, ts, w)[p])
  {
    EmitsWrapped(states, gs, l, prevs, ss, ts, w, emits);
    var outs := Broadcasts(ss, ts, w);
    WrappedPeers(emits, outs, p, w);
    LayerZsAt(ss, ts, w, p);
    assert ExchangeOk(states[p], p == 0, gs[p], l, prevs[p], ss[p], ts[p], w);
    AfterLayerIs(states[p], p == 0, gs[p], l, prevs[p], ss[p], ts[p], w, FromPeers(emits, p), FromPeers(outs, p));
  }

  /* ---------- the one-hot circuits, layer by layer ---------- */

  /** Bytes of the layers from `l` down. */
  function Tail(z: seq<nat>, l: nat): nat
    decreases |z| - l
  {
    if l >= |z| then 0 else z[l] + Tail(z, l + 1)
  }

  lemma {:induction false} TailShrinks(z: seq<nat>, l: nat)
    requires l <= |z|
    ensures Tail(z, l) <= Tail(z, 0)
    decreases l
  {
    if l > 0 { TailShrinks(z, l - 1); }
  }

  /** The servers' part in one run: who they are, their circuits and triples, and where the outputs
      of the two one-hot circuits will be. */
  datatype Turn = Turn(bases: seq<Server>, ps: seq<Side>, z: seq<nat>, u: nat, src1: seq<Source>, src2: seq<Source>)

  /** The layers' triples are the next bytes of the server's storage, from the last layer up. */
  predicate TakesFrom(side: Side, s: Server, z: seq<nat>, u: nat) {
    && Shaped(side, z) && CircuitOk(side.circuit)
    && TripleFits(s.triples, |s.triples.a|) && 8 * (u + Tail(z, 0)) <= |s.triples.a|
    && forall l :: 0 <= l < |z| ==> LayerTakesFrom(side, s.triples, z, u, l)
  }

  predicate LayerTakesFrom(side: Side, t: Triple, z: seq<nat>, u: nat, l: nat)
    requires l < |z|
  {
    && |t.a| == |t.b| == |t.c| && 8 * (u + Tail(z, l)) <= |t.a| && l < |side.triples|
    && side.triples[l] == Slice(t, u + Tail(z, l + 1), u + Tail(z, l))
  }

  predicate TurnOk(t: Turn) {
    && |t.bases| == |t.ps| == |t.src1| == |t.src2|
    && AllShaped(t.ps, t.z)
    && (forall l :: 0 <= l < |t.z| ==> t.z[l] > 0)
    && forall p :: 0 <= p < |t.bases| ==> TakesFrom(t.ps[p], t.bases[p], t.z, t.u) && t.bases[p].isConst == (p == 0)
  }

  /** Server `p` about to exchange layer `l`, having finished `prev`. */
  function ExpandState(t: Turn, l: nat, p: nat, prev: Option<Finished>): Server
    requires TurnOk(t) && l < |t.z| && p < |t.bases|
  {
    assert Shaped(t.ps[p], t.z);
    t.bases[p].(usedB := t.u + Tail(t.z, l + 1), job := Expand(t.ps[p].circuit[..l + 1], prev, t.src1[p], t.src2[p]))
  }

  function ExpandStates(t: Turn, l: nat, prevs: seq<Option<Finished>>): (r: seq<Server>)
    requires TurnOk(t) && l < |t.z| && |prevs| == |t.bases|
    ensures |r| == |t.bases| && forall p :: 0 <= p < |r| ==> r[p] == ExpandState(t, l, p, prevs[p])
  {
    seq(|t.bases|, p requires 0 <= p < |t.bases| => ExpandState(t, l, p, prevs[p]))
  }

  function GatesAt(t: Turn, l: nat): (r: seq<Gates>)
    requires TurnOk(t) && l < |t.z|
    ensures |r| == |t.bases|
    ensures forall p :: 0 <= p < |r| ==> l < |t.ps[p].circuit| && r[p] == t.ps[p].circuit[l]
  {
    assert forall p :: 0 <= p < |t.ps| ==> Shaped(t.ps[p], t.z);
    seq(|t.bases|, p requires 0 <= p < |t.bases| => t.ps[p].circuit[l])
  }

  lemma {:induction false} ExpandCanTake(s: Server, side: Side, z: seq<nat>, u: nat, l: nat)
    requires TakesFrom(side, s, z, u) && l < |z| && z[l] > 0 && s.usedB == u + Tail(z, l + 1)
    ensures CanTake(s, z[l]) && Taken(s, z[l]) == side.triples[l]
  {
    TailShrinks(z, l);
    assert LayerTakesFrom(side, s.triples, z, u, l);
  }

  lemma {:induction false} ExpandRunnable(s: Server, side: Side, z: seq<nat>, u: nat, l: nat, prev: Option<Finished>)
    requires TakesFrom(side, s, z, u) && l < |z| && z[l] > 0 && s.usedB == u + Tail(z, l + 1)
    requires BelowOf(prev) == BelowFrom(side.circuit, l + 1)
    ensures ExchangeOk(s, s.isConst, side.circuit[l], l, prev, StreamsFor(side.circuit[l], l, prev), side.triples[l],
                       8 * z[l])
  {
    ExpandCanTake(s, side, z, u, l);
    assert LayerOk(side.circuit, l);
  }

  lemma ExpandPoint(t: Turn, l: nat, p: nat, prevs: seq<Option<Finished>>)
    requires TurnOk(t) && l < |t.z| && p < |t.bases| && Ready(t.ps, l + 1, prevs)
    ensures ExchangeOk(ExpandState(t, l, p, prevs[p]), p == 0, GatesAt(t, l)[p], l, prevs[p],
                       StreamsAt(t.ps, t.z, l, prevs)[p], TriplesAt(t.ps, t.z, l)[p], 8 * t.z[l])
  {
    assert TakesFrom(t.ps[p], t.bases[p], t.z, t.u);
    ExpandRunnable(ExpandState(t, l, p, prevs[p]), t.ps[p], t.z, t.u, l, prevs[p]);
  }

  lemma ExpandExchanging(t: Turn, l: nat, prevs: seq<Option<Finished>>)
    requires TurnOk(t) && l < |t.z| && Ready(t.ps, l + 1, prevs)
    ensures Exchanging(ExpandStates(t, l, prevs), GatesAt(t, l), l, prevs, StreamsAt(t.ps, t.z, l, prevs),
                       TriplesAt(t.ps, t.z, l), 8 * t.z[l])
  {
    forall p | 0 <= p < |t.bases|
      ensures ExchangeOk(ExpandStates(t, l, prevs)[p], p == 0, GatesAt(t, l)[p], l, prevs[p],
                         StreamsAt(t.ps, t.z, l, prevs)[p], TriplesAt(t.ps, t.z, l)[p], 8 * t.z[l])
    {
      ExpandPoint(t, l, p, prevs);
    }
  }

  lemma ExpandEmit(prog: Code, s: Server, layers: seq<Gates>, l: nat)
    requires prog == ServerProgram() && s.job.Expand? && s.job.layers == layers && |layers| == l + 1
    ensures prog.emit(s) == EmitLayer(s, layers[l], l, s.job.prev)
  {
    EmitBy(prog, s, EmitLayer(s, layers[l], l, s.job.prev));
  }

  lemma ExpandEmits(prog: Code, t: Turn, l: nat, prevs: seq<Option<Finished>>)
    requires prog == ServerProgram() && TurnOk(t) && l < |t.z| && |prevs| == |t.bases|
    ensures forall p :: 0 <= p < |t.bases| ==>
              OutsOf(prog, ExpandStates(t, l, prevs))[p] == EmitLayer(ExpandStates(t, l, prevs)[p], GatesAt(t, l)[p],
                                                                      l, prevs[p])
  {
    var states := ExpandStates(t, l, prevs);
    forall p | 0 <= p < |t.bases|
      ensures OutsOf(prog, states)[p] == EmitLayer(states[p], GatesAt(t, l)[p], l, prevs[p])
    {
      assert Shaped(t.ps[p], t.z);
      ExpandEmit(prog, states[p], t.ps[p].circuit[..l + 1], l);
    }
  }

  lemma ExpandAbsorb(prog: Code, s: Server, layers: seq<Gates>, l: nat, inbox: seq<Payload>,
                     zi: Bits, used: nat)
    requires prog == ServerProgram() && s.job.Expand? && s.job.layers == layers && |layers| == l + 1
    requires used == s.usedB + layers[l].size
    requires AfterLayer(s, layers[l], l, s.job.prev, inbox) == Some(zi)
    ensures prog.absorb(s, inbox)
         == NextLayer(s.(usedB := used), layers[..l], Some(Finished(l, zi)), s.job.src1, s.job.src2)
  {
    AbsorbBy(prog, s, inbox, NextLayer(s.(usedB := used), layers[..l], Some(Finished(l, zi)), s.job.src1, s.job.src2));
  }

  /** Where server `p` goes when layer `l` is done with output `zi`. */
  function Above(t: Turn, l: nat, p: nat, prev: Option<Finished>, zi: Bits): Server
    requires TurnOk(t) && l < |t.z| && p < |t.bases|
  {
    assert Shaped(t.ps[p], t.z);
    NextLayer(ExpandState(t, l, p, prev).(usedB := t.u + Tail(t.z, l)), t.ps[p].circuit[..l], Some(Finished(l, zi)),
              t.src1[p], t.src2[p])
  }

  lemma ExpandMoves(prog: Code, t: Turn, l: nat, p: nat, prev: Option<Finished>,
                    inbox: seq<Payload>, zi: Bits)
    requires prog == ServerProgram() && TurnOk(t) && l < |t.z| && p < |t.bases|
    requires AfterLayer(ExpandState(t, l, p, prev), GatesAt(t, l)[p], l, prev, inbox) == Some(zi)
    ensures prog.absorb(ExpandState(t, l, p, prev), inbox) == Above(t, l, p, prev, zi)
  {
    var c := t.ps[p].circuit;
    assert Shaped(t.ps[p], t.z);
    assert c[..l + 1][..l] == c[..l];
    ExpandAbsorb(prog, ExpandState(t, l, p, prev), c[..l + 1], l, inbox, zi, t.u + Tail(t.z, l));
  }

  /** Layer `l` is exchanged: server p goes on to the layer above with its share of the AND. */
  lemma ExpandRound(prog: Code, t: Turn, l: nat, prevs: seq<Option<Finished>>, p: nat)
    requires prog == ServerProgram() && TurnOk(t) && l < |t.z| && p < |t.bases| && Ready(t.ps, l + 1, prevs)
    ensures prog.absorb(ExpandStates(t, l, prevs)[p], FromPeers(OutsOf(prog, ExpandStates(t, l, prevs)), p))
         == Above(t, l, p, prevs[p], ZsAt(t.ps, t.z, l, prevs)[p])
  {
    var states := ExpandStates(t, l, prevs);
    var emits := OutsOf(prog, states);
    ExpandExchanging(t, l, prevs);
    ExpandEmits(prog, t, l, prevs);
    ExchangeRound(states, GatesAt(t, l), l, prevs, StreamsAt(t.ps, t.z, l, prevs), TriplesAt(t.ps, t.z, l), 8 * t.z[l],
                  emits, p);
    ExpandMoves(prog, t, l, p, prevs[p], FromPeers(emits, p), ZsAt(t.ps, t.z, l, prevs)[p]);
  }

  lemma AboveIsExpand(t: Turn, l: nat, p: nat, prev: Option<Finished>, zi: Bits)
    requires TurnOk(t) && l + 1 < |t.z| && p < |t.bases|
    ensures Above(t, l + 1, p, prev, zi) == ExpandState(t, l, p, Some(Finished(l + 1, zi)))
  {
    assert Shaped(t.ps[p], t.z);
  }

  /** Where all servers go when layer `l` is done with outputs `zs`. */
  function AllAbove(t: Turn, l: nat, prevs: seq<Option<Finished>>, zs: seq<Bits>): (r: seq<Server>)
    requires TurnOk(t) && l < |t.z| && |prevs| == |zs| == |t.bases|
    ensures |r| == |t.bases| && forall p :: 0 <= p < |r| ==> r[p] == Above(t, l, p, prevs[p], zs[p])
  {
    seq(|t.bases|, p requires 0 <= p < |t.bases| => Above(t, l, p, prevs[p], zs[p]))
  }

  lemma ExpandLeads(prog: Code, t: Turn, l: nat, prevs: seq<Option<Finished>>, zs: seq<Bits>)
    requires prog == ServerProgram() && TurnOk(t) && l < |t.z| && Ready(t.ps, l + 1, prevs)
    requires zs == ZsAt(t.ps, t.z, l, prevs)
    ensures Leads(prog, ExpandStates(t, l, prevs), AllAbove(t, l, prevs, zs))
  {
    var states := ExpandStates(t, l, prevs);
    forall p | 0 <= p < |t.bases|
      ensures prog.absorb(states[p], FromPeers(OutsOf(prog, states), p)) == Above(t, l, p, prevs[p], zs[p])
    {
      ExpandRound(prog, t, l, prevs, p);
    }
  }

  lemma AllAboveExpand(t: Turn, l: nat, m: nat, prevs: seq<Option<Finished>>, zs: seq<Bits>)
    requires TurnOk(t) && m == l + 1 < |t.z| && |prevs| == |zs| == |t.bases|
    ensures AllAbove(t, m, prevs, zs) == ExpandStates(t, l, Wrap(m, zs))
  {
    var a, b := AllAbove(t, m, prevs, zs), ExpandStates(t, l, Wrap(m, zs));
    forall p | 0 <= p < |t.bases| ensures a[p] == b[p] { AboveIsExpand(t, l, p, prevs[p], zs[p]); }
  }

  /** ... to the layer above. */
  lemma ExpandLayer(prog: Code, t: Turn, l: nat, m: nat, prevs: seq<Option<Finished>>, zs: seq<Bits>)
    requires prog == ServerProgram() && TurnOk(t) && m == l + 1 < |t.z| && Ready(t.ps, m + 1, prevs)
    requires zs == ZsAt(t.ps, t.z, m, prevs)
    ensures Leads(prog, ExpandStates(t, m, prevs), ExpandStates(t, l, Wrap(m, zs)))
  {
    ExpandLeads(prog, t, m, prevs, zs);
    AllAboveExpand(t, l, m, prevs, zs);
  }

  /** The servers when layer `l` is next. */
  function ExpandAt(t: Turn, l: nat): (r: seq<Server>)
    requires TurnOk(t) && l < |t.z|
    ensures |r| == |t.bases|
  {
    ExpandStates(t, l, Done(t.ps, t.z, l + 1))
  }

  lemma DoneStep(ps: seq<Side>, z: seq<nat>, l: nat)
    requires AllShaped(ps, z) && l < |z|
    ensures Done(ps, z, l) == Wrap(l, ZsAt(ps, z, l, Done(ps, z, l + 1)))
  {
  }

  lemma ExpandAtNext(prog: Code, t: Turn, l: nat, m: nat)
    requires prog == ServerProgram() && TurnOk(t) && m == l + 1 < |t.z|
    ensures Leads(prog, ExpandAt(t, m), ExpandAt(t, l))
  {
    var prevs := Done(t.ps, t.z, m + 1);
    DoneReady(t.ps, t.z, m + 1);
    ExpandLayer(prog, t, l, m, prevs, ZsAt(t.ps, t.z, m, prevs));
    DoneStep(t.ps, t.z, m);
  }

  type Sys = System<Server, Payload>

  /** After `r` rounds in lockstep the servers are in `states`. */
  predicate Reached(sys: Sys, r: nat, states: seq<Server>) { Lock(sys, r) == states }

  lemma ReachedNext(sys: Sys, r: nat, r': nat, states: seq<Server>, next: seq<Server>)
    requires Reached(sys, r, states) && Leads(sys.prog, states, next) && r' == r + 1
    ensures Reached(sys, r', next)
  {
    assert Outs(sys, states) == OutsOf(sys.prog, states);
  }

  lemma ExpandOne(sys: Sys, t: Turn, l: nat, m: nat, r: nat, r': nat)
    requires sys.prog == ServerProgram() && TurnOk(t) && m == l + 1 < |t.z| && r' == r + 1
    requires Reached(sys, r, ExpandAt(t, m))
    ensures Reached(sys, r', ExpandAt(t, l))
  {
    ExpandAtNext(sys.prog, t, l, m);
    ReachedNext(sys, r, r', ExpandAt(t, m), ExpandAt(t, l));
  }

  /** From the last layer to layer `l`, one round each. */
  lemma {:induction false} ExpandTo(sys: Sys, t: Turn, r: nat, last: nat, l: nat, r': nat)
    requires sys.prog == ServerProgram() && TurnOk(t) && l <= last == |t.z| - 1 && r' == r + (last - l)
    requires Reached(sys, r, ExpandAt(t, last))
    ensures Reached(sys, r', ExpandAt(t, l))
    decreases last - l
  {
    if l == last {
      assert r' == r;
    } else {
      var m, q := l + 1, r' - 1;
      ExpandTo(sys, t, r, last, m, q);
      ExpandOne(sys, t, l, m, q, r');
    }
  }
}
