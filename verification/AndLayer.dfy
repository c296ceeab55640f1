/** Evaluating all AND gates of a layer at once with Beaver triples, across all parties. */
module AndLayer {
  import opened Bits
  import opened Folds
  import opened Circuit

  /** One party's share of a run of Beaver triples. */
  datatype Triple = Triple(a: Bits, b: Bits, c: Bits)

  predicate TripleFits(t: Triple, w: nat) { |t.a| == |t.b| == |t.c| == w }

  /** The blinded streams a party broadcasts. */
  datatype Blinded = Blinded(u: Bits, v: Bits)

  predicate BlindedFits(m: Blinded, w: nat) { |m.u| == |m.v| == w }

  /** `blind_and_with_beaver` */
  function Blind(s: Streams, t: Triple): (m: Blinded)
    requires |s.x| == |s.y| && TripleFits(t, |s.x|)
    ensures BlindedFits(m, |s.x|)
  {
    Blinded(XorBits(t.a, s.x), XorBits(t.b, s.y))
  }

  function Us(ms: seq<Blinded>): (r: seq<Bits>)
    ensures |r| == |ms| && forall i :: 0 <= i < |ms| ==> r[i] == ms[i].u
  { Map((m: Blinded) => m.u, ms) }

  function Vs(ms: seq<Blinded>): (r: seq<Bits>)
    ensures |r| == |ms| && forall i :: 0 <= i < |ms| ==> r[i] == ms[i].v
  { Map((m: Blinded) => m.v, ms) }

  predicate InboxFits(inbox: seq<Blinded>, w: nat) { AllLong(Us(inbox), w) && AllLong(Vs(inbox), w) }

  /** `recons_beaver_uv`: XOR in every received share, in the order of arrival. */
  function Recons(own: Blinded, inbox: seq<Blinded>): (m: Blinded)
    requires |own.u| == |own.v| && InboxFits(inbox, |own.u|)
    ensures BlindedFits(m, |own.u|)
  {
    Blinded(XorIn(own.u, Us(inbox)), XorIn(own.v, Vs(inbox)))
  }

  /** One gate of one party: [const] uv ^ uy ^ vx ^ c. */
  predicate Gate(isConst: bool, u: bool, v: bool, x: bool, y: bool, c: bool) {
    (((isConst && u && v) != (u && y)) != (v && x)) != c
  }

  /** `finish_and_exchange`, gate by gate. */
  function FinishZ(isConst: bool, s: Streams, m: Blinded, c: Bits): (z: Bits)
    requires |s.x| == |s.y| == |c| && BlindedFits(m, |c|)
    ensures |z| == |c|
    ensures forall j :: 0 <= j < |c| ==> z[j] == Gate(isConst, m.u[j], m.v[j], s.x[j], s.y[j], c[j])
  {
    seq(|c|, j requires 0 <= j < |c| => Gate(isConst, m.u[j], m.v[j], s.x[j], s.y[j], c[j]))
  }

  /** The reconstruction does not depend on the order in which shares arrive. */
  lemma ReconsAnyOrder(own: Blinded, a: seq<Blinded>, b: seq<Blinded>)
    requires |own.u| == |own.v| && InboxFits(a, |own.u|) && multiset(a) == multiset(b)
    ensures InboxFits(b, |own.u|) && Recons(own, a) == Recons(own, b)
  {
    MapPerm((m: Blinded) => m.u, a, b);
    MapPerm((m: Blinded) => m.v, a, b);
    XorInAnyOrder(own.u, Us(a), Us(b));
    XorInAnyOrder(own.v, Vs(a), Vs(b));
  }

  lemma PeersFit(outs: seq<Blinded>, p: nat, w: nat)
    requires p < |outs| && Rect(Us(outs), w) && Rect(Vs(outs), w)
    ensures BlindedFits(outs[p], w) && InboxFits(FromPeers(outs, p), w)
  {
    assert Us(outs)[p] == outs[p].u && Vs(outs)[p] == outs[p].v;
    assert Us(FromPeers(outs, p)) == FromPeers(Us(outs), p);
    assert Vs(FromPeers(outs, p)) == FromPeers(Vs(outs), p);
    RectLong(Us(outs), w);
    RectLong(Vs(outs), w);
  }

  lemma AllPeersFit(outs: seq<Blinded>, w: nat)
    requires Rect(Us(outs), w) && Rect(Vs(outs), w)
    ensures forall i :: 0 <= i < |outs| ==> BlindedFits(outs[i], w) && InboxFits(FromPeers(outs, i), w)
  {
    forall i | 0 <= i < |outs| ensures BlindedFits(outs[i], w) && InboxFits(FromPeers(outs, i), w) {
      PeersFit(outs, i, w);
    }
  }

  lemma RectLong(rows: seq<Bits>, w: nat)
    requires Rect(rows, w)
    ensures AllLong(rows, w)
  {
  }

  /** Every party opens the same u and v: the XOR over all parties' broadcasts. */
  lemma ReconsOpens(outs: seq<Blinded>, p: nat, w: nat, j: nat)
    requires p < |outs| && j < w && Rect(Us(outs), w) && Rect(Vs(outs), w)
    ensures BlindedFits(outs[p], w) && InboxFits(FromPeers(outs, p), w)
    ensures Recons(outs[p], FromPeers(outs, p)).u[j] == Rec(Us(outs), j)
    ensures Recons(outs[p], FromPeers(outs, p)).v[j] == Rec(Vs(outs), j)
  {
    XorInOpens(Us(outs), p, w, j);
    XorInOpens(Vs(outs), p, w, j);
    assert Us(outs)[p] == outs[p].u && Vs(outs)[p] == outs[p].v;
    assert Us(FromPeers(outs, p)) == FromPeers(Us(outs), p);
    assert Vs(FromPeers(outs, p)) == FromPeers(Vs(outs), p);
  }

  /* ---------- the AND itself ---------- */

  function As(ts: seq<Triple>): (r: seq<Bits>)
    ensures |r| == |ts| && forall i :: 0 <= i < |ts| ==> r[i] == ts[i].a
  { seq(|ts|, i requires 0 <= i < |ts| => ts[i].a) }

  function Bs(ts: seq<Triple>): (r: seq<Bits>)
    ensures |r| == |ts| && forall i :: 0 <= i < |ts| ==> r[i] == ts[i].b
  { seq(|ts|, i requires 0 <= i < |ts| => ts[i].b) }

  function Cs(ts: seq<Triple>): (r: seq<Bits>)
    ensures |r| == |ts| && forall i :: 0 <= i < |ts| ==> r[i] == ts[i].c
  { seq(|ts|, i requires 0 <= i < |ts| => ts[i].c) }

  function Xs(ss: seq<Streams>): (r: seq<Bits>)
    ensures |r| == |ss| && forall i :: 0 <= i < |ss| ==> r[i] == ss[i].x
  { seq(|ss|, i requires 0 <= i < |ss| => ss[i].x) }

  function Ys(ss: seq<Streams>): (r: seq<Bits>)
    ensures |r| == |ss| && forall i :: 0 <= i < |ss| ==> r[i] == ss[i].y
  { seq(|ss|, i requires 0 <= i < |ss| => ss[i].y) }

  predicate TriplesFit(ts: seq<Triple>, w: nat) { forall i :: 0 <= i < |ts| ==> TripleFits(ts[i], w) }

  /** The parties' triples share c = a AND b, on every bit. */
  predicate Dealt(ts: seq<Triple>, w: nat) {
    forall j :: 0 <= j < w ==> Rec(Cs(ts), j) == (Rec(As(ts), j) && Rec(Bs(ts), j))
  }

  predicate AllStreamsFit(ss: seq<Streams>, w: nat) { forall i :: 0 <= i < |ss| ==> |ss[i].x| == |ss[i].y| == w }

  predicate LayerFits(ss: seq<Streams>, ts: seq<Triple>, w: nat) {
    |ss| == |ts| && AllStreamsFit(ss, w) && TriplesFit(ts, w)
  }

  /** What all parties broadcast for a layer of `w` gates. */
  function Broadcasts(ss: seq<Streams>, ts: seq<Triple>, w: nat): (r: seq<Blinded>)
    requires LayerFits(ss, ts, w)
    ensures |r| == |ss|
    ensures forall i :: 0 <= i < |ss| ==> r[i] == Blind(ss[i], ts[i])
    ensures Rect(Us(r), w) && Rect(Vs(r), w)
  {
    seq(|ss|, i requires 0 <= i < |ss| => Blind(ss[i], ts[i]))
  }

  /** All parties' Z streams; party 0 is the one that adds constants. */
  function LayerZs(ss: seq<Streams>, ts: seq<Triple>, w: nat): (zs: seq<Bits>)
    requires LayerFits(ss, ts, w)
    ensures |zs| == |ss| && Rect(zs, w)
  {
    var outs := Broadcasts(ss, ts, w);
    AllPeersFit(outs, w);
    seq(|ss|, i requires 0 <= i < |ss| =>
      FinishZ(i == 0, ss[i], Recons(outs[i], FromPeers(outs, i)), ts[i].c))
  }

  /** The values of u and v that the parties open for gate `j`. */
  function OpenU(ss: seq<Streams>, ts: seq<Triple>, w: nat, j: nat): bool
    requires LayerFits(ss, ts, w)
  {
    Rec(Us(Broadcasts(ss, ts, w)), j)
  }

  function OpenV(ss: seq<Streams>, ts: seq<Triple>, w: nat, j: nat): bool
    requires LayerFits(ss, ts, w)
  {
    Rec(Vs(Broadcasts(ss, ts, w)), j)
  }

  /** The opened value of one gate is the blinded wire value. */
  lemma Opened(ss: seq<Streams>, ts: seq<Triple>, w: nat, j: nat)
    requires LayerFits(ss, ts, w) && j < w
    ensures OpenU(ss, ts, w, j) == (Rec(As(ts), j) != Rec(Xs(ss), j))
    ensures OpenV(ss, ts, w, j) == (Rec(Bs(ts), j) != Rec(Ys(ss), j))
  {
    var outs := Broadcasts(ss, ts, w);
    ParityXor(Col(As(ts), j), Col(Xs(ss), j), Col(Us(outs), j));
    ParityXor(Col(Bs(ts), j), Col(Ys(ss), j), Col(Vs(outs), j));
  }

  lemma GateLinear(u: bool, v: bool, x: bool, y: bool, c: bool, x': bool, y': bool, c': bool)
    ensures (Gate(true, u, v, x, y, c) != Gate(false, u, v, x', y', c'))
         == Gate(true, u, v, x != x', y != y', c != c')
  {
  }

  /** The parties' gates share the gate of the shared values. */
  lemma {:induction false} GateShares(u: bool, v: bool, x: Bits, y: Bits, c: Bits, z: Bits)
    requires |x| == |y| == |c| == |z| > 0
    requires forall i :: 0 <= i < |z| ==> z[i] == Gate(i == 0, u, v, x[i], y[i], c[i])
    ensures Parity(z) == Gate(true, u, v, Parity(x), Parity(y), Parity(c))
  {
    var n := |z| - 1;
    if n == 0 {
      ParityOne(x);
      ParityOne(y);
      ParityOne(c);
      ParityOne(z);
    } else {
      GateShares(u, v, x[..n], y[..n], c[..n], z[..n]);
      GateLinear(u, v, Parity(x[..n]), Parity(y[..n]), Parity(c[..n]), x[n], y[n], c[n]);
    }
  }

  /** With u = a ^ x, v = b ^ y and c = ab, the gate computes xy. */
  lemma BeaverIdentity(a: bool, b: bool, x: bool, y: bool)
    ensures Gate(true, a != x, b != y, x, y, a && b) == (x && y)
  {
  }

  lemma ZShare(ss: seq<Streams>, ts: seq<Triple>, w: nat, i: nat, j: nat)
    requires LayerFits(ss, ts, w) && i < |ss| && j < w
    ensures LayerZs(ss, ts, w)[i][j]
         == Gate(i == 0, OpenU(ss, ts, w, j), OpenV(ss, ts, w, j), ss[i].x[j], ss[i].y[j], ts[i].c[j])
  {
    var outs := Broadcasts(ss, ts, w);
    ReconsOpens(outs, i, w, j);
  }

  lemma GateColumns(u: bool, v: bool, xs: seq<Bits>, ys: seq<Bits>, cs: seq<Bits>, zs: seq<Bits>,
                    w: nat, j: nat)
    requires |xs| == |ys| == |cs| == |zs| > 0 && j < w
    requires Rect(xs, w) && Rect(ys, w) && Rect(cs, w) && Rect(zs, w)
    requires forall i :: 0 <= i < |zs| ==> zs[i][j] == Gate(i == 0, u, v, xs[i][j], ys[i][j], cs[i][j])
    ensures Rec(zs, j) == Gate(true, u, v, Rec(xs, j), Rec(ys, j), Rec(cs, j))
  {
    GateShares(u, v, Col(xs, j), Col(ys, j), Col(cs, j), Col(zs, j));
  }

  lemma ZShares(ss: seq<Streams>, ts: seq<Triple>, w: nat, j: nat)
    requires LayerFits(ss, ts, w) && j < w
    ensures forall i :: 0 <= i < |ss| ==>
      LayerZs(ss, ts, w)[i][j] == Gate(i == 0, OpenU(ss, ts, w, j), OpenV(ss, ts, w, j), ss[i].x[j], ss[i].y[j],
                                       ts[i].c[j])
  {
    forall i | 0 <= i < |ss|
      ensures LayerZs(ss, ts, w)[i][j]
           == Gate(i == 0, OpenU(ss, ts, w, j), OpenV(ss, ts, w, j), ss[i].x[j], ss[i].y[j], ts[i].c[j])
    {
      ZShare(ss, ts, w, i, j);
    }
  }

  lemma LayerGate(ss: seq<Streams>, ts: seq<Triple>, w: nat, j: nat)
    requires LayerFits(ss, ts, w) && |ss| > 0 && j < w
    ensures Rec(LayerZs(ss, ts, w), j)
         == Gate(true, OpenU(ss, ts, w, j), OpenV(ss, ts, w, j), Rec(Xs(ss), j), Rec(Ys(ss), j), Rec(Cs(ts), j))
  {
    ZShares(ss, ts, w, j);
    GateColumns(OpenU(ss, ts, w, j), OpenV(ss, ts, w, j), Xs(ss), Ys(ss), Cs(ts), LayerZs(ss, ts, w), w, j);
  }

  /** The layer computes shares of the AND of what X and Y share, on every gate. */
  lemma LayerAnd(ss: seq<Streams>, ts: seq<Triple>, w: nat, j: nat)
    requires LayerFits(ss, ts, w) && |ss| > 0 && Dealt(ts, w) && j < w
    ensures Rec(LayerZs(ss, ts, w), j) == (Rec(Xs(ss), j) && Rec(Ys(ss), j))
  {
    LayerGate(ss, ts, w, j);
    Opened(ss, ts, w, j);
    BeaverIdentity(Rec(As(ts), j), Rec(Bs(ts), j), Rec(Xs(ss), j), Rec(Ys(ss), j));
  }
}
