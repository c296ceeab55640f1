/** The circuits that layers are built into: tickets, the operations that route bits between
    layers, and what executing a layer's operations does to its two input streams. */
module Circuit {
  import opened Bits

  /** A reservation of AND gates in a layer: bits [stBit, endBit), byte aligned at the start. */
  datatype Ticket = Ticket(layerNum: nat, stBit: nat, endBit: nat)

  datatype Source = Input(data: BitVec) | TakeZ(ticket: Ticket)

  /** Stream 0 is X, stream 1 is Y. */
  datatype Dest = Relay(ticket: Ticket, stream: nat) | NoDest

  datatype Operation =
    | Copy(inp: Source, out: Dest)
    | Replicate(n: nat, inp: Source, out: Dest)
    | BitExpand(n: nat, inp: Source, out: Dest)

  /** A layer while tickets are handed out: its size in bytes and its queued operations. */
  datatype Gates = Gates(size: nat, ops: seq<Operation>)

  /** A finished layer: the output stream Z. */
  datatype Finished = Finished(layerNum: nat, z: Bits)

  datatype Streams = Streams(x: Bits, y: Bits)

  /** What a layer may read from: nothing, or the layer below it and that layer's size. */
  datatype Below = Bottom | Below(layerNum: nat, size: nat)

  function BelowOf(prev: Option<Finished>): Below {
    match prev
    case None => Bottom
    case Some(f) => Below(f.layerNum, |f.z| / 8)
  }

  /* ---------- what the source checks before it uses a ticket or an operation ---------- */

  predicate TicketFits(t: Ticket, layerNum: nat, size: nat) {
    && t.layerNum == layerNum
    && t.stBit % 8 == 0
    && t.stBit <= t.endBit
    && CeilDiv8(t.endBit) <= size
  }

  predicate SourceOk(src: Source, below: Below) {
    match src
    case Input(v) => v.Valid()
    case TakeZ(t) => below.Below? && TicketFits(t, below.layerNum, below.size)
  }

  function SourceLen(src: Source): nat {
    match src
    case Input(v) => v.size
    case TakeZ(t) => if t.stBit <= t.endBit then t.endBit - t.stBit else 0
  }

  function OutLen(op: Operation): nat {
    match op
    case Copy(inp, _) => SourceLen(inp)
    case Replicate(n, inp, _) => Times(n, SourceLen(inp))
    case BitExpand(n, inp, _) => Times(SourceLen(inp), n)
  }

  /** None of the assertions that executing `op` passes through fails. */
  predicate Runnable(op: Operation, layerNum: nat, size: nat, below: Below) {
    && op.out.Relay? && op.out.stream < 2
    && TicketFits(op.out.ticket, layerNum, size)
    && SourceOk(op.inp, below)
    && op.out.ticket.stBit + OutLen(op) <= 8 * size
    && (op.BitExpand? ==> op.n > 0)
  }

  /** The operation fills its own ticket, no less and no more. */
  predicate Exact(op: Operation) {
    op.out.Relay? && OutLen(op) == op.out.ticket.endBit - op.out.ticket.stBit
  }

  predicate NoOverlap(a: Operation, b: Operation)
    requires a.out.Relay? && b.out.Relay?
  {
    || a.out.stream != b.out.stream
    || a.out.ticket.endBit <= b.out.ticket.stBit
    || b.out.ticket.endBit <= a.out.ticket.stBit
  }

  predicate AllRunnable(ops: seq<Operation>, layerNum: nat, size: nat, below: Below) {
    forall op :: op in ops ==> Runnable(op, layerNum, size, below)
  }

  /** Any two different operations of the layer write different bits. */
  predicate Disjoint(ops: seq<Operation>) {
    && (forall op :: op in ops ==> Exact(op))
    && (forall a, b :: a in ops && b in ops && a != b ==> NoOverlap(a, b))
  }

  /* ---------- executing operations ---------- */

  lemma WholeBytesOf(z: Bits, st: nat, end: nat)
    requires st % 8 == 0 && st <= end && CeilDiv8(end) <= |z| / 8
    ensures st <= 8 * CeilDiv8(end) <= |z| && 8 * CeilDiv8(end) - st == 8 * CeilDiv8(end - st)
    ensures end <= 8 * CeilDiv8(end) && z[st..8 * CeilDiv8(end)][..end - st] == z[st..end]
  {
  }

  /** `read_output`: whole bytes of Z, shrunk to the ticket's bits; the rest is padding. */
  function ReadOutput(f: Finished, t: Ticket): (v: BitVec)
    requires TicketFits(t, f.layerNum, |f.z| / 8)
    ensures v.Valid() && v.size == t.endBit - t.stBit
    ensures v.Data() == f.z[t.stBit..t.endBit]
  {
    WholeBytesOf(f.z, t.stBit, t.endBit);
    BitVec(f.z[t.stBit..8 * CeilDiv8(t.endBit)], t.endBit - t.stBit)
  }

  /** `extract_src_data` */
  function Extract(src: Source, prev: Option<Finished>): (v: BitVec)
    requires SourceOk(src, BelowOf(prev))
    ensures v.Valid() && v.size == SourceLen(src)
  {
    match src
    case Input(data) => data
    case TakeZ(t) => ReadOutput(prev.value, t)
  }

  /** [d, d, ..., d], `n` times. */
  function Replicated(d: Bits, n: nat): (r: Bits)
    ensures |r| == Times(n, |d|)
  {
    if n == 0 then [] else Replicated(d, n - 1) + d
  }

  /** Every bit of `d` repeated `n` times. */
  function Expanded(d: Bits, n: nat): (r: Bits)
    ensures |r| == Times(|d|, n)
  {
    if |d| == 0 then [] else Expanded(d[..|d| - 1], n) + BoolSeq(n, d[|d| - 1])
  }

  lemma {:induction false} ReplicatedAt(d: Bits, n: nat, q: nat, r: nat)
    requires q < n && r < |d|
    ensures At(Replicated(d, n), Times(q, |d|) + r) == d[r]
    decreases n
  {
    if q < n - 1 { ReplicatedAt(d, n - 1, q, r); TimesBound(q, n - 1, |d|); }
  }

  lemma {:induction false} ExpandedAt(d: Bits, n: nat, q: nat, r: nat)
    requires q < |d| && r < n
    ensures At(Expanded(d, n), Times(q, n) + r) == d[q]
    decreases |d|
  {
    if q < |d| - 1 { ExpandedAt(d[..|d| - 1], n, q, r); TimesBound(q, |d| - 1, n); }
  }

  lemma {:induction false} ExpandedNext(d: Bits, n: nat, i: nat)
    requires i < |d|
    ensures Expanded(d[..i + 1], n) == Expanded(d[..i], n) + BoolSeq(n, d[i])
    ensures |Expanded(d[..i], n)| == Times(i, n)
  {
    assert d[..i + 1][..i] == d[..i];
  }

  /** The bits `op` writes. */
  function OpOut(op: Operation, prev: Option<Finished>): (r: Bits)
    requires SourceOk(op.inp, BelowOf(prev))
    ensures |r| == OutLen(op)
  {
    var d := Extract(op.inp, prev).Data();
    match op
    case Copy(_, _) => d
    case Replicate(n, _, _) => Replicated(d, n)
    case BitExpand(n, _, _) => Expanded(d, n)
  }

  predicate StreamsFit(s: Streams, size: nat) { |s.x| == |s.y| == 8 * size }

  function StreamOf(s: Streams, stream: nat): Bits { if stream == 0 then s.x else s.y }

  function ExecOp(s: Streams, op: Operation, layerNum: nat, size: nat, prev: Option<Finished>): (r: Streams)
    requires StreamsFit(s, size) && Runnable(op, layerNum, size, BelowOf(prev))
    ensures StreamsFit(r, size)
  {
    var out := OpOut(op, prev);
    if op.out.stream == 0 then s.(x := Splice(s.x, op.out.ticket.stBit, out))
    else s.(y := Splice(s.y, op.out.ticket.stBit, out))
  }

  /** `execute_operations`: the queue is popped from its end. */
  function ExecOps(s: Streams, ops: seq<Operation>, layerNum: nat, size: nat, prev: Option<Finished>): (r: Streams)
    requires StreamsFit(s, size) && AllRunnable(ops, layerNum, size, BelowOf(prev))
    ensures StreamsFit(r, size)
    decreases |ops|
  {
    if |ops| == 0 then s
    else
      var k := |ops| - 1;
      ExecOps(ExecOp(s, ops[k], layerNum, size, prev), ops[..k], layerNum, size, prev)
  }

  function ZeroStreams(size: nat): (s: Streams)
    ensures StreamsFit(s, size)
  {
    Streams(BoolSeq(8 * size, false), BoolSeq(8 * size, false))
  }

  /** The two input streams of a layer once its operations have run. */
  function LayerStreams(g: Gates, layerNum: nat, prev: Option<Finished>): (s: Streams)
    requires AllRunnable(g.ops, layerNum, g.size, BelowOf(prev))
    ensures StreamsFit(s, g.size)
  {
    ExecOps(ZeroStreams(g.size), g.ops, layerNum, g.size, prev)
  }

  /** The valid bits a source gives, or none if it cannot be read. */
  function SourceBits(src: Source, prev: Option<Finished>): (r: Bits)
    ensures SourceOk(src, BelowOf(prev)) ==> |r| == SourceLen(src)
  {
    if SourceOk(src, BelowOf(prev)) then Extract(src, prev).Data() else []
  }

  /* ---------- what a layer's streams hold, whatever the order of its operations ---------- */

  /** `op` writes bit `j` of stream `stream`. */
  predicate Covers(op: Operation, stream: nat, j: nat) {
    op.out.Relay? && op.out.stream == stream && op.out.ticket.stBit <= j < op.out.ticket.endBit
  }

  lemma {:induction false} ExecUncovered(s: Streams, ops: seq<Operation>, layerNum: nat, size: nat,
                                         prev: Option<Finished>, stream: nat, j: nat)
    requires StreamsFit(s, size) && AllRunnable(ops, layerNum, size, BelowOf(prev)) && Disjoint(ops)
    requires stream < 2 && j < 8 * size
    requires forall op :: op in ops ==> !Covers(op, stream, j)
    ensures StreamOf(ExecOps(s, ops, layerNum, size, prev), stream)[j] == StreamOf(s, stream)[j]
    decreases |ops|
  {
    if |ops| > 0 {
      var k := |ops| - 1;
      assert ops[k] in ops && Exact(ops[k]) && !Covers(ops[k], stream, j);
      ExecUncovered(ExecOp(s, ops[k], layerNum, size, prev), ops[..k], layerNum, size, prev, stream, j);
    }
  }

  lemma CoveredOnce(ops: seq<Operation>, k: nat, op: Operation, stream: nat, j: nat)
    requires Disjoint(ops) && k == |ops| - 1 && op in ops && op !in ops[..k] && Covers(op, stream, j)
    ensures op == ops[k]
    ensures forall other :: other in ops[..k] ==> !Covers(other, stream, j)
  {
    assert ops == ops[..k] + [ops[k]];
    forall other | other in ops[..k] ensures !Covers(other, stream, j) {
      assert other in ops && other != op;
      assert Exact(op) && Exact(other) && NoOverlap(op, other);
    }
  }

  lemma ExecOpBit(s: Streams, op: Operation, layerNum: nat, size: nat, prev: Option<Finished>,
                  stream: nat, j: nat)
    requires StreamsFit(s, size) && Runnable(op, layerNum, size, BelowOf(prev)) && Exact(op) && Covers(op, stream, j)
    ensures j < 8 * size && j - op.out.ticket.stBit < |OpOut(op, prev)|
    ensures StreamOf(ExecOp(s, op, layerNum, size, prev), stream)[j] == OpOut(op, prev)[j - op.out.ticket.stBit]
  {
  }

  lemma {:induction false} ExecCoveredByLast(s: Streams, ops: seq<Operation>, layerNum: nat, size: nat,
                                             prev: Option<Finished>, op: Operation, stream: nat, j: nat)
    requires StreamsFit(s, size) && AllRunnable(ops, layerNum, size, BelowOf(prev)) && Disjoint(ops)
    requires op in ops && op !in ops[..|ops| - 1] && stream < 2 && Covers(op, stream, j)
    ensures j < 8 * size && j - op.out.ticket.stBit < |OpOut(op, prev)|
    ensures StreamOf(ExecOps(s, ops, layerNum, size, prev), stream)[j] == OpOut(op, prev)[j - op.out.ticket.stBit]
  {
    var k := |ops| - 1;
    CoveredOnce(ops, k, op, stream, j);
    ExecOpBit(s, op, layerNum, size, prev, stream, j);
    ExecUncovered(ExecOp(s, op, layerNum, size, prev), ops[..k], layerNum, size, prev, stream, j);
  }

  lemma {:induction false} ExecCovered(s: Streams, ops: seq<Operation>, layerNum: nat, size: nat,
                                       prev: Option<Finished>, op: Operation, stream: nat, j: nat)
    requires StreamsFit(s, size) && AllRunnable(ops, layerNum, size, BelowOf(prev)) && Disjoint(ops)
    requires op in ops && stream < 2 && Covers(op, stream, j)
    ensures j < 8 * size && j - op.out.ticket.stBit < |OpOut(op, prev)|
    ensures StreamOf(ExecOps(s, ops, layerNum, size, prev), stream)[j] == OpOut(op, prev)[j - op.out.ticket.stBit]
    decreases |ops|
  {
    var k := |ops| - 1;
    if op in ops[..k] {
      ExecCovered(ExecOp(s, ops[k], layerNum, size, prev), ops[..k], layerNum, size, prev, op, stream, j);
    } else {
      ExecCoveredByLast(s, ops, layerNum, size, prev, op, stream, j);
    }
  }

  /** Bit `j` of a layer's stream is what the one operation covering it writes there,
      and zero where no operation writes. */
  lemma LayerStreamBit(g: Gates, layerNum: nat, prev: Option<Finished>, op: Operation, stream: nat,
                       j: nat)
    requires AllRunnable(g.ops, layerNum, g.size, BelowOf(prev)) && Disjoint(g.ops)
    requires stream < 2 && j < 8 * g.size
    ensures op in g.ops && Covers(op, stream, j) ==>
              && j - op.out.ticket.stBit < |OpOut(op, prev)|
              && StreamOf(LayerStreams(g, layerNum, prev), stream)[j] == OpOut(op, prev)[j - op.out.ticket.stBit]
    ensures (forall o :: o in g.ops ==> !Covers(o, stream, j)) ==>
              !StreamOf(LayerStreams(g, layerNum, prev), stream)[j]
  {
    var s := ZeroStreams(g.size);
    if op in g.ops && Covers(op, stream, j) {
      ExecCovered(s, g.ops, layerNum, g.size, prev, op, stream, j);
    }
    if forall o :: o in g.ops ==> !Covers(o, stream, j) {
      ExecUncovered(s, g.ops, layerNum, g.size, prev, stream, j);
    }
  }

  /** Popping the queue last-in first-out gives the streams any other order gives. */
  lemma OrderIndependent(g: Gates, ops: seq<Operation>, layerNum: nat, prev: Option<Finished>)
    requires AllRunnable(g.ops, layerNum, g.size, BelowOf(prev)) && Disjoint(g.ops)
    requires forall op :: op in ops <==> op in g.ops
    ensures LayerStreams(g.(ops := ops), layerNum, prev) == LayerStreams(g, layerNum, prev)
  {
    var a, b := LayerStreams(g.(ops := ops), layerNum, prev), LayerStreams(g, layerNum, prev);
    forall stream, j | 0 <= stream < 2 && 0 <= j < 8 * g.size
      ensures StreamOf(a, stream)[j] == StreamOf(b, stream)[j]
    {
      if op :| op in ops && Covers(op, stream, j) {
        LayerStreamBit(g, layerNum, prev, op, stream, j);
        LayerStreamBit(g.(ops := ops), layerNum, prev, op, stream, j);
      } else {
        LayerStreamBit(g, layerNum, prev, Copy(Input(BitVec([], 0)), NoDest), stream, j);
        LayerStreamBit(g.(ops := ops), layerNum, prev, Copy(Input(BitVec([], 0)), NoDest), stream, j);
      }
    }
    assert a.x == b.x by {
      forall j | 0 <= j < 8 * g.size ensures a.x[j] == b.x[j] { assert StreamOf(a, 0)[j] == StreamOf(b, 0)[j]; }
    }
    assert a.y == b.y by {
      forall j | 0 <= j < 8 * g.size ensures a.y[j] == b.y[j] { assert StreamOf(a, 1)[j] == StreamOf(b, 1)[j]; }
    }
  }
}
