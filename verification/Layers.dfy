/** A layer of AND gates as the object it is in the program: six states, each phase a method. */
module Layers {
  import opened Bits
  import opened Folds
  import opened Circuit
  import opened AndLayer
  import opened Beaver

  datatype LayerState =
    | Ticketing | DataInitialized | OperationsExecuted | SendingBeaverShares | BeaverSharesReceived | Done

  /** What one party's layer outputs, from its gates, the layer before, its triples and its inbox. */
  function LayerOutput(isConst: bool, g: Gates, l: nat, prev: Option<Finished>, t: Triple,
                       inbox: seq<Blinded>): (z: Bits)
    requires AllRunnable(g.ops, l, g.size, BelowOf(prev)) && TripleFits(t, 8 * g.size) && InboxFits(inbox, 8 * g.size)
    ensures |z| == 8 * g.size
  {
    var s := LayerStreams(g, l, prev);
    FinishZ(isConst, s, Recons(Blind(s, t), inbox), t.c)
  }

  class Layer {
    const isConst: bool
    const layerNum: nat
    var size: nat
    var state: LayerState
    var ops: seq<Operation>
    var x: Bits
    var y: Bits
    var z: Bits
    var a: Bits
    var b: Bits
    var c: Bits

    /** Once the data is there, all six arrays have the layer's size. */
    predicate Valid()
      reads this
    {
      state != Ticketing ==> |x| == |y| == |z| == |a| == |b| == |c| == 8 * size
    }

    function AsGates(): Gates
      reads this
    {
      Gates(size, ops)
    }

    function AsFinished(): Finished
      reads this
    {
      Finished(layerNum, z)
    }

    constructor (isConst: bool, layerNum: nat)
      ensures Valid() && state == Ticketing && AsGates() == Gates(0, [])
      ensures this.isConst == isConst && this.layerNum == layerNum
    {
      this.isConst, this.layerNum := isConst, layerNum;
      size, state, ops := 0, Ticketing, [];
      x, y, z, a, b, c := [], [], [], [], [], [];
    }

    /** `request_ticket` */
    method RequestTicket(bitSize: nat) returns (t: Ticket)
      requires Valid() && state == Ticketing
      modifies this`size
      ensures Valid() && t == Ticket(layerNum, 8 * old(size), 8 * old(size) + bitSize)
      ensures size == old(size) + CeilDiv8(bitSize)
    {
      t := Ticket(layerNum, size * 8, size * 8 + bitSize);
      size := size + CeilDiv8(bitSize);
    }

    /** `add_operation` */
    method AddOperation(op: Operation)
      requires Valid() && state == Ticketing
      modifies this`ops
      ensures Valid() && ops == old(ops) + [op]
    {
      ops := ops + [op];
    }

    /** `end_ticketing_phase` */
    method EndTicketingPhase(provider: BeaverProvider)
      requires Valid() && state == Ticketing && size > 0
      requires provider.Valid() && provider.storage.Some? && provider.used + size <= provider.Bytes()
      modifies this, provider`used
      ensures Valid() && state == DataInitialized && AsGates() == old(AsGates())
      ensures Streams(x, y) == ZeroStreams(size) && z == BoolSeq(8 * size, false)
      ensures provider.Valid() && provider.used == old(provider.used) + size
      ensures Triple(a, b, c) == Next(provider.storage.value, old(provider.used), size)
    {
      x, y, z := BoolSeq(8 * size, false), BoolSeq(8 * size, false), BoolSeq(8 * size, false);
      var t := provider.Take(size);
      a, b, c := t.a, t.b, t.c;
      state := DataInitialized;
    }

    /** `copy_from` on one of the two input streams. */
    method CopyInto(stream: nat, at: nat, src: Bits)
      requires Valid() && state == DataInitialized && stream < 2 && at + |src| <= 8 * size
      modifies this`x, this`y
      ensures Valid()
      ensures x == if stream == 0 then Splice(old(x), at, src) else old(x)
      ensures y == if stream == 0 then old(y) else Splice(old(y), at, src)
    {
      if stream == 0 { x := Splice(x, at, src); } else { y := Splice(y, at, src); }
    }

    /** The operation's effect so far: `out` written at the start of its ticket. */
    ghost predicate Wrote(s: Streams, stream: nat, at: nat, out: Bits)
      reads this
    {
      && StreamsFit(s, size) && at + |out| <= 8 * size
      && x == (if stream == 0 then Splice(s.x, at, out) else s.x)
      && y == (if stream == 0 then s.y else Splice(s.y, at, out))
    }

    /** Copying `more` right after what is written. */
    method Append(ghost s: Streams, stream: nat, ghost at: nat, ghost out: Bits, from: nat, more: Bits)
      requires Valid() && state == DataInitialized && stream < 2 && Wrote(s, stream, at, out)
      requires from == at + |out| && from + |more| <= 8 * size
      modifies this`x, this`y
      ensures Valid() && Wrote(s, stream, at, out + more)
    {
      SpliceMore(if stream == 0 then s.x else s.y, at, out, more);
      CopyInto(stream, from, more);
    }

    /** `Replicate`: the data, `n` times one after the other. */
    method WriteReplicated(stream: nat, at: nat, d: Bits, n: nat)
      requires Valid() && state == DataInitialized && stream < 2 && at + Times(n, |d|) <= 8 * size
      modifies this`x, this`y
      ensures Valid() && Wrote(old(Streams(x, y)), stream, at, Replicated(d, n))
    {
      ghost var s := Streams(x, y);
      WroteNothing(s, stream, at);
      for i := 0 to n
        invariant Valid() && Wrote(s, stream, at, Replicated(d, i))
      {
        TimesBound(i, n, |d|);
        TimesIsProduct(i, |d|);
        Append(s, stream, at, Replicated(d, i), at + i * |d|, d);
      }
    }

    lemma WroteNothing(s: Streams, stream: nat, at: nat)
      requires StreamsFit(s, size) && at <= 8 * size && x == s.x && y == s.y
      ensures Wrote(s, stream, at, [])
    {
      assert Splice(s.x, at, []) == s.x && Splice(s.y, at, []) == s.y;
    }

    /** `BitExpand`: every bit of the data as a run of `n` zeros or ones. */
    method WriteExpanded(stream: nat, at: nat, d: Bits, n: nat)
      requires Valid() && state == DataInitialized && stream < 2 && at + Times(|d|, n) <= 8 * size
      modifies this`x, this`y
      ensures Valid() && Wrote(old(Streams(x, y)), stream, at, Expanded(d, n))
    {
      ghost var s := Streams(x, y);
      WroteNothing(s, stream, at);
      assert d[..0] == [];
      for i := 0 to |d|
        invariant Valid() && Wrote(s, stream, at, Expanded(d[..i], n))
      {
        TimesBound(i, |d|, n);
        TimesIsProduct(i, n);
        ExpandedNext(d, n, i);
        Append(s, stream, at, Expanded(d[..i], n), at + i * n, BoolSeq(n, d[i]));
      }
      assert d[..|d|] == d;
    }

    /** `read_output`, with its checks on state and ticket. */
    method ReadOutput(t: Ticket) returns (v: BitVec)
      requires Valid() && state == Done && TicketFits(t, layerNum, size)
      ensures v == Circuit.ReadOutput(AsFinished(), t)
    {
      v := BitVec(z[t.stBit..8 * CeilDiv8(t.endBit)], t.endBit - t.stBit);
    }

    /** `exec_operation` */
    method ExecOperation(op: Operation, prev: Layer?)
      requires Valid() && state == DataInitialized && Readable(prev)
      requires Runnable(op, layerNum, size, BelowOf(OutputOf(prev)))
      modifies this`x, this`y
      ensures Valid() && Streams(x, y) == ExecOp(old(Streams(x, y)), op, layerNum, size, OutputOf(prev))
    {
      var data := ExtractSrcData(op.inp, prev);
      var at, stream := op.out.ticket.stBit, op.out.stream;
      match op
      case Copy(_, _) =>
        CopyInto(stream, at, data.Data());
      case Replicate(n, _, _) =>
        WriteReplicated(stream, at, data.Data(), n);
      case BitExpand(n, _, _) =>
        WriteExpanded(stream, at, data.Data(), n);
    }

    /** `execute_operations`: pops the queue until it is empty. */
    method ExecuteOperations(prev: Layer?)
      requires Valid() && state == DataInitialized && Readable(prev) && prev != this
      requires AllRunnable(ops, layerNum, size, BelowOf(OutputOf(prev))) && Streams(x, y) == ZeroStreams(size)
      modifies this
      ensures Valid() && state == OperationsExecuted && size == old(size) && ops == []
      ensures a == old(a) && b == old(b) && c == old(c) && z == old(z)
      ensures Streams(x, y) == LayerStreams(old(AsGates()), layerNum, old(OutputOf(prev)))
    {
      ghost var out, goal := OutputOf(prev), LayerStreams(AsGates(), layerNum, OutputOf(prev));
      while |ops| > 0
        invariant Valid() && state == DataInitialized && size == old(size) && Readable(prev) && OutputOf(prev) == out
        invariant a == old(a) && b == old(b) && c == old(c) && z == old(z)
        invariant AllRunnable(ops, layerNum, size, BelowOf(out))
        invariant ExecOps(Streams(x, y), ops, layerNum, size, out) == goal
        decreases |ops|
      {
        var op := ops[|ops| - 1];
        assert op in ops;
        ops := ops[..|ops| - 1];
        ExecOperation(op, prev);
      }
      state := OperationsExecuted;
    }

    /** `blind_and_with_beaver` */
    method BlindAndWithBeaver()
      requires Valid() && state == OperationsExecuted
      modifies this`a, this`b, this`state
      ensures Valid() && state == SendingBeaverShares
      ensures Blinded(a, b) == Blind(Streams(x, y), old(Triple(a, b, c)))
    {
      a, b := XorBits(a, x), XorBits(b, y);
      state := SendingBeaverShares;
    }

    /** `get_beaver_out_shares` */
    method GetBeaverOutShares() returns (m: Blinded)
      requires Valid() && state != Ticketing
      ensures m == Blinded(a, b) && BlindedFits(m, 8 * size)
    {
      m := Blinded(a, b);
    }

    /** `recons_beaver_uv`: XORs in one share after the other. */
    method ReconsBeaverUv(inbox: seq<Blinded>)
      requires Valid() && state == SendingBeaverShares && InboxFits(inbox, 8 * size)
      modifies this`a, this`b, this`state
      ensures Valid() && state == BeaverSharesReceived
      ensures Blinded(a, b) == Recons(old(Blinded(a, b)), inbox)
    {
      ghost var us, vs := Us(inbox), Vs(inbox);
      OpenedNone(a, us);
      OpenedNone(b, vs);
      for i := 0 to |inbox|
        invariant Valid() && state == SendingBeaverShares
        invariant OpenedTo(a, old(a), us, i) && OpenedTo(b, old(b), vs, i)
      {
        OpenedNext(a, old(a), us, i);
        OpenedNext(b, old(b), vs, i);
        a, b := XorBits(a, inbox[i].u), XorBits(b, inbox[i].v);
      }
      OpenedAll(a, old(a), us);
      OpenedAll(b, old(b), vs);
      state := BeaverSharesReceived;
    }

    /** `finish_and_exchange`: z = [const] uv ^ uy ^ vx ^ c, in place. */
    method FinishAndExchange()
      requires Valid() && state == BeaverSharesReceived && z == BoolSeq(8 * size, false)
      modifies this`a, this`b, this`z, this`state
      ensures Valid() && state == Done
      ensures z == FinishZ(isConst, Streams(x, y), old(Blinded(a, b)), c)
    {
      if isConst { z := AndBits(a, b); }
      a := AndBits(a, y);
      b := AndBits(b, x);
      z := XorBits(z, a);
      z := XorBits(z, b);
      z := XorBits(z, c);
      state := Done;
    }

    /** `interact`: all phases; `inbox` is what the peers' broadcasts are when they arrive, `sent` what
        this party broadcasts. */
    method Interact(prev: Layer?, provider: BeaverProvider, inbox: seq<Blinded>) returns (sent: Blinded)
      requires Valid() && state == Ticketing && size > 0 && Readable(prev) && prev != this
      requires AllRunnable(ops, layerNum, size, BelowOf(OutputOf(prev))) && InboxFits(inbox, 8 * size)
      requires provider.Valid() && provider.storage.Some? && provider.used + size <= provider.Bytes()
      modifies this, provider`used
      ensures Valid() && state == Done && size == old(size)
      ensures provider.Valid() && provider.used == old(provider.used) + size
      ensures var t := Next(provider.storage.value, old(provider.used), size);
              && sent == Blind(LayerStreams(old(AsGates()), layerNum, old(OutputOf(prev))), t)
              && z == LayerOutput(isConst, old(AsGates()), layerNum, old(OutputOf(prev)), t, inbox)
    {
      EndTicketingPhase(provider);
      ExecuteOperations(prev);
      BlindAndWithBeaver();
      sent := GetBeaverOutShares();
      ReconsBeaverUv(inbox);
      FinishAndExchange();
    }
  }

  /** `x` is `own` with the first `i` of `rows` XORed in. */
  predicate OpenedTo(x: Bits, own: Bits, rows: seq<Bits>, i: nat) {
    i <= |rows| && AllLong(rows[..i], |own|) && x == XorIn(own, rows[..i])
  }

  lemma OpenedNone(own: Bits, rows: seq<Bits>)
    ensures OpenedTo(own, own, rows, 0)
  {
    assert rows[..0] == [];
  }

  lemma OpenedNext(x: Bits, own: Bits, rows: seq<Bits>, i: nat)
    requires AllLong(rows, |own|) && i < |rows| && OpenedTo(x, own, rows, i)
    ensures |rows[i]| == |x| == |own| && OpenedTo(XorBits(x, rows[i]), own, rows, i + 1)
  {
    XorInOne(own, rows, i);
  }

  lemma {:induction false} OpenedAll(x: Bits, own: Bits, rows: seq<Bits>)
    requires AllLong(rows, |own|) && OpenedTo(x, own, rows, |rows|)
    ensures x == XorIn(own, rows)
  {
    assert rows[..|rows|] == rows;
  }

  /** A previous layer that is there has finished. */
  predicate Readable(prev: Layer?)
    reads prev
  {
    prev != null ==> prev.Valid() && prev.state == Done
  }

  function OutputOf(prev: Layer?): Option<Finished>
    reads prev
  {
    if prev == null then None else Some(prev.AsFinished())
  }

  /** `extract_src_data` */
  method ExtractSrcData(src: Source, prev: Layer?) returns (v: BitVec)
    requires Readable(prev) && SourceOk(src, BelowOf(OutputOf(prev)))
    ensures v == Extract(src, OutputOf(prev))
  {
    match src
    case Input(data) => v := data;
    case TakeZ(t) => v := prev.ReadOutput(t);
  }
}
