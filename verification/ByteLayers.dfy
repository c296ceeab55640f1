/** The bit arrays of a layer in memory: what the byte code of a layer's phases does to the streams. */
module ByteLayers {
  import opened Bits
  import opened Folds
  import opened Circuit
  import opened AndLayer
  import opened Beaver
  import opened PackedArray
  import opened Layers

  /** A stream of `size` bytes, held in a packed array. */
  ghost predicate Stream(a: BitArray, size: nat)
    reads a, a.data
  {
    a.Valid() && a.Snug() && a.bitSize == 8 * size && a.byteSize == size && a.ZeroTail()
  }

  ghost function Held(a: BitArray, size: nat): (r: Bits)
    requires Stream(a, size)
    reads a, a.data
    ensures |r| == 8 * size
  {
    a.Value().bits
  }

  /** `copy_from` into an input stream: the effect of one operation's write. */
  method CopyInto(x: BitArray, size: nat, at: nat, source: BitArray)
    requires Stream(x, size) && source.Valid() && source.Snug() && source.data != x.data
    requires at + source.bitSize <= 8 * size
    modifies x.data
    ensures Stream(x, size) && Held(x, size) == Splice(old(Held(x, size)), at, old(source.Value().Data()))
  {
    ghost var m, d := x.Memory(), source.Memory()[..source.bitSize];
    x.CopyFrom(at, source);
    assert Splice(m, at, d)[..8 * size] == Splice(m[..8 * size], at, d);
    assert source.Value().Data() == d;
  }

  /** `blind_and_with_beaver`, on one of the two streams. */
  method BlindInto(a: BitArray, x: BitArray, size: nat)
    requires Stream(a, size) && Stream(x, size) && a.data != x.data
    modifies a.data
    ensures Stream(a, size) && Held(a, size) == XorBits(old(Held(a, size)), old(Held(x, size)))
  {
    ghost var m, n := a.Memory(), x.Memory();
    a.InplaceXor(x);
    assert XorBits(m, n)[..8 * size] == XorBits(m[..8 * size], n[..8 * size]);
  }

  method AndInto(a: BitArray, y: BitArray, size: nat)
    requires Stream(a, size) && Stream(y, size) && a.data != y.data
    modifies a.data
    ensures Stream(a, size) && Held(a, size) == AndBits(old(Held(a, size)), old(Held(y, size)))
  {
    ghost var m, n := a.Memory(), y.Memory();
    a.InplaceAnd(y);
    assert AndBits(m, n)[..8 * size] == AndBits(m[..8 * size], n[..8 * size]);
  }

  method StoreAndOf(z: BitArray, u: BitArray, v: BitArray, size: nat)
    requires Stream(z, size) && Stream(u, size) && Stream(v, size) && z.data != u.data && z.data != v.data
    modifies z.data
    ensures Stream(z, size) && Held(z, size) == AndBits(old(Held(u, size)), old(Held(v, size)))
  {
    ghost var m, n := u.Memory(), v.Memory();
    z.MutAnd(u, v);
    assert AndBits(m, n)[..8 * size] == AndBits(m[..8 * size], n[..8 * size]);
  }

  /** No two of the six arrays of a layer share memory. */
  ghost predicate Apart(x: BitArray, y: BitArray, z: BitArray, u: BitArray, v: BitArray, c: BitArray)
    reads x, y, z, u, v, c
  {
    && x.data != z.data && y.data != z.data && u.data != z.data && v.data != z.data && c.data != z.data
    && x.data != u.data && y.data != u.data && v.data != u.data && c.data != u.data
    && x.data != v.data && y.data != v.data && c.data != v.data
  }

  /** `finish_and_exchange` on the bytes computes the layer's gates. */
  method FinishBytes(isConst: bool, x: BitArray, y: BitArray, z: BitArray, u: BitArray, v: BitArray, c: BitArray,
                     size: nat)
    requires Stream(x, size) && Stream(y, size) && Stream(z, size) && Stream(u, size) && Stream(v, size)
    requires Stream(c, size)
    requires Apart(x, y, z, u, v, c) && Held(z, size) == BoolSeq(8 * size, false)
    modifies z.data, u.data, v.data
    ensures Stream(z, size)
    ensures Held(z, size)
         == FinishZ(isConst, old(Streams(Held(x, size), Held(y, size))), old(Blinded(Held(u, size), Held(v, size))),
                    old(Held(c, size)))
  {
    ghost var s, m, c0 := Streams(Held(x, size), Held(y, size)), Blinded(Held(u, size), Held(v, size)), Held(c, size);
    if isConst { StoreAndOf(z, u, v, size); }
    ghost var z0 := Held(z, size);
    AndInto(u, y, size);
    AndInto(v, x, size);
    BlindInto(z, u, size);
    BlindInto(z, v, size);
    BlindInto(z, c, size);
    GatesInSteps(isConst, s, m, c0, z0, Held(z, size));
  }

  lemma GatesInSteps(isConst: bool, s: Streams, m: Blinded, c: Bits, z0: Bits, z: Bits)
    requires |s.x| == |s.y| == |c| == |z0| == |z| && BlindedFits(m, |c|)
    requires z0 == if isConst then AndBits(m.u, m.v) else BoolSeq(|c|, false)
    requires z == XorBits(XorBits(XorBits(z0, AndBits(m.u, s.y)), AndBits(m.v, s.x)), c)
    ensures z == FinishZ(isConst, s, m, c)
  {
  }

  lemma PrefixSlice(m: Bits, n: nat, i: nat, j: nat)
    requires i <= j <= n <= |m|
    ensures m[..n][i..j] == m[i..j]
  {
  }

  /** `read_output`: slicing whole bytes and shrinking once gives the ticket's bits, the last byte's
      padding kept. */
  method ReadOutputBytes(z: BitArray, ghost size: nat, ghost layerNum: nat, t: Ticket) returns (out: BitArray)
    requires Stream(z, size) && TicketFits(t, layerNum, size)
    ensures fresh(out) && fresh(out.data) && out.Valid() && out.Snug() && out.ZeroTail()
    ensures out.Value() == ReadOutput(Finished(layerNum, Held(z, size)), t)
  {
    var st, end := t.stBit / 8, CeilDiv8(t.endBit);
    out := z.ToSlice(st, end);
    PrefixSlice(z.Memory(), 8 * size, t.stBit, 8 * end);
    OneShrinkIsSnug(end - st, t.endBit - t.stBit);
    out.ShrinkToPartialLastByte(t.endBit - t.stBit);
  }

  /* ---------- executing operations ---------- */

  /** The stream was `x0`, and `out` has been written at bit `at`. */
  ghost predicate Written(x: BitArray, size: nat, x0: Bits, at: nat, out: Bits)
    reads x, x.data
  {
    Stream(x, size) && |x0| == 8 * size && at + |out| <= 8 * size && Held(x, size) == Splice(x0, at, out)
  }

  /** `copy_from` of `source` right after what is written. */
  method CopyNext(x: BitArray, size: nat, ghost x0: Bits, ghost at: nat, ghost out: Bits, from: nat, source: BitArray)
    requires Written(x, size, x0, at, out) && source.Valid() && source.Snug() && source.data != x.data
    requires from == at + |out| && from + source.bitSize <= 8 * size
    modifies x.data
    ensures Written(x, size, x0, at, out + old(source.Value().Data()))
  {
    SpliceMore(x0, at, out, source.Value().Data());
    CopyInto(x, size, from, source);
  }

  /** `Replicate`: the array, `n` times one after the other. */
  method ReplicateInto(x: BitArray, size: nat, at: nat, n: nat, source: BitArray)
    requires Stream(x, size) && source.Valid() && source.Snug() && source.data != x.data
    requires at + Times(n, source.bitSize) <= 8 * size
    modifies x.data
    ensures Stream(x, size)
    ensures Held(x, size) == Splice(old(Held(x, size)), at, Replicated(old(source.Value().Data()), n))
  {
    ghost var x0, d := Held(x, size), source.Value().Data();
    assert Splice(x0, at, []) == x0;
    for i := 0 to n
      invariant source.Value().Data() == d && Written(x, size, x0, at, Replicated(d, i))
    {
      TimesBound(i, n, |d|);
      TimesIsProduct(i, |d|);
      CopyNext(x, size, x0, at, Replicated(d, i), at + i * source.bitSize, source);
    }
  }

  /** A run of `n` equal bits. */
  ghost predicate Constant(a: BitArray, n: nat, v: bool)
    reads a, a.data
  {
    a.Valid() && a.Snug() && a.bitSize == n && a.Value().Data() == BoolSeq(n, v)
  }

  /** `new(n)` and `ones(n)`. */
  method Constants(n: nat) returns (zeroes: BitArray, ones: BitArray)
    requires n > 0
    ensures fresh(zeroes.data) && fresh(ones.data) && Constant(zeroes, n, false) && Constant(ones, n, true)
  {
    zeroes := new BitArray.New(n);
    ones := new BitArray.Ones(n);
  }

  /** One bit of `BitExpand`: the run of its value. */
  method CopyRun(x: BitArray, size: nat, ghost x0: Bits, at: nat, ghost d: Bits, i: nat, n: nat, b: bool,
                 zeroes: BitArray, ones: BitArray)
    requires i < |d| && b == d[i] && Written(x, size, x0, at, Expanded(d[..i], n))
    requires at + Times(|d|, n) <= 8 * size && RunsOf(x, n, zeroes, ones)
    modifies x.data
    ensures Written(x, size, x0, at, Expanded(d[..i + 1], n))
  {
    TimesBound(i, |d|, n);
    TimesIsProduct(i, n);
    ExpandedNext(d, n, i);
    CopyNext(x, size, x0, at, Expanded(d[..i], n), at + i * n, if b then ones else zeroes);
  }

  /** The two runs, in memory of their own. */
  ghost predicate RunsOf(x: BitArray, n: nat, zeroes: BitArray, ones: BitArray)
    reads x, zeroes, zeroes.data, ones, ones.data
  {
    Constant(zeroes, n, false) && zeroes.data != x.data && Constant(ones, n, true) && ones.data != x.data
  }

  /** `BitExpand`: for every bit of the array, `n` zeros or `n` ones. */
  method ExpandInto(x: BitArray, size: nat, at: nat, n: nat, source: BitArray)
    requires Stream(x, size) && source.Valid() && source.Snug() && source.data != x.data && n > 0
    requires at + Times(source.bitSize, n) <= 8 * size
    modifies x.data
    ensures Stream(x, size)
    ensures Held(x, size) == Splice(old(Held(x, size)), at, Expanded(old(source.Value().Data()), n))
  {
    ghost var x0, d := Held(x, size), source.Value().Data();
    var zeroes, ones := Constants(n);
    assert d[..0] == [] && Splice(x0, at, []) == x0;
    for i := 0 to source.bitSize
      invariant RunsOf(x, n, zeroes, ones) && source.Value().Data() == d
      invariant Written(x, size, x0, at, Expanded(d[..i], n))
    {
      var b := source.Get(i);
      CopyRun(x, size, x0, at, d, i, n, b, zeroes, ones);
    }
    assert d[..|d|] == d;
  }

  /** `input` is the array of a source that comes with one. */
  ghost predicate Backed(src: Source, input: BitArray?)
    reads input, if input != null then {input.data} else {}
  {
    src.Input? ==> input != null && input.Valid() && input.Value() == src.data
  }

  /** `z` is the output array of the layer before. */
  ghost predicate Output(prev: Option<Finished>, z: BitArray?)
    reads z, if z != null then {z.data} else {}
  {
    prev.Some? ==>
      && z != null && Stream(z, |prev.value.z| / 8)
      && Held(z, |prev.value.z| / 8) == prev.value.z
  }

  /** `extract_src_data` */
  method ExtractBytes(src: Source, input: BitArray?, ghost prev: Option<Finished>, prevZ: BitArray?)
      returns (data: BitArray)
    requires Backed(src, input) && Output(prev, prevZ) && SourceOk(src, BelowOf(prev))
    ensures data.Valid() && data.Snug() && data.Value() == Extract(src, prev)
    ensures data == input || fresh(data.data)
  {
    match src
    case Input(_) =>
      data := input;
    case TakeZ(t) =>
      data := ReadOutputBytes(prevZ, |prev.value.z| / 8, prev.value.layerNum, t);
  }

  /** What an operation does to its target stream. */
  method WriteOperation(op: Operation, x: BitArray, size: nat, data: BitArray, ghost prev: Option<Finished>,
                        ghost layerNum: nat)
    requires Stream(x, size) && data.Valid() && data.Snug() && data.data != x.data
    requires Runnable(op, layerNum, size, BelowOf(prev)) && data.Value() == Extract(op.inp, prev)
    modifies x.data
    ensures Stream(x, size) && Held(x, size) == Splice(old(Held(x, size)), op.out.ticket.stBit, OpOut(op, prev))
  {
    var at := op.out.ticket.stBit;
    match op
    case Copy(_, _) => CopyInto(x, size, at, data);
    case Replicate(n, _, _) => ReplicateInto(x, size, at, n, data);
    case BitExpand(n, _, _) => ExpandInto(x, size, at, n, data);
  }

  /** `exec_operation` on the bytes: the two input streams become those of the operation's specification. */
  method ExecOperation(op: Operation, input: BitArray?, ghost layerNum: nat, size: nat, ghost prev: Option<Finished>,
                       prevZ: BitArray?, x: BitArray, y: BitArray)
    requires Stream(x, size) && Stream(y, size) && x.data != y.data
    requires Runnable(op, layerNum, size, BelowOf(prev)) && Backed(op.inp, input) && Output(prev, prevZ)
    requires input != null ==> input.data != x.data && input.data != y.data
    modifies x.data, y.data
    ensures Stream(x, size) && Stream(y, size)
    ensures Streams(Held(x, size), Held(y, size))
         == ExecOp(old(Streams(Held(x, size), Held(y, size))), op, layerNum, size, prev)
  {
    var data := ExtractBytes(op.inp, input, prev, prevZ);
    if op.out.stream == 0 {
      WriteOperation(op, x, size, data, prev, layerNum);
    } else {
      WriteOperation(op, y, size, data, prev, layerNum);
    }
  }

  /** Every queued operation comes with its input array, and none of these arrays is `x` or `y`. */
  ghost predicate AllBacked(ops: seq<Operation>, inputs: seq<BitArray?>, x: BitArray, y: BitArray)
    reads x, y, set i | 0 <= i < |inputs| && inputs[i] != null :: inputs[i]
    reads set i | 0 <= i < |inputs| && inputs[i] != null :: inputs[i].data
  {
    && |inputs| == |ops|
    && forall i :: 0 <= i < |ops| ==>
         && Backed(ops[i].inp, inputs[i])
         && (inputs[i] != null ==> inputs[i].data != x.data && inputs[i].data != y.data)
  }

  /** Executing `ops` is all that is left to get from the streams in `x` and `y` to `goal`. */
  ghost predicate Pending(ops: seq<Operation>, layerNum: nat, size: nat, prev: Option<Finished>, x: BitArray,
                          y: BitArray, goal: Streams)
    reads x, x.data, y, y.data
  {
    && Stream(x, size) && Stream(y, size) && AllRunnable(ops, layerNum, size, BelowOf(prev))
    && ExecOps(Streams(Held(x, size), Held(y, size)), ops, layerNum, size, prev) == goal
  }

  /** The operation at the end of the queue. */
  method ExecuteLast(ops: seq<Operation>, k: nat, input: BitArray?, ghost layerNum: nat, size: nat,
                     ghost prev: Option<Finished>, prevZ: BitArray?, x: BitArray, y: BitArray, ghost goal: Streams)
    requires |ops| == k + 1 && Pending(ops, layerNum, size, prev, x, y, goal) && x.data != y.data
    requires Backed(ops[k].inp, input) && Output(prev, prevZ)
    requires input != null ==> input.data != x.data && input.data != y.data
    modifies x.data, y.data
    ensures Pending(ops[..k], layerNum, size, prev, x, y, goal)
  {
    assert ops[k] in ops;
    ExecOperation(ops[k], input, layerNum, size, prev, prevZ, x, y);
  }

  /** `execute_operations` on the bytes: popping the queue leaves the layer's streams in `x` and `y`. */
  method ExecuteOperations(g: Gates, inputs: seq<BitArray?>, ghost layerNum: nat, ghost prev: Option<Finished>,
                           prevZ: BitArray?, x: BitArray, y: BitArray)
    requires Stream(x, g.size) && Stream(y, g.size) && x.data != y.data
    requires AllRunnable(g.ops, layerNum, g.size, BelowOf(prev)) && AllBacked(g.ops, inputs, x, y)
    requires Output(prev, prevZ) && (prevZ != null ==> prevZ.data != x.data && prevZ.data != y.data)
    requires Streams(Held(x, g.size), Held(y, g.size)) == ZeroStreams(g.size)
    modifies x.data, y.data
    ensures Stream(x, g.size) && Stream(y, g.size)
    ensures Streams(Held(x, g.size), Held(y, g.size)) == LayerStreams(g, layerNum, prev)
  {
    var ops := g.ops;
    ghost var goal := LayerStreams(g, layerNum, prev);
    while |ops| > 0
      invariant |ops| <= |inputs| && AllBacked(ops, inputs[..|ops|], x, y) && Output(prev, prevZ)
      invariant Pending(ops, layerNum, g.size, prev, x, y, goal)
      decreases |ops|
    {
      var k := |ops| - 1;
      ExecuteLast(ops, k, inputs[k], layerNum, g.size, prev, prevZ, x, y, goal);
      ops := ops[..k];
    }
  }

  /* ---------- the whole layer ---------- */

  /** One peer's broadcast, as received. */
  datatype Pair = Pair(u: BitArray, v: BitArray)

  /** `p` holds the blinded streams `m`, outside of `a` and `b`. */
  ghost predicate Carries(p: Pair, m: Blinded, size: nat, a: BitArray, b: BitArray)
    reads p.u, p.u.data, p.v, p.v.data, a, b
  {
    && Stream(p.u, size) && Stream(p.v, size) && Blinded(Held(p.u, size), Held(p.v, size)) == m
    && p.u.data != a.data && p.u.data != b.data && p.v.data != a.data && p.v.data != b.data
  }

  /** `beaver_xor_d2`: one peer's share is XORed in. */
  method XorPair(a: BitArray, b: BitArray, size: nat, p: Pair, ghost m: Blinded)
    requires Stream(a, size) && Stream(b, size) && a.data != b.data && Carries(p, m, size, a, b)
    modifies a.data, b.data
    ensures Stream(a, size) && Stream(b, size)
    ensures BlindedFits(m, 8 * size)
    ensures Held(a, size) == XorBits(old(Held(a, size)), m.u) && Held(b, size) == XorBits(old(Held(b, size)), m.v)
  {
    BlindInto(a, p.u, size);
    BlindInto(b, p.v, size);
  }

  /** `a` and `b` hold `own` with the first `i` of the shares XORed in. */
  ghost predicate Opened(a: BitArray, b: BitArray, size: nat, own: Blinded, ms: seq<Blinded>, i: nat)
    reads a, a.data, b, b.data
  {
    && Stream(a, size) && Stream(b, size) && a.data != b.data
    && BlindedFits(own, 8 * size) && InboxFits(ms, 8 * size)
    && OpenedTo(Held(a, size), own.u, Us(ms), i) && OpenedTo(Held(b, size), own.v, Vs(ms), i)
  }

  lemma OpenStart(a: BitArray, b: BitArray, size: nat, own: Blinded, ms: seq<Blinded>)
    requires Stream(a, size) && Stream(b, size) && a.data != b.data && InboxFits(ms, 8 * size)
    requires own == Blinded(Held(a, size), Held(b, size))
    ensures Opened(a, b, size, own, ms, 0)
  {
    OpenedNone(own.u, Us(ms));
    OpenedNone(own.v, Vs(ms));
  }

  method OpenNext(a: BitArray, b: BitArray, size: nat, ghost own: Blinded, ghost ms: seq<Blinded>, ghost i: nat,
                  p: Pair)
    requires Opened(a, b, size, own, ms, i) && i < |ms| && Carries(p, ms[i], size, a, b)
    modifies a.data, b.data
    ensures Opened(a, b, size, own, ms, i + 1)
  {
    OpenedNext(Held(a, size), own.u, Us(ms), i);
    OpenedNext(Held(b, size), own.v, Vs(ms), i);
    XorPair(a, b, size, p, ms[i]);
  }

  lemma OpenEnd(a: BitArray, b: BitArray, size: nat, own: Blinded, ms: seq<Blinded>)
    requires Opened(a, b, size, own, ms, |ms|)
    ensures Stream(a, size) && Stream(b, size) && BlindedFits(own, 8 * size) && InboxFits(ms, 8 * size)
    ensures Blinded(Held(a, size), Held(b, size)) == Recons(own, ms)
  {
    OpenedAll(Held(a, size), own.u, Us(ms));
    OpenedAll(Held(b, size), own.v, Vs(ms));
  }

  /** `recons_beaver_uv` on the bytes. */
  method ReconsBytes(a: BitArray, b: BitArray, size: nat, inbox: seq<Pair>, ghost ms: seq<Blinded>)
    requires Stream(a, size) && Stream(b, size) && a.data != b.data && InboxFits(ms, 8 * size)
    requires |inbox| == |ms| && forall i :: 0 <= i < |ms| ==> Carries(inbox[i], ms[i], size, a, b)
    modifies a.data, b.data
    ensures Stream(a, size) && Stream(b, size)
    ensures Blinded(Held(a, size), Held(b, size)) == Recons(old(Blinded(Held(a, size), Held(b, size))), ms)
  {
    ghost var own := Blinded(Held(a, size), Held(b, size));
    OpenStart(a, b, size, own, ms);
    for i := 0 to |inbox|
      invariant forall k :: i <= k < |ms| ==> Carries(inbox[k], ms[k], size, a, b)
      invariant Opened(a, b, size, own, ms, i)
    {
      OpenNext(a, b, size, own, ms, i, inbox[i]);
    }
    OpenEnd(a, b, size, own, ms);
  }

  /** The arrays `x` and `y` hold streams `s`. */
  ghost predicate Holding(x: BitArray, y: BitArray, size: nat, s: Streams)
    reads x, x.data, y, y.data
  {
    Stream(x, size) && Stream(y, size) && x.data != y.data && Streams(Held(x, size), Held(y, size)) == s
  }

  /** The layer's input arrays, filled by its operations. */
  method FillBytes(g: Gates, inputs: seq<BitArray?>, ghost layerNum: nat, ghost prev: Option<Finished>,
                   prevZ: BitArray?)
      returns (x: BitArray, y: BitArray)
    requires g.size > 0 && AllRunnable(g.ops, layerNum, g.size, BelowOf(prev)) && Output(prev, prevZ)
    requires |inputs| == |g.ops| && forall i :: 0 <= i < |inputs| ==> Backed(g.ops[i].inp, inputs[i])
    ensures fresh(x.data) && fresh(y.data) && Holding(x, y, g.size, LayerStreams(g, layerNum, prev))
  {
    x := new BitArray.New(8 * g.size);
    y := new BitArray.New(8 * g.size);
    ExecuteOperations(g, inputs, layerNum, prev, prevZ, x, y);
  }

  /** The triple in `a`, `b` and `c`. */
  ghost predicate Taken(a: BitArray, b: BitArray, c: BitArray, size: nat, t: Triple)
    reads a, a.data, b, b.data, c, c.data
  {
    && Stream(a, size) && Stream(b, size) && Stream(c, size)
    && a.data != b.data && a.data != c.data && b.data != c.data
    && Triple(Held(a, size), Held(b, size), Held(c, size)) == t
  }

  /** `blind_and_with_beaver` on the bytes. */
  method BlindBytes(x: BitArray, y: BitArray, a: BitArray, b: BitArray, c: BitArray, size: nat,
                    ghost s: Streams, ghost t: Triple)
    requires Holding(x, y, size, s) && Taken(a, b, c, size, t)
    requires a.data != x.data && a.data != y.data && b.data != x.data && b.data != y.data
    modifies a.data, b.data
    ensures TripleFits(t, |s.x|) && |s.x| == |s.y| == 8 * size && Taken(a, b, c, size, With(t, Blind(s, t)))
  {
    BlindInto(a, x, size);
    BlindInto(b, y, size);
  }

  /** The same triple with its first two arrays replaced. */
  function With(t: Triple, m: Blinded): Triple { Triple(m.u, m.v, t.c) }

  /** A stream of zeros. */
  ghost predicate Blank(z: BitArray, size: nat)
    reads z, z.data
  {
    Stream(z, size) && Held(z, size) == BoolSeq(8 * size, false)
  }

  method BlankBytes(size: nat) returns (z: BitArray)
    requires size > 0
    ensures fresh(z) && fresh(z.data) && Blank(z, size)
  {
    z := new BitArray.New(8 * size);
  }

  /** `interact` on the bytes up to its broadcast, which is what `a` and `b` then hold. */
  method SendBytes(g: Gates, inputs: seq<BitArray?>, ghost layerNum: nat, ghost prev: Option<Finished>,
                   prevZ: BitArray?, ghost t: Triple, a: BitArray, b: BitArray, c: BitArray)
      returns (x: BitArray, y: BitArray, z: BitArray)
    requires g.size > 0 && AllRunnable(g.ops, layerNum, g.size, BelowOf(prev)) && Output(prev, prevZ)
    requires |inputs| == |g.ops| && forall i :: 0 <= i < |inputs| ==> Backed(g.ops[i].inp, inputs[i])
    requires Taken(a, b, c, g.size, t)
    modifies a.data, b.data
    ensures fresh(x.data) && fresh(y.data) && fresh(z.data) && x.data != z.data && y.data != z.data
    ensures Holding(x, y, g.size, LayerStreams(g, layerNum, prev)) && Blank(z, g.size)
    ensures TripleFits(t, 8 * g.size)
    ensures Taken(a, b, c, g.size, With(t, Blind(LayerStreams(g, layerNum, prev), t)))
  {
    x, y := FillBytes(g, inputs, layerNum, prev, prevZ);
    BlindBytes(x, y, a, b, c, g.size, LayerStreams(g, layerNum, prev), t);
    z := BlankBytes(g.size);
  }

  /** `interact` on the bytes from the peers' shares on: the output array holds the gates' outputs. */
  method ReceiveBytes(isConst: bool, x: BitArray, y: BitArray, z: BitArray, a: BitArray, b: BitArray, c: BitArray,
                      size: nat, ghost s: Streams, ghost t: Triple, inbox: seq<Pair>, ghost ms: seq<Blinded>)
    requires Holding(x, y, size, s) && Taken(a, b, c, size, t) && Blank(z, size) && Apart(x, y, z, a, b, c)
    requires |inbox| == |ms| && forall i :: 0 <= i < |ms| ==> Carries(inbox[i], ms[i], size, a, b)
    requires InboxFits(ms, 8 * size)
    modifies z.data, a.data, b.data
    ensures |s.x| == |s.y| == |t.a| == |t.b| == |t.c| == 8 * size
    ensures Stream(z, size)
    ensures Held(z, size) == FinishZ(isConst, s, Recons(Blinded(t.a, t.b), ms), t.c)
  {
    ReconsBytes(a, b, size, inbox, ms);
    FinishBytes(isConst, x, y, z, a, b, c, size);
  }
}
