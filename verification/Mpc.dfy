/** The circuit builder and its run, as the object they are in the program. */
module Mpc {
  import opened Bits
  import opened Circuit
  import opened OneHot
  import opened AndLayer
  import opened Beaver
  import opened Layers

  function GatesOf(layers: seq<Layer>): (r: seq<Gates>)
    reads layers
    ensures |r| == |layers| && forall i :: 0 <= i < |r| ==> r[i] == layers[i].AsGates()
  {
    seq(|layers|, i requires 0 <= i < |layers| reads layers => layers[i].AsGates())
  }

  class MpcProvider {
    const isConst: bool
    const beaver: BeaverProvider
    var layers: seq<Layer>
    var output: Layer?

    constructor (isConst: bool, beaver: BeaverProvider)
      ensures this.isConst == isConst && this.beaver == beaver && layers == [] && output == null
    {
      this.isConst, this.beaver := isConst, beaver;
      layers, output := [], null;
    }

    /** The layers are numbered from 0, hence different objects, and open for tickets. */
    ghost predicate Building()
      reads this, layers
    {
      forall i :: 0 <= i < |layers| ==>
        layers[i].layerNum == i && layers[i].isConst == isConst && layers[i].state == Ticketing && layers[i].Valid()
    }

    ghost function Circ(): seq<Gates>
      reads this, layers
    {
      GatesOf(layers)
    }

    /** `clear` */
    method Clear()
      modifies this
      ensures Building() && Circ() == [] && output == null
    {
      layers, output := [], null;
    }

    /** `get_layer`: creates the missing layers. */
    method GetLayer(l: nat) returns (layer: Layer)
      requires Building()
      modifies this`layers
      ensures Building() && |old(layers)| <= |layers| && layers[..|old(layers)|] == old(layers)
      ensures forall i :: |old(layers)| <= i < |layers| ==> fresh(layers[i])
      ensures l < |layers| && layer == layers[l] && Circ() == OneHot.GetLayer(old(Circ()), l)
    {
      while l >= |layers|
        invariant Building() && |old(layers)| <= |layers| && layers[..|old(layers)|] == old(layers)
        invariant forall i :: |old(layers)| <= i < |layers| ==> fresh(layers[i]) && layers[i].AsGates() == Gates(0, [])
        invariant |layers| > |old(layers)| ==> |layers| <= l + 1
        decreases l + 1 - |layers|
      {
        var added := new Layer(isConst, |layers|);
        layers := layers + [added];
      }
      layer := layers[l];
      assert forall i :: 0 <= i < |old(layers)| ==> layers[i] == layers[..|old(layers)|][i];
    }

    /** The layers of `before` are still there, in front of new ones. */
    twostate predicate Extends()
      reads this
    {
      && |old(layers)| <= |layers| && layers[..|old(layers)|] == old(layers)
      && forall i :: |old(layers)| <= i < |layers| ==> fresh(layers[i])
    }

    /** Requests a ticket of layer `l`. */
    method Reserve(l: nat, bitSize: nat) returns (t: Ticket)
      requires Building()
      modifies this`layers, layers
      ensures Building() && Extends() && l < |layers|
      ensures t == NewTicket(OneHot.GetLayer(old(Circ()), l), l, bitSize)
      ensures Circ() == Widened(OneHot.GetLayer(old(Circ()), l), l, bitSize)
    {
      var layer := GetLayer(l);
      ghost var mid := Circ();
      t := layer.RequestTicket(bitSize);
      assert forall i :: 0 <= i < |layers| && i != l ==> layers[i].AsGates() == mid[i];
      WidenedIs(mid, Circ(), l, bitSize);
    }

    /** Queues an operation in layer `l`. */
    method Queue(l: nat, op: Operation)
      requires Building() && l < |layers|
      modifies layers[l]
      ensures layers == old(layers)
      ensures Building() && Circ() == Queued(old(Circ()), l, op)
    {
      ghost var before := Circ();
      layers[l].AddOperation(op);
      assert forall i :: 0 <= i < |layers| && i != l ==> layers[i].AsGates() == before[i];
    }

    /** `and` */
    method And(bitSize: nat, a: Source, b: Source) returns (src: Source)
      requires Building() && bitSize > 0
      modifies this`layers, layers
      ensures Building() && Extends()
      ensures (Circ(), src) == OneHot.And(old(Circ()), bitSize, a, b)
    {
      ghost var c := OneHot.GetLayer(Circ(), 0);
      var t := Reserve(0, bitSize);
      Queue(0, Copy(a, Relay(t, 0)));
      Queue(0, Copy(b, Relay(t, 1)));
      PairInSteps(c, 0, bitSize, Copy(a, Relay(t, 0)), Copy(b, Relay(t, 1)));
      src := TakeZ(t);
    }

    /** The end of `recursive_ohe_vec`: the gates that combine the two halves. */
    method Join(l: nat, k: nat, low: Source, high: Source) returns (src: Source)
      requires Building() && k >= 2
      modifies this`layers, layers
      ensures Building() && Extends()
      ensures (Circ(), src) == OneHot.Join(old(Circ()), l, k, low, high)
    {
      ghost var c := Circ();
      var split, bits := (k + 1) / 2, Pow2(k);
      var t := Reserve(l, bits);
      var x, y := Replicate(Pow2(k - split), low, Relay(t, 0)), BitExpand(Pow2(split), high, Relay(t, 1));
      JoinOps(k, split, low, high, t, x, y);
      Queue(l, x);
      Queue(l, y);
      src := TakeZ(t);
      JoinInSteps(c, l, k, low, high, bits, t, x, y);
    }

    /** The two recursive calls of `recursive_ohe_vec`. */
    method Halves(m: nat, split: nat, rest: nat, lowIdx: nat, highIdx: nat) returns (low: Source, high: Source)
      requires Building() && split >= 1 && rest >= 1
      modifies this`layers, layers
      ensures Building() && Extends()
      ensures BothHalves(old(Circ()), m, split, rest, lowIdx, highIdx, isConst, Circ(), low, high)
      decreases split + rest, 0
    {
      ghost var l0 := layers;
      low := RecursiveOheVec(m, split, lowIdx);
      ghost var l1 := layers;
      high := RecursiveOheVec(m, rest, highIdx);
      PrefixTrans(l0, l1, layers);
    }

    /** `recursive_ohe_vec` */
    method RecursiveOheVec(l: nat, k: nat, idx: nat) returns (src: Source)
      requires Building() && k >= 1
      modifies this`layers, layers
      ensures Building() && Extends()
      ensures IsOhe(old(Circ()), l, k, idx, isConst, Circ(), src)
      decreases k, 1
    {
      if k == 1 {
        src := Input(LeafVec(idx, isConst));
        return;
      }
      var m, split := l + 1, (k + 1) / 2;
      var rest, lowIdx, highIdx := k - split, Mask(idx, split), Shr(idx, split);
      ghost var c, l0 := Circ(), layers;
      var low, high := Halves(m, split, rest, lowIdx, highIdx);
      ghost var c2, l1 := Circ(), layers;
      src := Join(l, k, low, high);
      PrefixTrans(l0, l1, layers);
      JoinedHalves(c, l, m, k, split, rest, idx, lowIdx, highIdx, isConst, c2, low, high, Circ(), src);
    }

    /** `ohe_vec` */
    method OheVec(k: nat, idx: nat) returns (src: Source)
      requires Building() && k >= 1
      modifies this`layers, layers
      ensures Building() && Extends()
      ensures IsOhe(old(Circ()), 0, k, idx, isConst, Circ(), src)
    {
      src := RecursiveOheVec(0, k, idx);
    }

    /** `get_output` */
    method GetOutput(src: Source) returns (v: BitVec)
      requires Readable(output) && SourceOk(src, BelowOf(OutputOf(output)))
      ensures v == Extract(src, OutputOf(output))
    {
      v := ExtractSrcData(src, output);
    }

    /** In the middle of a run: the layers still to come are those of `c`, and `prev` has finished. */
    ghost predicate Running(co: Course, prev: Layer?)
      reads this, layers, prev, beaver
    {
      && Building() && |layers| <= |co.c| && Readable(prev) && prev !in layers
      && (forall k :: 0 <= k < |layers| ==> layers[k].AsGates() == co.c[k])
      && co.isConst == isConst && beaver.Valid() && beaver.storage == Some(co.t)
    }

    /** The last layer, open for tickets, is taken off the list. */
    method PopLayer(prev: Layer?, ghost co: Course, l: nat) returns (layer: Layer)
      requires Running(co, prev) && |layers| == l + 1
      modifies this`layers
      ensures layers == old(layers)[..l] && layer == old(layers)[l] && Running(co, prev)
      ensures layer != prev && layer !in layers && layer.AsGates() == co.c[l]
      ensures layer.Valid() && layer.state == Ticketing && layer.layerNum == l && layer.isConst == isConst
    {
      layer := layers[l];
      layers := layers[..l];
    }

    /** One turn of the loop in `run`: layer `l`, the last one, is popped and interacts. */
    method RunLast(prev: Layer?, ghost co: Course, l: nat, inbox: seq<Blinded>) returns (layer: Layer, m: Blinded)
      requires Running(co, prev) && |layers| == l + 1 && l < |co.inboxes| && inbox == co.inboxes[l]
      requires TurnReady(co, l, beaver.used, OutputOf(prev))
      modifies this`layers, layers, beaver`used
      ensures layers == old(layers)[..l] && Running(co, layer)
      ensures Stepped(co, l, old(beaver.used), old(OutputOf(prev)), beaver.used, OutputOf(layer), m)
    {
      layer := PopLayer(prev, co, l);
      m := InteractAs(layer, prev, beaver, co, l, inbox);
    }

    /** All turns, keeping whatever condition `way` guides the run. */
    method RunAll(inboxes: seq<seq<Blinded>>, ghost co: Course, ghost way: Way)
        returns (prev: Layer?, sent: seq<Blinded>)
      requires Running(co, null) && co.inboxes == inboxes && Guides(way, co) && way(|layers|, beaver.used, None, [])
      modifies this`layers, layers, beaver`used
      ensures layers == [] && Running(co, prev) && way(0, beaver.used, OutputOf(prev), sent)
    {
      prev, sent := null, [];
      ghost var all := layers;
      while |layers| > 0
        invariant layers <= all && Running(co, prev) && way(|layers|, beaver.used, OutputOf(prev), sent)
        decreases |layers|
      {
        var m;
        prev, m := RunTurn(prev, inboxes, co, way, sent, |layers| - 1, |layers|);
        sent := sent + [m];
      }
    }

    /** One turn of the loop, on its way. */
    method RunTurn(prev: Layer?, inboxes: seq<seq<Blinded>>, ghost co: Course, ghost way: Way,
                   ghost sent: seq<Blinded>, l: nat, ghost n: nat)
        returns (layer: Layer, m: Blinded)
      requires Running(co, prev) && co.inboxes == inboxes && Guides(way, co) && |layers| == n == l + 1
      requires way(n, beaver.used, OutputOf(prev), sent)
      modifies this`layers, layers, beaver`used
      ensures layers == old(layers)[..l] && Running(co, layer) && way(l, beaver.used, OutputOf(layer), sent + [m])
    {
      ghost var used, out := beaver.used, OutputOf(prev);
      GuidesReady(way, co, l, n, used, out, sent);
      layer, m := RunLast(prev, co, l, inboxes[l]);
      GuidesNext(way, co, l, n, used, out, sent, beaver.used, OutputOf(layer), m);
    }

    /** All turns of the course. */
    method RunCourse(inboxes: seq<seq<Blinded>>, ghost co: Course, ghost u: nat)
        returns (prev: Layer?, sent: seq<Blinded>)
      requires Running(co, null) && co.inboxes == inboxes && |layers| == |co.c| && u == beaver.used
      requires RunOk(co, |layers|, u, None)
      modifies this`layers, layers, beaver`used
      ensures layers == [] && Running(co, prev) && Ran(co, u, OutputOf(prev), beaver.used, sent)
    {
      ghost var way := WayTo(co, GoalOf(co, u));
      WayStart(co, |layers|, u, way);
      prev, sent := RunAll(inboxes, co, way);
      WayEnd(co, u, way, beaver.used, OutputOf(prev), sent);
    }

    /** `run`: pops layer after layer; `inboxes[l]` is what the peers broadcast for layer l, `sent` what
        this party broadcasts, round by round. */
    method Run(inboxes: seq<seq<Blinded>>) returns (sent: seq<Blinded>)
      requires Building() && beaver.Valid() && beaver.storage.Some?
      requires RunOk(CourseOf(inboxes), |layers|, beaver.used, None)
      modifies this, layers, beaver`used
      ensures layers == [] && Building() && Readable(output) && beaver.Valid()
      ensures Ran(old(CourseOf(inboxes)), old(beaver.used), OutputOf(output), beaver.used, sent)
    {
      output, sent := RunCourse(inboxes, CourseOf(inboxes), beaver.used);
    }

    /** What stays fixed during a run. */
    ghost function CourseOf(inboxes: seq<seq<Blinded>>): Course
      requires beaver.storage.Some?
      reads this, layers, beaver
    {
      Course(isConst, Circ(), beaver.storage.value, inboxes)
    }
  }

  /* ---------- what a run computes and broadcasts ---------- */

  /** The circuit of a run, the party's triples, and what arrives for every layer. */
  datatype Course = Course(isConst: bool, c: seq<Gates>, t: Triple, inboxes: seq<seq<Blinded>>)

  /** What a layer broadcasts, and what it outputs. */
  datatype Turned = Turned(sent: Blinded, z: Bits)

  /** What a run leaves. */
  datatype Goal = Goal(out: Option<Finished>, used: nat, sent: seq<Blinded>)

  /** Bytes of the first `n` layers. */
  function SizeSum(c: seq<Gates>, n: nat): nat
    requires n <= |c|
  {
    if n == 0 then 0 else c[n - 1].size + SizeSum(c, n - 1)
  }

  predicate InboxesFit(c: seq<Gates>, n: nat, inboxes: seq<seq<Blinded>>) {
    n <= |c| && n <= |inboxes| && forall l :: 0 <= l < n ==> InboxFits(inboxes[l], 8 * c[l].size)
  }

  predicate Enough(c: seq<Gates>, n: nat, t: Triple, used: nat) {
    n <= |c| && TripleFits(t, |t.a|) && 8 * (used + SizeSum(c, n)) <= |t.a|
  }

  /** Nothing can fail while the first `n` layers run, the layers after them having left `prev`. */
  predicate RunOk(co: Course, n: nat, used: nat, prev: Option<Finished>) {
    && CircuitOk(co.c) && NonEmptyFrom(co.c, 0) && BelowOf(prev) == BelowFrom(co.c, n)
    && Enough(co.c, n, co.t, used) && InboxesFit(co.c, n, co.inboxes)
  }

  lemma NextRunnable(c: seq<Gates>, l: nat, n: nat, prev: Option<Finished>)
    requires CircuitOk(c) && l < |c| && n == l + 1 && BelowOf(prev) == BelowFrom(c, n)
    ensures AllRunnable(c[l].ops, l, c[l].size, BelowOf(prev))
  {
    assert LayerOk(c, l);
    assert BelowFrom(c, n) == BelowFrom(c, l + 1);
  }

  /** Layer `l` can interact, with triples from byte `used` on. */
  predicate TurnReady(co: Course, l: nat, used: nat, prev: Option<Finished>) {
    && l < |co.c| && l < |co.inboxes|
    && GatesReady(co.c[l], l, co.t, used, co.inboxes[l], prev)
  }

  predicate GatesReady(g: Gates, l: nat, t: Triple, used: nat, inbox: seq<Blinded>, prev: Option<Finished>) {
    && AllRunnable(g.ops, l, g.size, BelowOf(prev)) && InboxFits(inbox, 8 * g.size) && g.size > 0
    && 8 * (used + g.size) <= |t.a| && |t.a| == |t.b| == |t.c|
  }

  predicate SliceReady(g: Gates, l: nat, slice: Triple, inbox: seq<Blinded>, prev: Option<Finished>) {
    && AllRunnable(g.ops, l, g.size, BelowOf(prev)) && InboxFits(inbox, 8 * g.size) && TripleFits(slice, 8 * g.size)
  }

  /** What gates `g` as layer `l` broadcast and output. */
  function GatesTurn(isConst: bool, g: Gates, l: nat, slice: Triple, inbox: seq<Blinded>,
                     prev: Option<Finished>): Turned
    requires SliceReady(g, l, slice, inbox, prev)
  {
    Turned(Blind(LayerStreams(g, l, prev), slice), LayerOutput(isConst, g, l, prev, slice, inbox))
  }

  /** The same for layer `l` of the course, and nothing if it cannot interact. */
  function LayerTurn(co: Course, l: nat, used: nat, prev: Option<Finished>): (r: Turned)
    requires l < |co.c|
    ensures |r.z| == 8 * co.c[l].size
  {
    if TurnReady(co, l, used, prev)
    then GatesTurn(co.isConst, co.c[l], l, Next(co.t, used, co.c[l].size), co.inboxes[l], prev)
    else Turned(Blinded([], []), BoolSeq(8 * co.c[l].size, false))
  }

  /** Layer `l` of the course took its turn: it broadcast `m` and left `out`, with `end` bytes used. */
  predicate Stepped(co: Course, l: nat, used: nat, prev: Option<Finished>, end: nat, out: Option<Finished>,
                    m: Blinded) {
    && l < |co.c| && end == used + co.c[l].size
    && m == LayerTurn(co, l, used, prev).sent && out == Some(Finished(l, LayerTurn(co, l, used, prev).z))
  }

  lemma SteppedIs(co: Course, l: nat, g: Gates, used: nat, prev: Option<Finished>, end: nat,
                  m: Blinded, z: Bits)
    requires TurnReady(co, l, used, prev) && g == co.c[l] && end == used + g.size
    requires m == Blind(LayerStreams(g, l, prev), Next(co.t, used, g.size))
    requires z == LayerOutput(co.isConst, g, l, prev, Next(co.t, used, g.size), co.inboxes[l])
    ensures Stepped(co, l, used, prev, end, Some(Finished(l, z)), m)
  {
  }

  /** `interact` on layer `l` of the course. */
  method InteractAs(layer: Layer, prev: Layer?, beaver: BeaverProvider, ghost co: Course, l: nat, inbox: seq<Blinded>)
      returns (m: Blinded)
    requires layer.Valid() && layer.state == Ticketing && layer.layerNum == l && layer.isConst == co.isConst
    requires Readable(prev) && prev != layer && beaver.Valid() && beaver.storage == Some(co.t)
    requires TurnReady(co, l, beaver.used, OutputOf(prev)) && layer.AsGates() == co.c[l] && inbox == co.inboxes[l]
    modifies layer, beaver`used
    ensures Readable(layer) && beaver.Valid()
    ensures Stepped(co, l, old(beaver.used), old(OutputOf(prev)), beaver.used, OutputOf(layer), m)
  {
    ghost var g, out, used := layer.AsGates(), OutputOf(prev), beaver.used;
    m := layer.Interact(prev, beaver, inbox);
    SteppedIs(co, l, g, used, out, beaver.used, m, layer.z);
  }

  /** The turn of a layer, given its number, the bytes of triples used before and what is below. */
  type Turns = (nat, nat, Option<Finished>) -> Turned

  function TurnsOf(co: Course): Turns {
    (l: nat, used: nat, prev: Option<Finished>) =>
      if l < |co.c| then LayerTurn(co, l, used, prev) else Turned(Blinded([], []), [])
  }

  lemma TurnsOfIs(co: Course, f: Turns, l: nat, used: nat, prev: Option<Finished>)
    requires f == TurnsOf(co) && l < |co.c|
    ensures f(l, used, prev) == LayerTurn(co, l, used, prev)
  {
  }

  /** The last output of the run of layers n - 1, ..., 0. */
  function RunFrom(f: Turns, c: seq<Gates>, n: nat, used: nat, prev: Option<Finished>): Option<Finished>
    requires n <= |c|
    decreases n
  {
    if n == 0 then prev
    else RunFrom(f, c, n - 1, used + c[n - 1].size, Some(Finished(n - 1, f(n - 1, used, prev).z)))
  }

  /** Its broadcasts. */
  function RunSends(f: Turns, c: seq<Gates>, n: nat, used: nat, prev: Option<Finished>): (r: seq<Blinded>)
    requires n <= |c|
    decreases n
  {
    if n == 0 then []
    else
      [f(n - 1, used, prev).sent]
      + RunSends(f, c, n - 1, used + c[n - 1].size, Some(Finished(n - 1, f(n - 1, used, prev).z)))
  }

  /** A run in its middle, which will reach `goal`. */
  predicate RunsTo(f: Turns, c: seq<Gates>, n: nat, used: nat, prev: Option<Finished>, sent: seq<Blinded>, goal: Goal) {
    && n <= |c| && RunFrom(f, c, n, used, prev) == goal.out && used + SizeSum(c, n) == goal.used
    && sent + RunSends(f, c, n, used, prev) == goal.sent
  }

  ghost predicate OnWay(f: Turns, co: Course, n: nat, used: nat, prev: Option<Finished>, sent: seq<Blinded>,
                        goal: Goal) {
    f == TurnsOf(co) && RunOk(co, n, used, prev) && RunsTo(f, co.c, n, used, prev, sent, goal)
  }

  lemma LayerReady(co: Course, l: nat, n: nat, used: nat, prev: Option<Finished>)
    requires n == l + 1 && RunOk(co, n, used, prev)
    ensures TurnReady(co, l, used, prev)
  {
    NextRunnable(co.c, l, n, prev);
  }

  lemma OnWayReady(f: Turns, co: Course, l: nat, n: nat, used: nat, prev: Option<Finished>,
                   sent: seq<Blinded>, goal: Goal)
    requires n == l + 1 && OnWay(f, co, n, used, prev, sent, goal)
    ensures TurnReady(co, l, used, prev)
  {
    LayerReady(co, l, n, used, prev);
  }

  lemma RestOk(co: Course, l: nat, n: nat, used: nat, prev: Option<Finished>, end: nat, z: Bits,
               next: Option<Finished>)
    requires n == l + 1 && RunOk(co, n, used, prev) && end == used + co.c[l].size
    requires |z| == 8 * co.c[l].size && next == Some(Finished(l, z))
    ensures RunOk(co, l, end, next)
  {
  }

  lemma RunsNext(f: Turns, c: seq<Gates>, l: nat, n: nat, used: nat, prev: Option<Finished>,
                 sent: seq<Blinded>, goal: Goal,
                 end: nat, next: Option<Finished>, m: Blinded)
    requires n == l + 1 && RunsTo(f, c, n, used, prev, sent, goal) && end == used + c[l].size
    requires next == Some(Finished(l, f(l, used, prev).z)) && m == f(l, used, prev).sent
    ensures RunsTo(f, c, l, end, next, sent + [m], goal)
  {
    assert n - 1 == l;
    assert sent + ([m] + RunSends(f, c, l, end, next)) == sent + [m] + RunSends(f, c, l, end, next);
  }

  /** A turn keeps the run on its way. */
  lemma OnWayNext(f: Turns, co: Course, l: nat, n: nat, used: nat, prev: Option<Finished>,
                  sent: seq<Blinded>, goal: Goal,
                  end: nat, next: Option<Finished>, m: Blinded)
    requires n == l + 1 && OnWay(f, co, n, used, prev, sent, goal) && Stepped(co, l, used, prev, end, next, m)
    ensures OnWay(f, co, l, end, next, sent + [m], goal)
  {
    TurnsOfIs(co, f, l, used, prev);
    RestOk(co, l, n, used, prev, end, LayerTurn(co, l, used, prev).z, next);
    RunsNext(f, co.c, l, n, used, prev, sent, goal, end, next, m);
  }

  /** What the run of the whole course leaves. */
  function GoalOf(co: Course, used: nat): Goal {
    var f, n := TurnsOf(co), |co.c|;
    Goal(RunFrom(f, co.c, n, used, None), used + SizeSum(co.c, n), RunSends(f, co.c, n, used, None))
  }

  lemma OnWayStart(f: Turns, co: Course, n: nat, used: nat, goal: Goal)
    requires f == TurnsOf(co) && n == |co.c| && RunOk(co, n, used, None) && goal == GoalOf(co, used)
    ensures OnWay(f, co, n, used, None, [], goal)
  {
    assert [] + RunSends(f, co.c, n, used, None) == RunSends(f, co.c, n, used, None);
  }

  /** A condition on the place of a run: layers left, bytes used, last output, broadcasts so far. */
  type Way = (nat, nat, Option<Finished>, seq<Blinded>) -> bool

  /** Wherever the condition holds the next layer can take its turn, and then it holds again. */
  ghost predicate Guides(way: Way, co: Course) {
    && (forall n: nat, used, out, sent :: n > 0 && way(n, used, out, sent) ==> TurnReady(co, n - 1, used, out))
    && (forall n: nat, l: nat, used, out, sent, end, next, m
          {:trigger way(n, used, out, sent), Stepped(co, l, used, out, end, next, m)} ::
          n == l + 1 && way(n, used, out, sent) && Stepped(co, l, used, out, end, next, m) ==>
            way(l, end, next, sent + [m]))
  }

  lemma GuidesReady(way: Way, co: Course, l: nat, n: nat, used: nat, out: Option<Finished>,
                    sent: seq<Blinded>)
    requires Guides(way, co) && n == l + 1 && way(n, used, out, sent)
    ensures TurnReady(co, l, used, out)
  {
    assert n - 1 == l;
  }

  lemma GuidesNext(way: Way, co: Course, l: nat, n: nat, used: nat, out: Option<Finished>,
                   sent: seq<Blinded>,
                   end: nat, next: Option<Finished>, m: Blinded)
    requires Guides(way, co) && n == l + 1 && way(n, used, out, sent) && Stepped(co, l, used, out, end, next, m)
    ensures way(l, end, next, sent + [m])
  {
  }

  /** Being on the way to `goal`. */
  ghost function WayTo(co: Course, goal: Goal): Way {
    (n: nat, used: nat, out: Option<Finished>, sent: seq<Blinded>) => OnWay(TurnsOf(co), co, n, used, out, sent, goal)
  }

  lemma WayGuides(co: Course, goal: Goal)
    ensures Guides(WayTo(co, goal), co)
  {
    var f, way := TurnsOf(co), WayTo(co, goal);
    forall n: nat, used, out, sent | n > 0 && way(n, used, out, sent) ensures TurnReady(co, n - 1, used, out) {
      OnWayReady(f, co, n - 1, n, used, out, sent, goal);
    }
    forall n: nat, l: nat, used, out, sent, end, next, m
      {:trigger way(n, used, out, sent), Stepped(co, l, used, out, end, next, m)}
      | n == l + 1 && way(n, used, out, sent) && Stepped(co, l, used, out, end, next, m)
      ensures way(l, end, next, sent + [m])
    {
      OnWayNext(f, co, l, n, used, out, sent, goal, end, next, m);
    }
  }

  lemma WayStart(co: Course, n: nat, used: nat, way: Way)
    requires n == |co.c| && RunOk(co, n, used, None) && way == WayTo(co, GoalOf(co, used))
    ensures Guides(way, co) && way(n, used, None, [])
  {
    WayGuides(co, GoalOf(co, used));
    OnWayStart(TurnsOf(co), co, n, used, GoalOf(co, used));
  }

  lemma WayEnd(co: Course, u: nat, way: Way, used: nat, out: Option<Finished>, sent: seq<Blinded>)
    requires way == WayTo(co, GoalOf(co, u)) && way(0, used, out, sent)
    ensures Ran(co, u, out, used, sent)
  {
    OnWayEnd(TurnsOf(co), co, used, out, sent, GoalOf(co, u));
  }

  /** The course was run: it left `out`, `end` bytes are used, and `sent` was broadcast. */
  predicate Ran(co: Course, used: nat, out: Option<Finished>, end: nat, sent: seq<Blinded>) {
    Goal(out, end, sent) == GoalOf(co, used) && BelowOf(out) == BelowFrom(co.c, 0)
  }

  lemma OnWayEnd(f: Turns, co: Course, used: nat, out: Option<Finished>, sent: seq<Blinded>,
                 goal: Goal)
    requires OnWay(f, co, 0, used, out, sent, goal)
    ensures goal == Goal(out, used, sent) && BelowOf(out) == BelowFrom(co.c, 0)
  {
    assert sent + RunSends(f, co.c, 0, used, out) == sent;
  }

  /** A call of the builder on `c` leaves circuit `d` and returns `src`. */
  predicate IsOhe(c: seq<Gates>, l: nat, k: nat, idx: nat, isConst: bool, d: seq<Gates>, src: Source)
    requires k >= 1
  {
    Ohe(c, l, k, idx, isConst) == (d, src)
  }

  /** So do two calls, one after the other. */
  predicate BothHalves(c: seq<Gates>, m: nat, split: nat, rest: nat, lowIdx: nat, highIdx: nat, isConst: bool,
                       c2: seq<Gates>, low: Source, high: Source)
    requires split >= 1 && rest >= 1
  {
    && IsOhe(c, m, split, lowIdx, isConst, Ohe(c, m, split, lowIdx, isConst).0, low)
    && IsOhe(Ohe(c, m, split, lowIdx, isConst).0, m, rest, highIdx, isConst, c2, high)
  }

  lemma {:induction false} JoinedHalves(c: seq<Gates>, l: nat, m: nat, k: nat, split: nat, rest: nat, idx: nat,
                                        lowIdx: nat, highIdx: nat, isConst: bool, c2: seq<Gates>,
                                        low: Source, high: Source, d: seq<Gates>, src: Source)
    requires k >= 2 && m == l + 1 && split == Split(k) && rest == k - split
    requires lowIdx == Mask(idx, split) && highIdx == Shr(idx, split)
    requires BothHalves(c, m, split, rest, lowIdx, highIdx, isConst, c2, low, high)
    requires (d, src) == OneHot.Join(c2, l, k, low, high)
    ensures IsOhe(c, l, k, idx, isConst, d, src)
  {
    SplitInside(k);
    HalvesAre(c, l, m, k, split, rest, idx, lowIdx, highIdx, isConst, c2, low, high);
    OheFrom(c, l, k, idx, isConst, c2, low, high, d, src);
  }

  /** The two calls on the halves of a `k`-bit index, as the recursion makes them. */
  predicate HalvesOf(c: seq<Gates>, l: nat, k: nat, s: nat, idx: nat, isConst: bool, c2: seq<Gates>, low: Source,
                     high: Source)
    requires 1 <= s < k
  {
    && low == Ohe(c, l + 1, s, Mask(idx, s), isConst).1
    && (c2, high) == Ohe(Ohe(c, l + 1, s, Mask(idx, s), isConst).0, l + 1, k - s, Shr(idx, s), isConst)
  }

  lemma {:induction false} HalvesAre(c: seq<Gates>, l: nat, m: nat, k: nat, s: nat, rest: nat, idx: nat, lowIdx: nat,
                                     highIdx: nat, isConst: bool, c2: seq<Gates>, low: Source, high: Source)
    requires 1 <= s < k && m == l + 1 && rest == k - s && lowIdx == Mask(idx, s) && highIdx == Shr(idx, s)
    requires BothHalves(c, m, s, rest, lowIdx, highIdx, isConst, c2, low, high)
    ensures HalvesOf(c, l, k, s, idx, isConst, c2, low, high)
  {
    SameLow(c, l, m, s, idx, lowIdx, isConst);
    SameHigh(Ohe(c, m, s, lowIdx, isConst).0, l, m, k, s, rest, idx, highIdx, isConst);
  }

  lemma {:induction false} OheFrom(c: seq<Gates>, l: nat, k: nat, idx: nat, isConst: bool, c2: seq<Gates>,
                                   low: Source, high: Source, d: seq<Gates>, src: Source)
    requires k >= 2 && 1 <= Split(k) < k && HalvesOf(c, l, k, Split(k), idx, isConst, c2, low, high)
    requires (d, src) == OneHot.Join(c2, l, k, low, high)
    ensures IsOhe(c, l, k, idx, isConst, d, src)
  {
    OheOnce(c, l, k, idx, isConst);
  }

  lemma SameLow(c: seq<Gates>, l: nat, m: nat, s: nat, idx: nat, lowIdx: nat, isConst: bool)
    requires s >= 1 && m == l + 1 && lowIdx == Mask(idx, s)
    ensures Ohe(c, m, s, lowIdx, isConst) == Ohe(c, l + 1, s, Mask(idx, s), isConst)
  {
  }

  lemma SameHigh(c: seq<Gates>, l: nat, m: nat, k: nat, s: nat, rest: nat, idx: nat, highIdx: nat, isConst: bool)
    requires s < k && m == l + 1 && rest == k - s && highIdx == Shr(idx, s)
    ensures Ohe(c, m, rest, highIdx, isConst) == Ohe(c, l + 1, k - s, Shr(idx, s), isConst)
  {
  }

  lemma OheOnce(c: seq<Gates>, l: nat, k: nat, idx: nat, isConst: bool)
    requires k >= 2
    ensures var low := Ohe(c, l + 1, Split(k), Mask(idx, Split(k)), isConst);
            var high := Ohe(low.0, l + 1, k - Split(k), Shr(idx, Split(k)), isConst);
            Ohe(c, l, k, idx, isConst) == OneHot.Join(high.0, l, k, low.1, high.1)
  {
  }

  lemma PrefixTrans<T>(a: seq<T>, b: seq<T>, c: seq<T>)
    requires |a| <= |b| && b[..|a|] == a && |b| <= |c| && c[..|b|] == b
    ensures c[..|a|] == a && forall i :: |a| <= i < |b| ==> c[i] == b[i]
  {
    assert forall i :: 0 <= i < |b| ==> c[i] == c[..|b|][i];
    assert c[..|b|][..|a|] == c[..|a|];
  }

  function Widened(c: seq<Gates>, l: nat, bitSize: nat): seq<Gates>
    requires l < |c|
  {
    c[l := Gates(c[l].size + CeilDiv8(bitSize), c[l].ops)]
  }

  function Queued(c: seq<Gates>, l: nat, op: Operation): seq<Gates>
    requires l < |c|
  {
    c[l := Gates(c[l].size, c[l].ops + [op])]
  }

  lemma JoinOps(k: nat, split: nat, low: Source, high: Source, t: Ticket, x: Operation, y: Operation)
    requires k >= 2 && split == (k + 1) / 2
    requires x == Replicate(Pow2(k - split), low, Relay(t, 0)) && y == BitExpand(Pow2(split), high, Relay(t, 1))
    ensures x == JoinX(k, low, t) && y == JoinY(k, high, t)
  {
  }

  lemma {:induction false} JoinInSteps(c: seq<Gates>, l: nat, k: nat, low: Source, high: Source, bits: nat, t: Ticket,
                                       x: Operation, y: Operation)
    requires k >= 2 && bits == Pow2(k) && t == NewTicket(OneHot.GetLayer(c, l), l, bits)
    requires x == JoinX(k, low, t) && y == JoinY(k, high, t)
    ensures OneHot.Join(c, l, k, low, high)
         == (Queued(Queued(Widened(OneHot.GetLayer(c, l), l, bits), l, x), l, y), TakeZ(t))
  {
    PairInSteps(OneHot.GetLayer(c, l), l, bits, x, y);
  }

  lemma WidenedIs(c: seq<Gates>, d: seq<Gates>, l: nat, bitSize: nat)
    requires l < |c| == |d| && d[l] == Gates(c[l].size + CeilDiv8(bitSize), c[l].ops)
    requires forall i :: 0 <= i < |c| && i != l ==> d[i] == c[i]
    ensures d == Widened(c, l, bitSize)
  {
  }

  /** A ticket and two operations, one after the other. */
  lemma PairInSteps(c: seq<Gates>, l: nat, bitSize: nat, x: Operation, y: Operation)
    requires l < |c|
    ensures Queued(Queued(Widened(c, l, bitSize), l, x), l, y) == AddPair(c, l, bitSize, x, y)
  {
    assert c[l].ops + [x] + [y] == c[l].ops + [x, y];
  }
}
