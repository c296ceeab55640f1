/** The message rounds of the parties as a transition system. In every round a party broadcasts to
    its peers one by one, then takes one message from every peer in whatever order they are there,
    then asserts that it has the right number of the right kind and goes on. Steps of different
    parties interleave freely. */
module Rounds {
  import opened Bits
  import opened Folds

  datatype Kind = BeaverExchange | DabitExchange | AggCommit

  /** `senderId` is the sender's number as a u8. */
  datatype Msg<P> = Msg(kind: Kind, senderId: nat, payload: P)

  /** The three storages of a message handler. */
  datatype Store<P> = Store(beaver: seq<P>, dabit: seq<P>, commit: seq<P>) {
    function Get(k: Kind): seq<P> {
      match k
      case BeaverExchange => beaver
      case DabitExchange => dabit
      case AggCommit => commit
    }

    function Put(k: Kind, s: seq<P>): Store<P> {
      match k
      case BeaverExchange => this.(beaver := s)
      case DabitExchange => this.(dabit := s)
      case AggCommit => this.(commit := s)
    }
  }

  /** A party's code between rounds: what it broadcasts, and how it continues from its storage. */
  datatype Program<!S, !P> = Program(emit: S -> P, absorb: (S, seq<P>) -> S)

  /** `n` parties, the kind of message of each round, the code and the initial states. */
  datatype System<!S, !P> = System(n: nat, sched: seq<Kind>, prog: Program<S, P>, init: seq<S>)

  datatype Phase = Sending(todo: set<nat>) | Receiving(order: seq<nat>)

  datatype Node<S, P> = Node(local: S, round: nat, phase: Phase, store: Store<P>)

  /** `chan[(p, q)]` is the queue from p to q; `Panic` stands for any failed assertion. */
  datatype Net<S, P> = Net(nodes: seq<Node<S, P>>, chan: map<(nat, nat), seq<Msg<P>>>) | Panic

  datatype Action = Send(p: nat, q: nat) | Recv(p: nat, q: nat) | Finish(p: nat)

  const CAPACITY := 100

  function Id(p: nat): nat { p % 256 }

  function PeerSet(n: nat, p: nat): (r: set<nat>)
    requires p < n
    ensures forall q :: q in r <==> 0 <= q < n && q != p
  {
    set q | q in Peers(n, p)
  }

  function Chan<S, P>(net: Net<S, P>, p: nat, q: nat): seq<Msg<P>>
    requires net.Net?
  {
    if (p, q) in net.chan then net.chan[(p, q)] else []
  }

  function EmptyStore<P>(): Store<P> { Store([], [], []) }

  function Start<S, P>(sys: System<S, P>): (net: Net<S, P>)
    requires |sys.init| == sys.n
  {
    Net(seq(sys.n, p requires 0 <= p < sys.n => Node(sys.init[p], 0, Sending(PeerSet(sys.n, p)), EmptyStore())), map[])
  }

  predicate Enabled<S, P>(sys: System<S, P>, net: Net<S, P>, a: Action) {
    && net.Net? && a.p < |net.nodes| == sys.n && net.nodes[a.p].round < |sys.sched|
    && var me := net.nodes[a.p];
       match a
       case Send(p, q) => me.phase.Sending? && q in me.phase.todo && |Chan(net, p, q)| < CAPACITY
       case Recv(p, q) => me.phase.Receiving? && q < sys.n && q != p && q !in me.phase.order && |Chan(net, q, p)| > 0
       case Finish(p) => me.phase.Receiving? && |me.phase.order| == sys.n - 1
  }

  function AfterSend<S, P>(me: Node<S, P>, q: nat): Node<S, P>
    requires me.phase.Sending?
  {
    var rest := me.phase.todo - {q};
    me.(phase := if rest == {} then Receiving([]) else Sending(rest))
  }

  function SendStep<S, P>(sys: System<S, P>, net: Net<S, P>, p: nat, q: nat): Net<S, P>
    requires Enabled(sys, net, Send(p, q))
  {
    var me := net.nodes[p];
    var m := Msg(sys.sched[me.round], Id(p), sys.prog.emit(me.local));
    Net(net.nodes[p := AfterSend(me, q)], net.chan[(p, q) := Chan(net, p, q) + [m]])
  }

  /** `handle_cmd` files a message by its own kind. */
  function AfterRecv<S, P>(me: Node<S, P>, q: nat, m: Msg<P>): Node<S, P>
    requires me.phase.Receiving?
  {
    me.(phase := Receiving(me.phase.order + [q]),
        store := me.store.Put(m.kind, me.store.Get(m.kind) + [m.payload]))
  }

  /** `handle_cmd` rejects a message that carries its own number. */
  function RecvStep<S, P>(sys: System<S, P>, net: Net<S, P>, p: nat, q: nat): Net<S, P>
    requires Enabled(sys, net, Recv(p, q))
  {
    var m := Chan(net, q, p)[0];
    if m.senderId == Id(p) then Panic
    else Net(net.nodes[p := AfterRecv(net.nodes[p], q, m)], net.chan[(q, p) := Chan(net, q, p)[1..]])
  }

  /** `receive_beaver_shares`, `receive_dabit_shares`, `receive_agg_commits`, after `receive_all`:
      drain the round's storage and continue with what it held. */
  function AfterFinish<S, P>(sys: System<S, P>, me: Node<S, P>, p: nat): Node<S, P>
    requires me.round < |sys.sched| && p < sys.n
  {
    var k := sys.sched[me.round];
    Node(sys.prog.absorb(me.local, me.store.Get(k)), me.round + 1, Sending(PeerSet(sys.n, p)), me.store.Put(k, []))
  }

  /** They assert the number of messages first. */
  function FinishStep<S, P>(sys: System<S, P>, net: Net<S, P>, p: nat): Net<S, P>
    requires Enabled(sys, net, Finish(p))
  {
    var me := net.nodes[p];
    if |me.store.Get(sys.sched[me.round])| != sys.n - 1 then Panic
    else net.(nodes := net.nodes[p := AfterFinish(sys, me, p)])
  }

  function Step<S, P>(sys: System<S, P>, net: Net<S, P>, a: Action): Net<S, P>
    requires Enabled(sys, net, a)
  {
    match a
    case Send(p, q) => SendStep(sys, net, p, q)
    case Recv(p, q) => RecvStep(sys, net, p, q)
    case Finish(p) => FinishStep(sys, net, p)
  }

  /** `net'` is reached from `net` by the interleaving `acts`. */
  predicate Run<S(==), P(==)>(sys: System<S, P>, net: Net<S, P>, acts: seq<Action>, net': Net<S, P>)
    decreases |acts|
  {
    if |acts| == 0 then net == net'
    else Enabled(sys, net, acts[0]) && Run(sys, Step(sys, net, acts[0]), acts[1..], net')
  }

  /* ---------- the lockstep execution that every run is compared with ---------- */

  function Outs<S, P>(sys: System<S, P>, states: seq<S>): (r: seq<P>)
    ensures |r| == |states| && forall p :: 0 <= p < |states| ==> r[p] == sys.prog.emit(states[p])
  {
    seq(|states|, p requires 0 <= p < |states| => sys.prog.emit(states[p]))
  }

  function NextRound<S, P>(sys: System<S, P>, states: seq<S>): (r: seq<S>)
    ensures |r| == |states|
    ensures forall p :: 0 <= p < |states| ==> r[p] == sys.prog.absorb(states[p], FromPeers(Outs(sys, states), p))
  {
    seq(|states|, p requires 0 <= p < |states| => sys.prog.absorb(states[p], FromPeers(Outs(sys, states), p)))
  }

  /** All parties' states after `r` rounds in lockstep, inboxes listed by peer. */
  function Lock<S, P>(sys: System<S, P>, r: nat): (states: seq<S>)
    ensures |states| == |sys.init|
  {
    if r == 0 then sys.init else NextRound(sys, Lock(sys, r - 1))
  }

  /** The code does not look at the order in which a round's messages arrived. */
  ghost predicate OrderFree<S(!new), P(!new)>(prog: Program<S, P>) {
    forall s: S, a: seq<P>, b: seq<P> :: multiset(a) == multiset(b) ==> prog.absorb(s, a) == prog.absorb(s, b)
  }

  ghost predicate SystemOk<S(!new), P(!new)>(sys: System<S, P>) {
    2 <= sys.n == |sys.init| && OrderFree(sys.prog)
  }

  /* ---------- the invariant ---------- */

  function OutOf<S, P>(sys: System<S, P>, r: nat, p: nat): P
    requires p < |sys.init|
  {
    sys.prog.emit(Lock(sys, r)[p])
  }

  function OutMsg<S, P>(sys: System<S, P>, r: nat, p: nat): Msg<P>
    requires p < |sys.init| && r < |sys.sched|
  {
    Msg(sys.sched[r], Id(p), OutOf(sys, r, p))
  }

  /** How many messages `me` has sent to q, and how many it has taken from q. */
  function Sent<S, P>(me: Node<S, P>, q: nat): nat {
    me.round + if me.phase.Receiving? || q !in me.phase.todo then 1 else 0
  }

  function Got<S, P>(me: Node<S, P>, q: nat): nat {
    me.round + if me.phase.Receiving? && q in me.phase.order then 1 else 0
  }

  predicate PhaseOk(n: nat, p: nat, rounds: nat, round: nat, phase: Phase)
    requires p < n
  {
    match phase
    case Sending(todo) => todo <= PeerSet(n, p) && todo != {} && (round == rounds ==> todo == PeerSet(n, p))
    case Receiving(order) => round < rounds && NoDup(order) && forall q :: q in order ==> q < n && q != p
  }

  function Received<S, P>(sys: System<S, P>, r: nat, order: seq<nat>): (s: seq<P>)
    requires forall q :: q in order ==> q < |sys.init|
    ensures |s| == |order|
    ensures forall i :: 0 <= i < |order| ==> order[i] < |sys.init| && s[i] == OutOf(sys, r, order[i])
  {
    assert forall i :: 0 <= i < |order| ==> order[i] in order;
    seq(|order|, i requires 0 <= i < |order| => OutOf(sys, r, order[i]))
  }

  /** Storages are empty between rounds; within a round only the round's own kind is filled, with
      one message of that round from every peer heard so far. */
  predicate StoreOk<S, P(==)>(sys: System<S, P>, me: Node<S, P>)
    requires me.phase.Receiving? ==> me.round < |sys.sched| && forall q :: q in me.phase.order ==> q < |sys.init|
  {
    match me.phase
    case Sending(_) => me.store == EmptyStore()
    case Receiving(order) => me.store == EmptyStore<P>().Put(sys.sched[me.round], Received(sys, me.round, order))
  }

  predicate NodeOk<S(==), P(==)>(sys: System<S, P>, me: Node<S, P>, p: nat)
    requires p < sys.n == |sys.init|
  {
    && me.round <= |sys.sched|
    && me.local == Lock(sys, me.round)[p]
    && PhaseOk(sys.n, p, |sys.sched|, me.round, me.phase)
    && StoreOk(sys, me)
  }

  /** The queue holds party p's messages of rounds [got, sent). */
  predicate Queue<S, P(==)>(sys: System<S, P>, p: nat, got: nat, sent: nat, c: seq<Msg<P>>)
    requires p < |sys.init|
  {
    && got <= sent <= |sys.sched| && |c| == sent - got
    && forall i :: 0 <= i < |c| ==> c[i] == OutMsg(sys, got + i, p)
  }

  /** The queue from p to q holds exactly the rounds that p has sent and q has not taken. */
  predicate ChanOk<S, P(==)>(sys: System<S, P>, a: Node<S, P>, b: Node<S, P>, p: nat, q: nat, c: seq<Msg<P>>)
    requires p < |sys.init|
  {
    Queue(sys, p, Got(b, p), Sent(a, q), c)
  }

  predicate NodesOk<S(==), P(==)>(sys: System<S, P>, net: Net<S, P>)
    requires sys.n == |sys.init|
  {
    net.Net? && |net.nodes| == sys.n && forall p :: 0 <= p < sys.n ==> NodeOk(sys, net.nodes[p], p)
  }

  predicate ChansOk<S, P(==)>(sys: System<S, P>, net: Net<S, P>)
    requires net.Net? && |net.nodes| == sys.n == |sys.init|
  {
    forall p, q :: 0 <= p < sys.n && 0 <= q < sys.n && p != q ==>
      ChanOk(sys, net.nodes[p], net.nodes[q], p, q, Chan(net, p, q))
  }

  predicate Inv<S(==), P(==)>(sys: System<S, P>, net: Net<S, P>)
    requires sys.n == |sys.init|
  {
    NodesOk(sys, net) && ChansOk(sys, net)
  }

  lemma StartOk<S, P>(sys: System<S, P>)
    requires 2 <= sys.n == |sys.init|
    ensures Inv(sys, Start(sys))
  {
    forall p | 0 <= p < sys.n ensures NodeOk(sys, Start(sys).nodes[p], p) {
      var q := if p == 0 then 1 else 0;
      assert q in PeerSet(sys.n, p);
    }
  }

  /* ---------- every step keeps the invariant ---------- */

  lemma QueuePush<S, P>(sys: System<S, P>, p: nat, got: nat, sent: nat, c: seq<Msg<P>>)
    requires p < |sys.init| && sent < |sys.sched| && Queue(sys, p, got, sent, c)
    ensures Queue(sys, p, got, sent + 1, c + [OutMsg(sys, sent, p)])
  {
  }

  lemma QueuePop<S, P>(sys: System<S, P>, p: nat, got: nat, sent: nat, c: seq<Msg<P>>)
    requires p < |sys.init| && |c| > 0 && Queue(sys, p, got, sent, c)
    ensures got < |sys.sched| && c[0] == OutMsg(sys, got, p) && Queue(sys, p, got + 1, sent, c[1..])
  {
  }

  /** Replacing node p, with every queue adjusted or every count kept, keeps all queues right. */
  lemma ChansFrame<S, P>(sys: System<S, P>, net: Net<S, P>, net': Net<S, P>, p: nat)
    requires net.Net? && net'.Net? && |net.nodes| == |net'.nodes| == sys.n == |sys.init| && p < sys.n
    requires ChansOk(sys, net)
    requires net'.nodes == net.nodes[p := net'.nodes[p]]
    requires forall q :: 0 <= q < sys.n && q != p ==>
      && ChanOk(sys, net'.nodes[p], net.nodes[q], p, q, Chan(net', p, q))
      && ChanOk(sys, net.nodes[q], net'.nodes[p], q, p, Chan(net', q, p))
    requires forall a, b :: a != p && b != p ==> Chan(net', a, b) == Chan(net, a, b)
    ensures ChansOk(sys, net')
  {
  }

  lemma NodesFrame<S, P>(sys: System<S, P>, net: Net<S, P>, net': Net<S, P>, p: nat)
    requires sys.n == |sys.init| && NodesOk(sys, net) && p < sys.n
    requires net'.Net? && |net'.nodes| == sys.n && net'.nodes == net.nodes[p := net'.nodes[p]]
    requires NodeOk(sys, net'.nodes[p], p)
    ensures NodesOk(sys, net')
  {
  }

  lemma SendCounts<S, P>(me: Node<S, P>, q: nat, b: nat)
    requires me.phase.Sending? && q in me.phase.todo
    ensures Sent(AfterSend(me, q), b) == if b == q then me.round + 1 else Sent(me, b)
    ensures Got(AfterSend(me, q), b) == Got(me, b)
  {
  }

  lemma SendChans<S, P>(sys: System<S, P>, me: Node<S, P>, other: Node<S, P>, p: nat, q: nat, b: nat,
                        c: seq<Msg<P>>, back: seq<Msg<P>>)
    requires p < |sys.init| && b < |sys.init| && me.phase.Sending? && q in me.phase.todo && me.round < |sys.sched|
    requires ChanOk(sys, me, other, p, b, c) && ChanOk(sys, other, me, b, p, back)
    ensures ChanOk(sys, AfterSend(me, q), other, p, b, if b == q then c + [OutMsg(sys, me.round, p)] else c)
    ensures ChanOk(sys, other, AfterSend(me, q), b, p, back)
  {
    SendCounts(me, q, b);
    if b == q { QueuePush(sys, p, Got(other, p), me.round, c); }
  }

  lemma SendNode<S, P>(sys: System<S, P>, me: Node<S, P>, p: nat, q: nat)
    requires p < sys.n == |sys.init| && NodeOk(sys, me, p)
    requires me.phase.Sending? && q in me.phase.todo && me.round < |sys.sched|
    ensures NodeOk(sys, AfterSend(me, q), p)
  {
    assert Received(sys, me.round, []) == [];
  }

  lemma SendKeeps<S, P>(sys: System<S, P>, net: Net<S, P>, p: nat, q: nat)
    requires sys.n == |sys.init| && Inv(sys, net) && Enabled(sys, net, Send(p, q))
    ensures Inv(sys, SendStep(sys, net, p, q))
  {
    var net' := SendStep(sys, net, p, q);
    SendNode(sys, net.nodes[p], p, q);
    NodesFrame(sys, net, net', p);
    SendAllChans(sys, net, p, q);
  }

  /** Only the queue from p to q grows, by p's message of the round. */
  lemma {:induction false} ChanAfterSend<S, P>(sys: System<S, P>, net: Net<S, P>, net': Net<S, P>, p: nat, q: nat,
                                               b: nat)
    requires Enabled(sys, net, Send(p, q)) && net' == SendStep(sys, net, p, q) && p < |sys.init| && b != p
    requires net.nodes[p].local == Lock(sys, net.nodes[p].round)[p]
    ensures net'.Net? && Chan(net', b, p) == Chan(net, b, p)
    ensures Chan(net', p, b)
         == if b == q then Chan(net, p, b) + [OutMsg(sys, net.nodes[p].round, p)] else Chan(net, p, b)
  {
  }

  lemma SendWith<S, P>(sys: System<S, P>, net: Net<S, P>, net': Net<S, P>, p: nat, q: nat, b: nat)
    requires sys.n == |sys.init| && Inv(sys, net) && Enabled(sys, net, Send(p, q)) && net' == SendStep(sys, net, p, q)
    requires b < sys.n && b != p
    ensures ChanOk(sys, net'.nodes[p], net.nodes[b], p, b, Chan(net', p, b))
    ensures ChanOk(sys, net.nodes[b], net'.nodes[p], b, p, Chan(net', b, p))
  {
    assert NodeOk(sys, net.nodes[p], p);
    assert ChanOk(sys, net.nodes[p], net.nodes[b], p, b, Chan(net, p, b));
    assert ChanOk(sys, net.nodes[b], net.nodes[p], b, p, Chan(net, b, p));
    ChanAfterSend(sys, net, net', p, q, b);
    SendChans(sys, net.nodes[p], net.nodes[b], p, q, b, Chan(net, p, b), Chan(net, b, p));
  }

  lemma SendAllChans<S, P>(sys: System<S, P>, net: Net<S, P>, p: nat, q: nat)
    requires sys.n == |sys.init| && Inv(sys, net) && Enabled(sys, net, Send(p, q))
    ensures ChansOk(sys, SendStep(sys, net, p, q))
  {
    var net' := SendStep(sys, net, p, q);
    assert NodeOk(sys, net.nodes[p], p);
    forall b | 0 <= b < sys.n && b != p
      ensures ChanOk(sys, net'.nodes[p], net.nodes[b], p, b, Chan(net', p, b))
      ensures ChanOk(sys, net.nodes[b], net'.nodes[p], b, p, Chan(net', b, p))
    {
      SendWith(sys, net, net', p, q, b);
    }
    ChansFrame(sys, net, net', p);
  }

  /** The next message from a peer is the peer's message of one's own round: its kind is right. */
  lemma HeadOf<S, P>(sys: System<S, P>, net: Net<S, P>, p: nat, q: nat)
    requires sys.n == |sys.init| && Inv(sys, net) && Enabled(sys, net, Recv(p, q))
    ensures Chan(net, q, p)[0] == OutMsg(sys, net.nodes[p].round, q)
  {
    assert ChanOk(sys, net.nodes[q], net.nodes[p], q, p, Chan(net, q, p));
    QueuePop(sys, q, Got(net.nodes[p], q), Sent(net.nodes[q], p), Chan(net, q, p));
  }

  lemma RecvCounts<S, P>(me: Node<S, P>, q: nat, m: Msg<P>, b: nat)
    requires me.phase.Receiving? && q !in me.phase.order
    ensures Got(AfterRecv(me, q, m), b) == if b == q then me.round + 1 else Got(me, b)
    ensures Sent(AfterRecv(me, q, m), b) == Sent(me, b) && Got(me, q) == me.round
  {
  }

  lemma RecvChans<S, P>(sys: System<S, P>, me: Node<S, P>, other: Node<S, P>, p: nat, q: nat, b: nat,
                        m: Msg<P>, c: seq<Msg<P>>, back: seq<Msg<P>>)
    requires p < |sys.init| && b < |sys.init| && me.phase.Receiving? && q !in me.phase.order && (b == q ==> |back| > 0)
    requires ChanOk(sys, me, other, p, b, c) && ChanOk(sys, other, me, b, p, back)
    ensures ChanOk(sys, AfterRecv(me, q, m), other, p, b, c)
    ensures ChanOk(sys, other, AfterRecv(me, q, m), b, p, if b == q then back[1..] else back)
  {
    RecvCounts(me, q, m, b);
    if b == q { QueuePop(sys, b, me.round, Sent(other, p), back); }
  }

  lemma RecvNode<S, P>(sys: System<S, P>, me: Node<S, P>, p: nat, q: nat)
    requires p < sys.n == |sys.init| && NodeOk(sys, me, p)
    requires me.phase.Receiving? && q < sys.n && q != p && q !in me.phase.order
    ensures NodeOk(sys, AfterRecv(me, q, OutMsg(sys, me.round, q)), p)
  {
    assert Received(sys, me.round, me.phase.order + [q])
         == Received(sys, me.round, me.phase.order) + [OutOf(sys, me.round, q)];
  }

  /** A peer's message is never mistaken for one's own while numbers fit a byte. */
  lemma RecvAccepts<S, P>(sys: System<S, P>, net: Net<S, P>, p: nat, q: nat)
    requires sys.n == |sys.init| <= 256 && Inv(sys, net) && Enabled(sys, net, Recv(p, q))
    ensures RecvStep(sys, net, p, q)
         == Net(net.nodes[p := AfterRecv(net.nodes[p], q, OutMsg(sys, net.nodes[p].round, q))],
                net.chan[(q, p) := Chan(net, q, p)[1..]])
  {
    HeadOf(sys, net, p, q);
    OwnIds(p, q);
  }

  lemma OwnIds(p: nat, q: nat)
    requires p < 256 && q < 256 && p != q
    ensures Id(p) != Id(q)
  {
  }

  lemma RecvAllChans<S, P>(sys: System<S, P>, net: Net<S, P>, p: nat, q: nat, m: Msg<P>)
    requires sys.n == |sys.init| && Inv(sys, net) && Enabled(sys, net, Recv(p, q))
    ensures ChansOk(sys, Net(net.nodes[p := AfterRecv(net.nodes[p], q, m)], net.chan[(q, p) := Chan(net, q, p)[1..]]))
  {
    var net' := Net(net.nodes[p := AfterRecv(net.nodes[p], q, m)], net.chan[(q, p) := Chan(net, q, p)[1..]]);
    forall b | 0 <= b < sys.n && b != p
      ensures ChanOk(sys, net'.nodes[p], net.nodes[b], p, b, Chan(net', p, b))
      ensures ChanOk(sys, net.nodes[b], net'.nodes[p], b, p, Chan(net', b, p))
    {
      RecvChans(sys, net.nodes[p], net.nodes[b], p, q, b, m, Chan(net, p, b), Chan(net, b, p));
    }
    ChansFrame(sys, net, net', p);
  }

  lemma RecvKeeps<S, P>(sys: System<S, P>, net: Net<S, P>, p: nat, q: nat)
    requires sys.n == |sys.init| <= 256 && Inv(sys, net) && Enabled(sys, net, Recv(p, q))
    ensures Inv(sys, RecvStep(sys, net, p, q))
  {
    RecvAccepts(sys, net, p, q);
    RecvNode(sys, net.nodes[p], p, q);
    NodesFrame(sys, net, RecvStep(sys, net, p, q), p);
    RecvAllChans(sys, net, p, q, OutMsg(sys, net.nodes[p].round, q));
  }

  /** Someone heard from n - 1 different peers has heard from all of them. */
  lemma HeardAll(n: nat, p: nat, order: seq<nat>)
    requires p < n && NoDup(order) && |order| == n - 1 && forall q :: q in order ==> q < n && q != p
    ensures multiset(order) == multiset(Peers(n, p))
    ensures forall q :: 0 <= q < n && q != p ==> q in order
  {
    PeersAndSelf(n, p);
    NoDupCard(order);
    NoDupCard(Peers(n, p));
    SameCard(Elems(order), Elems(Peers(n, p)));
    assert forall q :: q in order <==> q in Elems(order);
    assert forall q :: q in Peers(n, p) <==> q in Elems(Peers(n, p));
    SamePeople(order, Peers(n, p));
  }

  function Elems(s: seq<nat>): set<nat> { set q | q in s }

  lemma {:induction false} NoDupCard(s: seq<nat>)
    requires NoDup(s)
    ensures |Elems(s)| == |s|
  {
    if |s| > 0 {
      var n := |s| - 1;
      NoDupCard(s[..n]);
      assert s == s[..n] + [s[n]];
      assert Elems(s) == Elems(s[..n]) + {s[n]};
      assert s[n] !in s[..n];
    }
  }

  lemma SameCard(a: set<nat>, b: set<nat>)
    requires a <= b && |a| == |b|
    ensures a == b
  {
    forall x | x in b ensures x in a {
      if x !in a {
        SubsetCard(a, b - {x});
        assert false;
      }
    }
  }

  lemma {:induction false} SubsetCard(a: set<nat>, b: set<nat>)
    requires a <= b
    ensures |a| <= |b|
  {
    if a != {} {
      var x :| x in a;
      SubsetCard(a - {x}, b - {x});
    }
  }

  /** The storage of a finished round is the lockstep inbox up to order. */
  lemma {:induction false} InboxPerm<S, P>(sys: System<S, P>, r: nat, p: nat, order: seq<nat>)
    requires p < sys.n == |sys.init| && multiset(order) == multiset(Peers(sys.n, p))
    requires forall q :: q in order ==> q < sys.n
    ensures multiset(Received(sys, r, order)) == multiset(FromPeers(Outs(sys, Lock(sys, r)), p))
  {
    var f := (q: nat) => if q < sys.n then OutOf(sys, r, q) else OutOf(sys, r, p);
    var peers := Peers(sys.n, p);
    MapPerm(f, order, peers);
    assert forall i :: 0 <= i < |order| ==> order[i] in order;
    assert forall i :: 0 <= i < |peers| ==> peers[i] in peers;
    assert Map(f, order) == Received(sys, r, order);
    assert Map(f, peers) == FromPeers(Outs(sys, Lock(sys, r)), p);
  }

  /** Whatever the order of arrival, the party continues as in lockstep. */
  lemma AbsorbAsLockstep<S(!new), P(!new)>(sys: System<S, P>, r: nat, p: nat, order: seq<nat>)
    requires SystemOk(sys) && p < sys.n && PhaseOk(sys.n, p, r + 1, r, Receiving(order)) && |order| == sys.n - 1
    ensures sys.prog.absorb(Lock(sys, r)[p], Received(sys, r, order)) == Lock(sys, r + 1)[p]
  {
    HeardAll(sys.n, p, order);
    InboxPerm(sys, r, p, order);
  }

  lemma FinishNode<S(!new), P(!new)>(sys: System<S, P>, me: Node<S, P>, p: nat)
    requires SystemOk(sys) && p < sys.n && NodeOk(sys, me, p)
    requires me.phase.Receiving? && |me.phase.order| == sys.n - 1
    ensures |me.store.Get(sys.sched[me.round])| == sys.n - 1
    ensures NodeOk(sys, AfterFinish(sys, me, p), p)
  {
    AbsorbAsLockstep(sys, me.round, p, me.phase.order);
    assert (if p == 0 then 1 else 0) in PeerSet(sys.n, p);
  }

  lemma FinishChans<S, P>(sys: System<S, P>, me: Node<S, P>, other: Node<S, P>, p: nat, b: nat,
                          c: seq<Msg<P>>, back: seq<Msg<P>>)
    requires p < sys.n == |sys.init| && b < sys.n && b != p && me.phase.Receiving? && me.round < |sys.sched|
    requires b in me.phase.order
    requires ChanOk(sys, me, other, p, b, c) && ChanOk(sys, other, me, b, p, back)
    ensures ChanOk(sys, AfterFinish(sys, me, p), other, p, b, c)
    ensures ChanOk(sys, other, AfterFinish(sys, me, p), b, p, back)
  {
    assert b in PeerSet(sys.n, p);
  }

  lemma FinishKeeps<S(!new), P(!new)>(sys: System<S, P>, net: Net<S, P>, p: nat)
    requires SystemOk(sys) && Inv(sys, net) && Enabled(sys, net, Finish(p))
    ensures Inv(sys, FinishStep(sys, net, p))
  {
    FinishNode(sys, net.nodes[p], p);
    HeardAll(sys.n, p, net.nodes[p].phase.order);
    var net' := FinishStep(sys, net, p);
    NodesFrame(sys, net, net', p);
    forall b | 0 <= b < sys.n && b != p
      ensures ChanOk(sys, net'.nodes[p], net.nodes[b], p, b, Chan(net', p, b))
      ensures ChanOk(sys, net.nodes[b], net'.nodes[p], b, p, Chan(net', b, p))
    {
      FinishChans(sys, net.nodes[p], net.nodes[b], p, b, Chan(net, p, b), Chan(net, b, p));
    }
    ChansFrame(sys, net, net', p);
  }

  lemma StepKeeps<S(!new), P(!new)>(sys: System<S, P>, net: Net<S, P>, a: Action)
    requires SystemOk(sys) && sys.n <= 256 && Inv(sys, net) && Enabled(sys, net, a)
    ensures Inv(sys, Step(sys, net, a))
  {
    match a
    case Send(p, q) => SendKeeps(sys, net, p, q);
    case Recv(p, q) => RecvKeeps(sys, net, p, q);
    case Finish(p) => FinishKeeps(sys, net, p);
  }

  /* ---------- what the invariant gives ---------- */

  /** No queue ever holds more than two messages, so no send ever waits for room. */
  lemma QueuesShort<S, P>(sys: System<S, P>, net: Net<S, P>, p: nat, q: nat)
    requires sys.n == |sys.init| && Inv(sys, net) && p < sys.n && q < sys.n && p != q
    ensures |Chan(net, p, q)| <= 2
    ensures net.nodes[p].round <= net.nodes[q].round + 1
  {
    assert ChanOk(sys, net.nodes[p], net.nodes[q], p, q, Chan(net, p, q));
    assert ChanOk(sys, net.nodes[q], net.nodes[p], q, p, Chan(net, q, p));
  }

  predicate AllFinished<S, P>(sys: System<S, P>, net: Net<S, P>)
    requires net.Net?
  {
    forall p :: 0 <= p < |net.nodes| ==> net.nodes[p].round == |sys.sched|
  }

  lemma {:induction false} Slowest<S, P>(net: Net<S, P>, k: nat) returns (p: nat)
    requires net.Net? && 0 < k <= |net.nodes|
    ensures p < k && forall q :: 0 <= q < k ==> net.nodes[p].round <= net.nodes[q].round
  {
    if k == 1 {
      p := 0;
    } else {
      p := Slowest(net, k - 1);
      if net.nodes[k - 1].round < net.nodes[p].round { p := k - 1; }
    }
  }

  lemma SenderCanSend<S, P>(sys: System<S, P>, net: Net<S, P>, p: nat) returns (a: Action)
    requires sys.n == |sys.init| && Inv(sys, net) && p < sys.n
    requires net.nodes[p].round < |sys.sched| && net.nodes[p].phase.Sending?
    ensures Enabled(sys, net, a)
  {
    assert NodeOk(sys, net.nodes[p], p);
    var q :| q in net.nodes[p].phase.todo;
    QueuesShort(sys, net, p, q);
    a := Send(p, q);
  }

  /** A slowest party that only waits for messages finds one, or has them all. */
  lemma ReceiverCanMove<S, P>(sys: System<S, P>, net: Net<S, P>, p: nat) returns (a: Action)
    requires sys.n == |sys.init| && Inv(sys, net) && p < sys.n
    requires net.nodes[p].round < |sys.sched| && net.nodes[p].phase.Receiving?
    requires forall q :: 0 <= q < sys.n ==>
      && net.nodes[p].round <= net.nodes[q].round
      && (net.nodes[q].round == net.nodes[p].round ==> net.nodes[q].phase.Receiving?)
    ensures Enabled(sys, net, a)
  {
    var me := net.nodes[p];
    assert NodeOk(sys, me, p);
    if |me.phase.order| == sys.n - 1 {
      a := Finish(p);
    } else {
      var q := Unheard(sys.n, p, me.phase.order);
      assert ChanOk(sys, net.nodes[q], me, q, p, Chan(net, q, p));
      a := Recv(p, q);
    }
  }

  lemma Unheard(n: nat, p: nat, order: seq<nat>) returns (q: nat)
    requires p < n && NoDup(order) && |order| != n - 1 && forall q :: q in order ==> q < n && q != p
    ensures q < n && q != p && q !in order
  {
    NoDupCard(order);
    PeersAndSelf(n, p);
    NoDupCard(Peers(n, p));
    assert Elems(order) <= Elems(Peers(n, p));
    assert Elems(order) != Elems(Peers(n, p));
    q :| q in Elems(Peers(n, p)) && q !in Elems(order);
    assert q in Peers(n, p);
  }

  /** Progress: while someone has rounds left, some step can be taken. */
  lemma Progress<S, P>(sys: System<S, P>, net: Net<S, P>) returns (a: Action)
    requires 2 <= sys.n == |sys.init| && Inv(sys, net) && !AllFinished(sys, net)
    ensures Enabled(sys, net, a)
  {
    var p := Slowest(net, sys.n);
    assert NodeOk(sys, net.nodes[p], p);
    var late :| 0 <= late < |net.nodes| && net.nodes[late].round != |sys.sched|;
    assert NodeOk(sys, net.nodes[late], late);
    if s :| 0 <= s < sys.n && net.nodes[s].round == net.nodes[p].round && net.nodes[s].phase.Sending? {
      a := SenderCanSend(sys, net, s);
    } else {
      a := ReceiverCanMove(sys, net, p);
    }
  }

  /* ---------- every step is work done ---------- */

  /** A party's steps in one round: n - 1 sends, n - 1 receives and one finish. */
  function RoundWork(n: nat): nat { if n == 0 then 0 else 2 * n - 1 }

  function WorkLeft<S, P>(sys: System<S, P>, me: Node<S, P>): int {
    Times(if me.round <= |sys.sched| then |sys.sched| - me.round else 0, RoundWork(sys.n))
    - match me.phase
      case Sending(todo) => sys.n - 1 - |todo|
      case Receiving(order) => sys.n - 1 + |order|
  }

  function Works<S, P>(sys: System<S, P>, net: Net<S, P>): (r: seq<int>)
    requires net.Net?
    ensures |r| == |net.nodes| && forall p :: 0 <= p < |r| ==> r[p] == WorkLeft(sys, net.nodes[p])
  {
    seq(|net.nodes|, p requires 0 <= p < |net.nodes| => WorkLeft(sys, net.nodes[p]))
  }

  /** The number of steps of every complete run. */
  function TotalWork<S, P>(sys: System<S, P>): nat {
    Times(sys.n, Times(|sys.sched|, RoundWork(sys.n)))
  }

  lemma PeerCount(n: nat, p: nat)
    requires p < n
    ensures |PeerSet(n, p)| == n - 1
  {
    PeersAndSelf(n, p);
    NoDupCard(Peers(n, p));
    assert PeerSet(n, p) == Elems(Peers(n, p));
  }

  lemma NodeStepWork<S, P>(sys: System<S, P>, me: Node<S, P>, p: nat, q: nat, m: Msg<P>)
    requires p < sys.n && me.round < |sys.sched|
    ensures me.phase.Sending? && q in me.phase.todo ==> WorkLeft(sys, AfterSend(me, q)) == WorkLeft(sys, me) - 1
    ensures me.phase.Receiving? ==> WorkLeft(sys, AfterRecv(me, q, m)) == WorkLeft(sys, me) - 1
    ensures me.phase.Receiving? && |me.phase.order| == sys.n - 1 ==>
              WorkLeft(sys, AfterFinish(sys, me, p)) == WorkLeft(sys, me) - 1
  {
    PeerCount(sys.n, p);
  }

  lemma WorkStep<S, P>(sys: System<S, P>, net: Net<S, P>, a: Action)
    requires Enabled(sys, net, a) && Step(sys, net, a).Net?
    ensures |Step(sys, net, a).nodes| == sys.n
    ensures WorkLeft(sys, Step(sys, net, a).nodes[a.p]) == WorkLeft(sys, net.nodes[a.p]) - 1
  {
    match a
    case Send(p, q) => NodeStepWork(sys, net.nodes[p], p, q, Msg(AggCommit, 0, sys.prog.emit(net.nodes[p].local)));
    case Recv(p, q) => NodeStepWork(sys, net.nodes[p], p, q, Chan(net, q, p)[0]);
    case Finish(p) => NodeStepWork(sys, net.nodes[p], p, 0, Msg(AggCommit, 0, sys.prog.emit(net.nodes[p].local)));
  }

  lemma StepNodes<S, P>(sys: System<S, P>, net: Net<S, P>, a: Action, net': Net<S, P>)
    requires Enabled(sys, net, a) && net' == Step(sys, net, a) && net'.Net?
    ensures |net'.nodes| == |net.nodes| && net'.nodes == net.nodes[a.p := net'.nodes[a.p]]
  {
  }

  lemma WorksUpdate<S, P>(sys: System<S, P>, net: Net<S, P>, p: nat, net': Net<S, P>)
    requires net.Net? && net'.Net? && p < |net.nodes| == |net'.nodes| && net'.nodes == net.nodes[p := net'.nodes[p]]
    ensures Works(sys, net') == Works(sys, net)[p := WorkLeft(sys, net'.nodes[p])]
  {
  }

  /** Every step takes exactly one off the total. */
  lemma StepWorks<S, P>(sys: System<S, P>, net: Net<S, P>, a: Action)
    requires sys.n == |sys.init| && Inv(sys, net) && Enabled(sys, net, a) && Step(sys, net, a).Net?
    ensures Sum(Works(sys, Step(sys, net, a))) == Sum(Works(sys, net)) - 1
  {
    var net' := Step(sys, net, a);
    WorkStep(sys, net, a);
    StepNodes(sys, net, a, net');
    WorksUpdate(sys, net, a.p, net');
    SumUpdate(Works(sys, net), a.p, WorkLeft(sys, net'.nodes[a.p]));
  }

  lemma {:induction false} SumConst(s: seq<int>, x: nat)
    requires forall i :: 0 <= i < |s| ==> s[i] == x
    ensures Sum(s) == Times(|s|, x)
  {
    if |s| > 0 { SumConst(s[..|s| - 1], x); }
  }

  lemma StartWork<S, P>(sys: System<S, P>)
    requires 2 <= sys.n == |sys.init|
    ensures Sum(Works(sys, Start(sys))) == TotalWork(sys)
  {
    forall p | 0 <= p < sys.n ensures WorkLeft(sys, Start(sys).nodes[p]) == Times(|sys.sched|, RoundWork(sys.n)) {
      PeerCount(sys.n, p);
    }
    SumConst(Works(sys, Start(sys)), Times(|sys.sched|, RoundWork(sys.n)));
  }

  lemma NodeWork<S, P>(sys: System<S, P>, me: Node<S, P>, p: nat)
    requires p < sys.n == |sys.init| && NodeOk(sys, me, p)
    ensures WorkLeft(sys, me) >= 0
    ensures WorkLeft(sys, me) == 0 <==> me.round == |sys.sched|
  {
    PeerCount(sys.n, p);
    if me.phase.Receiving? {
      NoDupCard(me.phase.order);
      SubsetCard(Elems(me.phase.order), PeerSet(sys.n, p));
    } else {
      SubsetCard(me.phase.todo, PeerSet(sys.n, p));
    }
    if me.round < |sys.sched| { TimesBound(0, |sys.sched| - me.round, RoundWork(sys.n)); }
  }

  lemma WorkDone<S, P>(sys: System<S, P>, net: Net<S, P>)
    requires sys.n == |sys.init| && Inv(sys, net)
    ensures Sum(Works(sys, net)) >= 0
    ensures Sum(Works(sys, net)) == 0 <==> AllFinished(sys, net)
  {
    forall p | 0 <= p < sys.n
      ensures WorkLeft(sys, net.nodes[p]) >= 0
      ensures (WorkLeft(sys, net.nodes[p]) == 0 <==> net.nodes[p].round == |sys.sched|)
    {
      NodeWork(sys, net.nodes[p], p);
    }
    SumNonNeg(Works(sys, net));
  }

  lemma {:induction false} RunWorks<S(!new), P(!new)>(sys: System<S, P>, net: Net<S, P>, acts: seq<Action>,
                                                      net': Net<S, P>)
    requires SystemOk(sys) && sys.n <= 256 && Inv(sys, net) && Run(sys, net, acts, net')
    ensures Inv(sys, net')
    ensures Sum(Works(sys, net')) == Sum(Works(sys, net)) - |acts|
    decreases |acts|
  {
    if |acts| > 0 {
      StepKeeps(sys, net, acts[0]);
      StepWorks(sys, net, acts[0]);
      RunWorks(sys, Step(sys, net, acts[0]), acts[1..], net');
    }
  }

  /** Round safety, progress and determinism over all interleavings: no assertion ever fails, no run
      is longer than the total work, a run that has not done all the work can go on, and one that
      has leaves every party where the lockstep execution leaves it, with empty queues. */
  lemma {:induction false} EveryRun<S(!new), P(!new)>(sys: System<S, P>, acts: seq<Action>, net: Net<S, P>)
    requires SystemOk(sys) && sys.n <= 256 && Run(sys, Start(sys), acts, net)
    ensures Inv(sys, net)
    ensures |acts| <= TotalWork(sys)
    ensures |acts| == TotalWork(sys) <==> AllFinished(sys, net)
    ensures !AllFinished(sys, net) ==> exists a :: Enabled(sys, net, a)
    ensures AllFinished(sys, net) ==> forall p :: 0 <= p < sys.n ==> net.nodes[p].local == Lock(sys, |sys.sched|)[p]
    ensures AllFinished(sys, net) ==>
              forall p, q :: 0 <= p < sys.n && 0 <= q < sys.n && p != q ==> Chan(net, p, q) == []
  {
    StartOk(sys);
    RunWorks(sys, Start(sys), acts, net);
    StartWork(sys);
    WorkDone(sys, net);
    if !AllFinished(sys, net) {
      var a := Progress(sys, net);
    } else {
      Settled(sys, net);
    }
  }

  lemma {:induction false} Settled<S, P>(sys: System<S, P>, net: Net<S, P>)
    requires sys.n == |sys.init| && Inv(sys, net) && AllFinished(sys, net)
    ensures forall p :: 0 <= p < sys.n ==> net.nodes[p].local == Lock(sys, |sys.sched|)[p]
    ensures forall p, q :: 0 <= p < sys.n && 0 <= q < sys.n && p != q ==> Chan(net, p, q) == []
  {
    forall p | 0 <= p < sys.n ensures net.nodes[p].local == Lock(sys, |sys.sched|)[p] {
      assert NodeOk(sys, net.nodes[p], p);
    }
    forall p, q | 0 <= p < sys.n && 0 <= q < sys.n && p != q ensures Chan(net, p, q) == [] {
      assert NodeOk(sys, net.nodes[q], q);
      assert ChanOk(sys, net.nodes[p], net.nodes[q], p, q, Chan(net, p, q));
    }
  }

  /* ---------- numbers that do not fit a byte ---------- */

  lemma {:induction false} RunConcat<S, P>(sys: System<S, P>, a: Net<S, P>, xs: seq<Action>, b: Net<S, P>,
                                           ys: seq<Action>, c: Net<S, P>)
    requires Run(sys, a, xs, b) && Run(sys, b, ys, c)
    ensures Run(sys, a, xs + ys, c)
    decreases |xs|
  {
    if |xs| == 0 {
      assert xs + ys == ys;
    } else {
      RunConcat(sys, Step(sys, a, xs[0]), xs[1..], b, ys, c);
      assert (xs + ys)[1..] == xs[1..] + ys;
    }
  }

  lemma {:induction false} RunOne<S, P>(sys: System<S, P>, net: Net<S, P>, a: Action)
    requires Enabled(sys, net, a)
    ensures Run(sys, net, [a], Step(sys, net, a))
  {
    assert [a][1..] == [];
  }

  /** A party can always complete its broadcast while its queues have room. */
  lemma {:induction false} Broadcast<S, P>(sys: System<S, P>, net: Net<S, P>, p: nat)
      returns (acts: seq<Action>, net': Net<S, P>)
    requires net.Net? && p < |net.nodes| == sys.n && net.nodes[p].round < |sys.sched|
    requires net.nodes[p].phase.Sending? && net.nodes[p].phase.todo != {}
    requires forall q :: q in net.nodes[p].phase.todo ==> |Chan(net, p, q)| < CAPACITY
    ensures Run(sys, net, acts, net') && net'.Net? && |net'.nodes| == sys.n
    ensures net'.nodes[p].phase == Receiving([]) && net'.nodes[p].round == net.nodes[p].round
    ensures forall a, b :: a != p ==> Chan(net', a, b) == Chan(net, a, b)
    decreases |net.nodes[p].phase.todo|
  {
    var q :| q in net.nodes[p].phase.todo;
    var mid := SendStep(sys, net, p, q);
    RunOne(sys, net, Send(p, q));
    if net.nodes[p].phase.todo == {q} {
      acts, net' := [Send(p, q)], mid;
    } else {
      var rest;
      rest, net' := Broadcast(sys, mid, p);
      RunConcat(sys, net, [Send(p, q)], mid, rest, net');
      acts := [Send(p, q)] + rest;
    }
  }

  /** With more than 256 parties, party 0 takes party 256 for itself. */
  lemma ManyPartiesPanic<S, P>(sys: System<S, P>) returns (acts: seq<Action>)
    requires sys.n == |sys.init| > 256 && |sys.sched| > 0
    ensures Run(sys, Start(sys), acts, Panic)
  {
    var s0 := Start(sys);
    assert 0 in PeerSet(sys.n, 256) && 1 in PeerSet(sys.n, 0);
    var s1 := SendStep(sys, s0, 256, 0);
    RunOne(sys, s0, Send(256, 0));
    var xs, s2 := Broadcast(sys, s1, 0);
    RunConcat(sys, s0, [Send(256, 0)], s1, xs, s2);
    assert Chan(s2, 256, 0) == Chan(s1, 256, 0);
    RunOne(sys, s2, Recv(0, 256));
    RunConcat(sys, s0, [Send(256, 0)] + xs, s2, [Recv(0, 256)], Panic);
    acts := [Send(256, 0)] + xs + [Recv(0, 256)];
  }

  /** The interleaving `acts` ends in a failed assertion. */
  predicate Panics<S(==), P(==)>(sys: System<S, P>, acts: seq<Action>)
    requires |sys.init| == sys.n
  {
    Run(sys, Start(sys), acts, Panic)
  }

  /** No run panics exactly when the parties' numbers fit the one byte they are sent in. */
  lemma NoPanicIff<S(!new), P(!new)>(sys: System<S, P>)
    requires SystemOk(sys) && |sys.sched| > 0
    ensures (forall acts :: !Panics(sys, acts)) <==> sys.n <= 256
  {
    if sys.n <= 256 {
      forall acts: seq<Action> ensures !Panics(sys, acts) {
        if Panics(sys, acts) {
          EveryRun(sys, acts, Panic);
          assert false;
        }
      }
    } else {
      var acts := ManyPartiesPanic(sys);
      assert Panics(sys, acts);
    }
  }
}
