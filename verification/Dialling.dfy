/** `connect` as one sequence of blocking calls, for any behaviour of the network and the broker. */
module Dialling {
  import opened Basics
  import opened BrokerModel
  import opened NodeModel
  import opened System

  /** What one blocking call meets: `sendto` fails, the receive fails, or a packet arrives. */
  datatype Reaction = SendFails | ReceiveFails | Got(down: Down)

  /** A blocking call: the node afterwards, the packet it tried to send, and whether `connect` goes on. */
  datatype Exchange<P, S> = Exchange(node: Node<P, S>, packet: Packet, ok: bool)

  function Call<P, S>(d: Node<P, S>, pc: Pc, r: Reaction): Exchange<P, S> {
    var e := d.(counter := Wrap(d.counter + 1));
    var packet := ControlPacket(e.counter, d.counter, RequestAt(d, pc));
    var learned := if r.Got? && r.down.Reply? then Learn(e, pc, r.down.response) else None;
    if learned.Some? then Exchange(learned.value, packet, true) else Exchange(e, packet, false)
  }

  /** Number of calls that a successful `connect` still has to make at `pc`. */
  function CallsLeft<P, S>(d: Node<P, S>, pc: Pc): nat {
    match pc
    case AtNode => 1 + 3 * (|d.pubs| + |d.subs|)
    case AtPub(i, stage) => if i < |d.pubs| then 3 * (|d.pubs| - i + |d.subs|) - Done(stage) else 0
    case AtSub(j, stage) => if j < |d.subs| then 3 * (|d.subs| - j) - Done(stage) else 0
    case AtEnd => 0
  }

  function Done(stage: Stage): nat {
    match stage
    case AskType => 0
    case AskTopic => 1
    case AskAdd => 2
  }

  /** A successful call is one call less to make. */
  lemma CallCounts<P, S>(d: Node<P, S>, pc: Pc, r: Reaction)
    requires Call(d, pc, r).ok
    ensures |Call(d, pc, r).node.pubs| == |d.pubs| && |Call(d, pc, r).node.subs| == |d.subs|
    ensures CallsLeft(Call(d, pc, r).node, NextPc(d, pc)) + 1 == CallsLeft(d, pc)
  {
  }

  datatype Connection<P, S> = Connection(node: Node<P, S>, sent: seq<Packet>, ok: bool)

  /** The rest of `connect` from `pc`, whose next call is number `k`. */
  function Connect<P, S>(d: Node<P, S>, pc: Pc, world: nat -> Reaction, k: nat): Connection<P, S>
    decreases CallsLeft(d, pc)
  {
    if pc.AtEnd? then Connection(d, [], true)
    else
      var x := Call(d, pc, world(k));
      if !x.ok then Connection(x.node, [x.packet], false)
      else
        CallCounts(d, pc, world(k));
        var rest := Connect(x.node, NextPc(d, pc), world, k + 1);
        Connection(rest.node, [x.packet] + rest.sent, rest.ok)
  }

  /** A successful `connect` makes three calls per publisher and subscriber, and one for the node itself. */
  lemma {:induction false} SuccessMakesAllCalls<P, S>(d: Node<P, S>, pc: Pc, world: nat -> Reaction, k: nat)
    ensures Connect(d, pc, world, k).ok ==> |Connect(d, pc, world, k).sent| == CallsLeft(d, pc)
    decreases CallsLeft(d, pc)
  {
    if !pc.AtEnd? && Call(d, pc, world(k)).ok {
      CallCounts(d, pc, world(k));
      SuccessMakesAllCalls(Call(d, pc, world(k)).node, NextPc(d, pc), world, k + 1);
    }
  }

  /** A request carries the sender's next counter, and the RPC ID one less. */
  ghost predicate Numbered(p: Packet, c: nat) {
    p.ControlPacket? && p.counter == Wrap(c + 1) && p.rpcId == Wrap(c)
  }

  ghost predicate AllNumbered(sent: seq<Packet>, c: nat) {
    forall i | 0 <= i < |sent| :: Numbered(sent[i], c + i)
  }

  /** The requests carry consecutive counters from `c` on, and the node's own counter has gone along. */
  ghost predicate Counted<P, S>(x: Connection<P, S>, c: nat) {
    AllNumbered(x.sent, c) && x.node.counter == Wrap(c + |x.sent|)
  }

  /** Whatever happens, the requests of a `connect` carry consecutive counters, and each its RPC ID. */
  lemma {:induction false} RequestsAreNumbered<P, S>(d: Node<P, S>, pc: Pc, world: nat -> Reaction, k: nat)
    ensures Counted(Connect(d, pc, world, k), d.counter)
    decreases CallsLeft(d, pc)
  {
    if !pc.AtEnd? {
      var x := Call(d, pc, world(k));
      CallIsNumbered(d, pc, world(k));
      if x.ok {
        CallCounts(d, pc, world(k));
        RequestsAreNumbered(x.node, NextPc(d, pc), world, k + 1);
        CountedOneMore(x, Connect(x.node, NextPc(d, pc), world, k + 1), d.counter);
      } else {
        CountedOneMore(x, Connection(x.node, [], false), d.counter);
      }
    }
  }

  lemma CountedOneMore<P, S>(x: Exchange<P, S>, rest: Connection<P, S>, c: nat)
    requires Numbered(x.packet, c) && x.node.counter == Wrap(c + 1) && Counted(rest, x.node.counter)
    ensures Counted(Connection(rest.node, [x.packet] + rest.sent, rest.ok), c)
  {
    WrapAdd(c + 1, |rest.sent|);
    forall i | 0 <= i < |rest.sent| ensures Numbered(rest.sent[i], c + 1 + i) {
      assert Numbered(rest.sent[i], x.node.counter + i);
      NumberedShift(rest.sent[i], c + 1, i);
    }
  }

  lemma NumberedShift(p: Packet, c: nat, i: nat)
    requires Numbered(p, Wrap(c) + i)
    ensures Numbered(p, c + i)
  {
    WrapAdd(c, i);
    WrapAdd(c, i + 1);
  }

  lemma CallIsNumbered<P, S>(d: Node<P, S>, pc: Pc, r: Reaction)
    ensures Call(d, pc, r).node.counter == Wrap(d.counter + 1) && Numbered(Call(d, pc, r).packet, d.counter)
  {
  }

  /** The steps of the system that make up one blocking call of a node. */
  function HostAfterCall(h: Host, r: Reaction): Host {
    match r
    case SendFails => DoCall(h, false)
    case ReceiveFails => DoCall(h, true).(status := Failed)
    case Got(down) => DoAnswer(DoCall(h, true), down)
  }

  /** A blocking call is a request step followed by a response step or a failed receive. */
  lemma CallIsSteps(h: Host, r: Reaction)
    requires h.pc != AtEnd
    ensures var x := Call(h.core, h.pc, r);
            var g := HostAfterCall(h, r);
            && g.core == x.node
            && g.sent == h.sent + [Attempt(!r.SendFails?, x.packet, Rpc)]
            && (x.ok <==> !g.status.Failed?)
            && (x.ok ==> g.pc == NextPc(h.core, h.pc) && g.status == if g.pc.AtEnd? then Connected else Connecting)
            && g.handed == h.handed && g.published == h.published
  {
  }

  // ---- following the calls one by one --------------------------------------

  /** What was sent so far followed by the calls from `pc` on gives the whole `connect`. */
  ghost predicate OnCall<P, S>(whole: Connection<P, S>, done: seq<Packet>, d: Node<P, S>, pc: Pc,
                               world: nat -> Reaction) {
    var rest := Connect(d, pc, world, |done|);
    whole == Connection(rest.node, done + rest.sent, rest.ok)
  }

  lemma CallAdvances<P, S>(whole: Connection<P, S>, done: seq<Packet>, d: Node<P, S>, pc: Pc, world: nat -> Reaction)
    requires OnCall(whole, done, d, pc, world) && pc != AtEnd
    ensures var x := Call(d, pc, world(|done|));
            && (x.ok ==> OnCall(whole, done + [x.packet], x.node, NextPc(d, pc), world))
            && (!x.ok ==> whole == Connection(x.node, done + [x.packet], false))
  {
    var x := Call(d, pc, world(|done|));
    if x.ok {
      var rest := Connect(x.node, NextPc(d, pc), world, |done| + 1);
      assert done + ([x.packet] + rest.sent) == (done + [x.packet]) + rest.sent;
    }
  }

  lemma CallStarts<P, S>(d: Node<P, S>, pc: Pc, world: nat -> Reaction)
    ensures OnCall(Connect(d, pc, world, 0), [], d, pc, world)
  {
  }

  lemma CallEnds<P, S>(whole: Connection<P, S>, done: seq<Packet>, d: Node<P, S>, world: nat -> Reaction)
    requires OnCall(whole, done, d, AtEnd, world)
    ensures whole == Connection(d, done, true)
  {
  }
}
