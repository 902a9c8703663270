/**
 * One broker, any number of nodes and the datagram network between them.
 *
 * Packets to the broker may be lost, duplicated and reordered: whatever a node
 * has sent may arrive at any later time, any number of times or never. Packets
 * to a node may be lost and reordered but arrive at most once. A node's address
 * is its position.
 */
module System {
  import opened Basics
  import opened BrokerModel
  import opened NodeModel
  import Codec

  /** Which node's send attempt a delivered packet goes back to; history only, no step reads it. */
  datatype Origin = Origin(node: nat, attempt: nat)

  /** A message in a subscriber's queue. */
  datatype Msg = Msg(payload: Bytes, origin: Origin)

  /** Why a packet was sent: for an RPC, or for message number `index` of a publisher. History only. */
  datatype Source = Rpc | FromPub(pub: nat, index: nat)

  /** A send attempt; one whose `sendto` failed never reaches the network. */
  datatype Attempt = Attempt(ok: bool, packet: Packet, source: Source)

  // ---- where `connect` is --------------------------------------------------

  datatype Stage = AskType | AskTopic | AskAdd

  datatype Pc = AtNode | AtPub(i: nat, pubStage: Stage) | AtSub(j: nat, subStage: Stage) | AtEnd

  datatype Status = Connecting | Waiting | Connected | Failed

  function FirstSub<P, S>(d: Node<P, S>): Pc {
    if |d.subs| > 0 then AtSub(0, AskType) else AtEnd
  }

  function FirstPub<P, S>(d: Node<P, S>): Pc {
    if |d.pubs| > 0 then AtPub(0, AskType) else FirstSub(d)
  }

  function NextPc<P, S>(d: Node<P, S>, pc: Pc): Pc {
    match pc
    case AtNode => FirstPub(d)
    case AtPub(i, AskType) => AtPub(i, AskTopic)
    case AtPub(i, AskTopic) => AtPub(i, AskAdd)
    case AtPub(i, AskAdd) => if i + 1 < |d.pubs| then AtPub(i + 1, AskType) else FirstSub(d)
    case AtSub(j, AskType) => AtSub(j, AskTopic)
    case AtSub(j, AskTopic) => AtSub(j, AskAdd)
    case AtSub(j, AskAdd) => if j + 1 < |d.subs| then AtSub(j + 1, AskType) else AtEnd
    case AtEnd => AtEnd
  }

  /** The request that `connect` sends at `pc`. */
  function RequestAt<P, S>(d: Node<P, S>, pc: Pc): Request {
    match pc
    case AtNode => RegisterNode(d.name)
    case AtPub(i, stage) =>
      if i >= |d.pubs| then Unsupported
      else
        var p := d.pubs[i];
        (match stage
         case AskType => RegisterType(p.typeName, p.size)
         case AskTopic => RegisterTopic(p.topicName, p.typeId, p.priority)
         case AskAdd => AddPublisher(d.nodeId, p.topicId, p.typeId))
    case AtSub(j, stage) =>
      if j >= |d.subs| then Unsupported
      else
        var u := d.subs[j];
        (match stage
         case AskType => RegisterType(u.typeName, u.size)
         case AskTopic => RegisterTopic(u.topicName, u.typeId, u.priority)
         case AskAdd => AddSubscriber(d.nodeId, u.topicId, u.typeId))
    case AtEnd => Unsupported
  }

  /**
   * What the node records from a response at `pc`; `None` if the call failed or
   * the response is not of the expected kind. A publisher ignores the priority
   * the broker reports, a subscriber adopts it.
   */
  function Learn<P, S>(d: Node<P, S>, pc: Pc, a: Response): Option<Node<P, S>> {
    match pc
    case AtNode => if a.NodeRegistered? then Some(d.(nodeId := a.nodeId)) else None
    case AtPub(i, stage) =>
      if i >= |d.pubs| then None
      else
        (match stage
         case AskType => if a.TypeRegistered? then Some(d.(pubs := d.pubs[i := d.pubs[i].(typeId := a.typeId)]))
             else None
         case AskTopic => if a.TopicRegistered? then Some(d.(pubs := d.pubs[i := d.pubs[i].(topicId := a.topicId)]))
             else None
         case AskAdd => if a.Done? then Some(FilePub(d, i)) else None)
    case AtSub(j, stage) =>
      if j >= |d.subs| then None
      else
        (match stage
         case AskType => if a.TypeRegistered? then Some(d.(subs := d.subs[j := d.subs[j].(typeId := a.typeId)]))
             else None
         case AskTopic =>
           if a.TopicRegistered?
           then Some(d.(subs := d.subs[j := d.subs[j].(topicId := a.topicId, priority := a.priority)])) else None
         case AskAdd => if a.Done? then Some(FileSub(d, j)) else None)
    case AtEnd => None
  }

  // ---- state ---------------------------------------------------------------

  /**
   * A node with its history: the counter it started from, all send attempts,
   * per publisher the payloads `publish` accepted, and per subscriber the
   * messages given to the callback.
   */
  datatype Host = Host(start: uint32, core: Node<Bytes, Msg>, pc: Pc, status: Status,
                       sent: seq<Attempt>, published: seq<seq<Bytes>>, handed: seq<seq<Msg>>)

  datatype Flight = Flight(down: Down, origin: Origin)

  /** `inbox[n]` is on its way to node `n`; `accepted[n]` lists the attempts of node `n` that the broker accepted. */
  datatype Sys = Sys(broker: Broker, hosts: seq<Host>, inbox: seq<seq<Flight>>, accepted: seq<seq<nat>>)

  predicate HostShaped(h: Host) {
    |h.published| == |h.core.pubs| && |h.handed| == |h.core.subs|
  }

  predicate Shaped(s: Sys) {
    && |s.inbox| == |s.accepted| == |s.hosts|
    && forall n | 0 <= n < |s.hosts| :: HostShaped(s.hosts[n])
  }

  ghost predicate FreshHost(h: Host) {
    && HostShaped(h)
    && h.core.counter == h.start && h.core.topics == map[] && h.core.levels == []
    && h.pc == AtNode && h.status == Connecting && h.sent == []
    && (forall i | 0 <= i < |h.core.pubs| :: h.core.pubs[i].queue == [] && h.published[i] == [])
    && (forall j | 0 <= j < |h.core.subs| :: h.core.subs[j].queue == [] && h.handed[j] == [])
  }

  ghost predicate Init(s: Sys) {
    && Shaped(s)
    && s.broker == START
    && forall n | 0 <= n < |s.hosts| :: FreshHost(s.hosts[n]) && s.inbox[n] == [] && s.accepted[n] == []
  }

  // ---- steps ---------------------------------------------------------------

  datatype Step =
    | Call(n: nat, ok: bool)                  // broker_rpc_blocking sends its request
    | Answer(n: nat, k: nat)                  // broker_rpc_blocking receives a packet
    | Abort(n: nat)                           // broker_rpc_blocking's receive fails
    | BrokerTurn(n: nat, i: nat)              // the broker receives attempt i of node n
    | AppPublish(n: nat, p: nat, data: Bytes) // the application or a callback publishes
    | TakeIn(n: nat, k: nat, stale: Bytes)    // process_incoming_message, over arbitrary stale buffer content
    | Callback(n: nat, j: nat)                // run_callback
    | SendOut(n: nat, p: nat, ok: bool)       // send_data for the front message of a publisher
    | Lose(n: nat, k: nat)                    // a packet to a node is lost

  predicate MaySpin(h: Host) {
    h.status.Connected? || h.status.Failed?
  }

  predicate Enabled(s: Sys, step: Step)
    requires Shaped(s)
  {
    && step.n < |s.hosts|
    && var h := s.hosts[step.n];
       match step
       case Call(_, _) => h.status.Connecting? && !h.pc.AtEnd?
       case Answer(n, k) => h.status.Waiting? && k < |s.inbox[n]|
       case Abort(_) => h.status.Waiting?
       case BrokerTurn(_, i) => i < |h.sent| && h.sent[i].ok
       case AppPublish(_, p, data) => p < |h.core.pubs| && |data| == h.core.pubs[p].size
       case TakeIn(n, k, stale) => MaySpin(h) && k < |s.inbox[n]| && |stale| == BUFFER_SIZE
       case Callback(_, j) => MaySpin(h) && CanRun(h.core, j) && Visited(h.core, SubVisit(j))
       case SendOut(_, p, ok) =>
         && MaySpin(h) && CanSend(h.core, p) && Visited(h.core, PubVisit(p))
         && (ok ==> Codec.PAYLOAD + |h.core.pubs[p].queue[0]| <= BUFFER_SIZE)
       case Lose(n, k) => k < |s.inbox[n]|
  }

  function DoCall(h: Host, ok: bool): Host {
    var counter := Wrap(h.core.counter + 1);
    h.(core := h.core.(counter := counter),
       sent := h.sent + [Attempt(ok, ControlPacket(counter, h.core.counter, RequestAt(h.core, h.pc)), Rpc)],
       status := if ok then Waiting else Failed)
  }

  function DoAnswer(h: Host, down: Down): Host {
    match down
    case Forward(_) => h.(status := Failed)
    case Reply(_, a) =>
      match Learn(h.core, h.pc, a)
      case None => h.(status := Failed)
      case Some(core) =>
        var pc := NextPc(h.core, h.pc);
        h.(core := core, pc := pc, status := if pc.AtEnd? then Connected else Connecting)
  }

  function DoPublish(h: Host, p: nat, data: Bytes): Host
    requires HostShaped(h) && p < |h.core.pubs|
  {
    h.(core := Publish(h.core, p, data),
       published := if |h.core.pubs[p].queue| < CAPACITY then h.published[p := h.published[p] + [data]]
           else h.published)
  }

  function Copier(buffer: Bytes, origin: Origin): nat -> Msg {
    (size: nat) => Msg(Codec.CopyOut(buffer, size), origin)
  }

  /** What the scheduler makes of a packet received over stale buffer content. */
  function Carried(f: Flight, stale: Bytes): Incoming<Msg>
    requires |stale| == BUFFER_SIZE
  {
    match f.down
    case Reply(_, _) => Undecodable
    case Forward(bytes) =>
      var buffer := Codec.Overlay(stale, bytes);
      Understood(buffer, |bytes|, Copier(buffer, f.origin))
  }

  function DoTakeIn(h: Host, f: Flight, stale: Bytes): Host
    requires |stale| == BUFFER_SIZE
  {
    h.(core := ProcessIncoming(h.core, Carried(f, stale)))
  }

  function DoCallback(h: Host, j: nat): Host
    requires HostShaped(h) && CanRun(h.core, j)
  {
    h.(core := DropFrontSub(h.core, j), handed := h.handed[j := h.handed[j] + [h.core.subs[j].queue[0]]])
  }

  /** Number of messages of publisher `p` that were sent and removed. */
  function Popped(h: Host, p: nat): nat
    requires HostShaped(h) && p < |h.core.pubs|
  {
    if |h.core.pubs[p].queue| <= |h.published[p]| then |h.published[p]| - |h.core.pubs[p].queue| else 0
  }

  function DoSendOut(h: Host, p: nat, ok: bool): Host
    requires HostShaped(h) && CanSend(h.core, p)
  {
    var core := SendFront(h.core, p, ok);
    var u := h.core.pubs[p];
    var bytes := Codec.EncodeData(core.counter, u.topicId, u.typeId, u.queue[0]);
    h.(core := core, sent := h.sent + [Attempt(ok, DataPacket(bytes), FromPub(p, Popped(h, p)))])
  }

  /** The sends that go to node `m`, in order. */
  function Arriving(sends: seq<Send>, m: nat, origin: Origin): seq<Flight> {
    if sends == [] then []
    else (if sends[0].to == m then [Flight(sends[0].down, origin)] else []) + Arriving(sends[1..], m, origin)
  }

  function DoBrokerTurn(s: Sys, n: nat, i: nat): Sys
    requires Shaped(s) && n < |s.hosts| && i < |s.hosts[n].sent|
  {
    var p := s.hosts[n].sent[i].packet;
    var o := Receive(s.broker, n, p);
    Sys(o.broker, s.hosts,
        seq(|s.inbox|, m requires 0 <= m < |s.inbox| => s.inbox[m] + Arriving(o.sends, m, Origin(n, i))),
        if AcceptsPacket(s.broker, n, p) then s.accepted[n := s.accepted[n] + [i]] else s.accepted)
  }

  function HostAfter(s: Sys, step: Step): Host
    requires Shaped(s) && Enabled(s, step) && !step.BrokerTurn?
  {
    var h := s.hosts[step.n];
    match step
    case Call(_, ok) => DoCall(h, ok)
    case Answer(n, k) => DoAnswer(h, s.inbox[n][k].down)
    case Abort(_) => h.(status := Failed)
    case AppPublish(_, p, data) => DoPublish(h, p, data)
    case TakeIn(n, k, stale) => DoTakeIn(h, s.inbox[n][k], stale)
    case Callback(_, j) => DoCallback(h, j)
    case SendOut(_, p, ok) => DoSendOut(h, p, ok)
    case Lose(_, _) => h
  }

  predicate Takes(step: Step) {
    step.Answer? || step.TakeIn? || step.Lose?
  }

  function Apply(s: Sys, step: Step): Sys
    requires Shaped(s) && Enabled(s, step)
  {
    if step.BrokerTurn? then DoBrokerTurn(s, step.n, step.i)
    else
      var n := step.n;
      s.(hosts := s.hosts[n := HostAfter(s, step)],
         inbox := if Takes(step) then s.inbox[n := RemoveAt(s.inbox[n], step.k)] else s.inbox)
  }

  // ---- runs ----------------------------------------------------------------

  /** Step number `k` is enabled and leads to the next state. */
  ghost predicate Link(states: seq<Sys>, steps: seq<Step>, k: nat)
    requires k < |steps| < |states| && Shaped(states[k])
  {
    Enabled(states[k], steps[k]) && states[k + 1] == Apply(states[k], steps[k])
  }

  /** Consecutive states are related by enabled steps. */
  ghost predicate IsPath(states: seq<Sys>, steps: seq<Step>) {
    && |states| == |steps| + 1
    && (forall k | 0 <= k < |states| :: Shaped(states[k]))
    && forall k | 0 <= k < |steps| :: Link(states, steps, k)
  }

  ghost predicate IsRun(states: seq<Sys>, steps: seq<Step>) {
    IsPath(states, steps) && Init(states[0])
  }

  /** Fewer than 2^32 packets per address, and IDs that fit their 32-bit header fields. */
  ghost predicate Bounded(s: Sys) {
    && (forall n | 0 <= n < |s.hosts| :: |s.hosts[n].sent| < WORD)
    && |s.broker.registry.topics| <= WORD
    && |s.broker.registry.types| <= WORD
  }
}
