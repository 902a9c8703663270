/** The broker's state and what one received packet does to it. */
module BrokerModel {
  import opened Basics
  import Codec
  import Counter

  type Address = nat

  const DONT_CARE: int := -101

  datatype NodeInfo = NodeInfo(name: string, address: Address)
  datatype TypeInfo = TypeInfo(name: string, size: nat)
  datatype Topic = Topic(name: string, typeId: nat, priority: int, publishers: seq<nat>, subscribers: seq<nat>)

  /** The three append-only tables; IDs are positions. */
  datatype Registry = Registry(nodes: seq<NodeInfo>, types: seq<TypeInfo>, topics: seq<Topic>)

  datatype Broker = Broker(counters: map<Address, uint32>, registry: Registry)

  const START: Broker := Broker(map[], Registry([], [], []))

  /** Control requests; `Unsupported` stands for the scopes and actions that are only logged. */
  datatype Request =
    | RegisterNode(name: string)
    | RegisterType(name: string, size: nat)
    | RegisterTopic(name: string, typeId: nat, priority: int)
    | AddPublisher(nodeId: nat, topicId: nat, typeId: nat)
    | AddSubscriber(nodeId: nat, topicId: nat, typeId: nat)
    | Unsupported

  datatype Response =
    | Empty
    | Failure(rpcId: int)
    | NodeRegistered(rpcId: int, nodeId: nat)
    | TypeRegistered(rpcId: int, typeId: nat)
    | TopicRegistered(rpcId: int, topicId: nat, priority: int)
    | Done(rpcId: int)

  /** A packet on its way to the broker. Control text is kept as the typed request it stands for. */
  datatype Packet =
    | ControlPacket(counter: uint32, rpcId: uint32, request: Request)
    | DataPacket(bytes: Bytes)

  /** A packet on its way to a node. */
  datatype Down =
    | Reply(counter: uint32, response: Response)
    | Forward(bytes: Bytes)

  datatype Send = Send(to: Address, down: Down)

  function PacketCounter(p: Packet): uint32 {
    match p
    case ControlPacket(counter, _, _) => counter
    case DataPacket(bytes) => Codec.DecodeDatagram(bytes).counter
  }

  /** `rpc_failure_response` takes the RPC ID as a signed 32-bit `int`. */
  function AsInt32(x: uint32): int {
    if x < 0x8000_0000 then x else x - WORD
  }

  // ---- table look-up -------------------------------------------------------

  function NodeNames(nodes: seq<NodeInfo>): seq<string> {
    seq(|nodes|, i requires 0 <= i < |nodes| => nodes[i].name)
  }

  function TypeNames(types: seq<TypeInfo>): seq<string> {
    seq(|types|, i requires 0 <= i < |types| => types[i].name)
  }

  function TopicNames(topics: seq<Topic>): seq<string> {
    seq(|topics|, i requires 0 <= i < |topics| => topics[i].name)
  }

  /** First position of `name`, or the length if it does not occur. */
  function IndexOf(names: seq<string>, name: string): (i: nat)
    ensures i <= |names|
    ensures i < |names| ==> names[i] == name
    ensures forall j | 0 <= j < i :: names[j] != name
  {
    if names == [] || names[0] == name then 0 else 1 + IndexOf(names[1..], name)
  }

  lemma IndexIs(names: seq<string>, name: string, i: nat)
    requires i <= |names| && (forall j | 0 <= j < i :: names[j] != name) && (i < |names| ==> names[i] == name)
    ensures IndexOf(names, name) == i
  {
  }

  // ---- control requests ----------------------------------------------------

  function DoRegisterNode(r: Registry, client: Address, rpcId: uint32, name: string): (Registry, Response) {
    if IndexOf(NodeNames(r.nodes), name) < |r.nodes| then (r, Failure(AsInt32(rpcId)))
    else (r.(nodes := r.nodes + [NodeInfo(name, client)]), NodeRegistered(rpcId, |r.nodes|))
  }

  function DoRegisterType(r: Registry, rpcId: uint32, name: string, size: nat): (Registry, Response) {
    var i := IndexOf(TypeNames(r.types), name);
    if i == |r.types| then (r.(types := r.types + [TypeInfo(name, size)]), TypeRegistered(rpcId, i))
    else if r.types[i].size != size then (r, Failure(AsInt32(rpcId)))
    else (r, TypeRegistered(rpcId, i))
  }

  /** An unknown `typeId` is logged and then used all the same; see `Defined`. */
  function DoRegisterTopic(r: Registry, rpcId: uint32, name: string, typeId: nat, priority: int): (Registry, Response) {
    var i := IndexOf(TopicNames(r.topics), name);
    if i == |r.topics| then
      if priority == DONT_CARE then (r, Failure(AsInt32(rpcId)))
      else (r.(topics := r.topics + [Topic(name, typeId, priority, [], [])]), TopicRegistered(rpcId, i, priority))
    else if r.topics[i].typeId != typeId then (r, Failure(AsInt32(rpcId)))
    else if priority != DONT_CARE && r.topics[i].priority != priority then (r, Failure(AsInt32(rpcId)))
    else (r, TopicRegistered(rpcId, i, r.topics[i].priority))
  }

  predicate ValidTopicParameters(r: Registry, nodeId: nat, topicId: nat, typeId: nat) {
    && nodeId < |r.nodes|
    && topicId < |r.topics|
    && typeId < |r.types|
    && r.topics[topicId].typeId == typeId
  }

  function DoAddPublisher(r: Registry, rpcId: uint32, nodeId: nat, topicId: nat, typeId: nat): (Registry, Response) {
    if !ValidTopicParameters(r, nodeId, topicId, typeId) then (r, Failure(AsInt32(rpcId)))
    else
      var t := r.topics[topicId];
      (r.(topics := r.topics[topicId := t.(publishers := t.publishers + [nodeId])]), Done(rpcId))
  }

  function DoAddSubscriber(r: Registry, rpcId: uint32, nodeId: nat, topicId: nat, typeId: nat): (Registry, Response) {
    if !ValidTopicParameters(r, nodeId, topicId, typeId) then (r, Failure(AsInt32(rpcId)))
    else
      var t := r.topics[topicId];
      (r.(topics := r.topics[topicId := t.(subscribers := t.subscribers + [nodeId])]), Done(rpcId))
  }

  /** `process_control_request`. */
  function Process(r: Registry, client: Address, rpcId: uint32, q: Request): (Registry, Response) {
    match q
    case RegisterNode(name) => DoRegisterNode(r, client, rpcId, name)
    case RegisterType(name, size) => DoRegisterType(r, rpcId, name, size)
    case RegisterTopic(name, typeId, priority) => DoRegisterTopic(r, rpcId, name, typeId, priority)
    case AddPublisher(nodeId, topicId, typeId) => DoAddPublisher(r, rpcId, nodeId, topicId, typeId)
    case AddSubscriber(nodeId, topicId, typeId) => DoAddSubscriber(r, rpcId, nodeId, topicId, typeId)
    case Unsupported => (r, Empty)
  }

  /** The requests on which `register_topic` does not read past the end of the type table. */
  predicate Defined(r: Registry, q: Request) {
    q.RegisterTopic? ==>
      || q.typeId < |r.types|
      || var i := IndexOf(TopicNames(r.topics), q.name);
         if i == |r.topics| then q.priority == DONT_CARE else r.topics[i].typeId == q.typeId
  }

  /** The requests that nodes send: they register topics with type IDs the broker gave them. */
  predicate InRange(r: Registry, q: Request) {
    q.RegisterTopic? ==> q.typeId < |r.types|
  }

  // ---- data packets --------------------------------------------------------

  function AddressOf(r: Registry, nodeId: nat): Address {
    if nodeId < |r.nodes| then r.nodes[nodeId].address else 0
  }

  /** One copy of the packet for every entry of the topic's subscriber list, in list order. */
  function FanOut(r: Registry, subscribers: seq<nat>, bytes: Bytes): (out: seq<Send>)
    ensures |out| == |subscribers|
    ensures forall i | 0 <= i < |out| :: out[i] == Send(AddressOf(r, subscribers[i]), Forward(bytes))
  {
    seq(|subscribers|, i requires 0 <= i < |subscribers| => Send(AddressOf(r, subscribers[i]), Forward(bytes)))
  }

  predicate Forwardable(r: Registry, d: Codec.Decoded) {
    && d.Data?
    && d.topicId < |r.topics|
    && d.typeId < |r.types|
    && r.topics[d.topicId].typeId == d.typeId
  }

  /** What is sent on for a datagram received over the previous content of the broker's buffer. */
  function Distribute(r: Registry, stale: Codec.Buffer, bytes: Bytes): seq<Send> {
    var d := Codec.DecodeOver(stale, bytes);
    if Forwardable(r, d) then FanOut(r, r.topics[d.topicId].subscribers, bytes) else []
  }

  // ---- one iteration of the broker's loop ----------------------------------

  function StoredCounter(b: Broker, client: Address): Option<uint32> {
    if client in b.counters then Some(b.counters[client]) else None
  }

  predicate AcceptsPacket(b: Broker, client: Address, p: Packet) {
    Counter.Accepts(StoredCounter(b, client), PacketCounter(p))
  }

  datatype Outcome = Outcome(broker: Broker, sends: seq<Send>)

  function ReceiveOver(b: Broker, client: Address, p: Packet, stale: Codec.Buffer): Outcome {
    if !AcceptsPacket(b, client, p) then Outcome(b, [])
    else
      var counters := b.counters[client := PacketCounter(p)];
      match p
      case ControlPacket(counter, rpcId, q) =>
        var (registry, response) := Process(b.registry, client, rpcId, q);
        Outcome(Broker(counters, registry), [Send(client, Reply(counter, response))])
      case DataPacket(bytes) =>
        Outcome(Broker(counters, b.registry), Distribute(b.registry, stale, bytes))
  }

  /** The same in a zeroed buffer; datagrams with a whole header make no difference, see `StaleIrrelevant`. */
  function Receive(b: Broker, client: Address, p: Packet): Outcome {
    ReceiveOver(b, client, p, Codec.Blank())
  }

  lemma StaleIrrelevant(b: Broker, client: Address, p: Packet, stale: Codec.Buffer)
    requires p.DataPacket? ==> |p.bytes| >= Codec.PAYLOAD
    ensures ReceiveOver(b, client, p, stale) == Receive(b, client, p)
  {
    if p.DataPacket? {
      Codec.DecodeIgnoresStale(stale, p.bytes);
    }
  }
}
