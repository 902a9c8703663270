/** What every request and every run of the broker keeps. */
module BrokerProofs {
  import opened Basics
  import opened BrokerModel
  import Codec

  ghost predicate TopicOk(r: Registry, t: Topic) {
    && t.typeId < |r.types|
    && t.priority != DONT_CARE
    && (forall k | 0 <= k < |t.publishers| :: t.publishers[k] < |r.nodes|)
    && (forall k | 0 <= k < |t.subscribers| :: t.subscribers[k] < |r.nodes|)
  }

  /** The registry invariant. */
  ghost predicate RegistryOk(r: Registry) {
    && Distinct(NodeNames(r.nodes))
    && Distinct(TypeNames(r.types))
    && Distinct(TopicNames(r.topics))
    && forall t | 0 <= t < |r.topics| :: TopicOk(r, r.topics[t])
  }

  ghost predicate TopicExtends(t: Topic, u: Topic) {
    && t.name == u.name && t.typeId == u.typeId && t.priority == u.priority
    && t.publishers <= u.publishers
    && t.subscribers <= u.subscribers
  }

  /** IDs given out in `r` mean the same in `s`. */
  ghost predicate Extends(r: Registry, s: Registry) {
    && r.nodes <= s.nodes
    && r.types <= s.types
    && |r.topics| <= |s.topics|
    && forall t | 0 <= t < |r.topics| :: TopicExtends(r.topics[t], s.topics[t])
  }

  lemma ExtendsTransitive(a: Registry, b: Registry, c: Registry)
    requires Extends(a, b) && Extends(b, c)
    ensures Extends(a, c)
  {
  }

  lemma DistinctAppend(names: seq<string>, name: string)
    requires Distinct(names) && IndexOf(names, name) == |names|
    ensures Distinct(names + [name])
  {
  }

  lemma NamesAppend(r: Registry, n: NodeInfo, ty: TypeInfo, t: Topic)
    ensures NodeNames(r.nodes + [n]) == NodeNames(r.nodes) + [n.name]
    ensures TypeNames(r.types + [ty]) == TypeNames(r.types) + [ty.name]
    ensures TopicNames(r.topics + [t]) == TopicNames(r.topics) + [t.name]
  {
  }

  lemma NamesUpdate(topics: seq<Topic>, i: nat, t: Topic)
    requires i < |topics| && t.name == topics[i].name
    ensures TopicNames(topics[i := t]) == TopicNames(topics)
  {
  }

  /** Every request that does not read past a table keeps the registry invariant. */
  lemma ProcessKeepsRegistry(r: Registry, client: Address, rpcId: uint32, q: Request)
    requires RegistryOk(r) && Defined(r, q)
    ensures RegistryOk(Process(r, client, rpcId, q).0)
  {
    var s := Process(r, client, rpcId, q).0;
    match q {
      case RegisterNode(name) =>
        NamesAppend(r, NodeInfo(name, client), TypeInfo(name, 0), Topic(name, 0, 0, [], []));
        if s != r { DistinctAppend(NodeNames(r.nodes), name); }
      case RegisterType(name, size) =>
        NamesAppend(r, NodeInfo(name, client), TypeInfo(name, size), Topic(name, 0, 0, [], []));
        if s != r { DistinctAppend(TypeNames(r.types), name); }
      case RegisterTopic(name, typeId, priority) =>
        NamesAppend(r, NodeInfo(name, client), TypeInfo(name, 0), Topic(name, typeId, priority, [], []));
        if s != r { DistinctAppend(TopicNames(r.topics), name); }
      case AddPublisher(_, topicId, _) =>
        if s != r { NamesUpdate(r.topics, topicId, s.topics[topicId]); }
      case AddSubscriber(_, topicId, _) =>
        if s != r { NamesUpdate(r.topics, topicId, s.topics[topicId]); }
      case Unsupported =>
    }
    forall t | 0 <= t < |s.topics| ensures TopicOk(s, s.topics[t]) {
      if t < |r.topics| { assert TopicOk(r, r.topics[t]); }
    }
  }

  /** No request changes the meaning of an ID already given out, and a failed one changes nothing. */
  lemma ProcessExtends(r: Registry, client: Address, rpcId: uint32, q: Request)
    ensures Extends(r, Process(r, client, rpcId, q).0)
    ensures Process(r, client, rpcId, q).1.Failure? ==> Process(r, client, rpcId, q).0 == r
  {
  }

  /** What a successful response tells the client, in terms of the registry it may consult later. */
  ghost predicate Answers(r: Registry, client: Address, q: Request, a: Response) {
    match (q, a)
    case (_, Failure(_)) => true
    case (RegisterNode(name), NodeRegistered(_, id)) => id < |r.nodes| && r.nodes[id] == NodeInfo(name, client)
    case (RegisterType(name, size), TypeRegistered(_, id)) => id < |r.types| && r.types[id] == TypeInfo(name, size)
    case (RegisterTopic(name, typeId, priority), TopicRegistered(_, id, actual)) =>
      && id < |r.topics|
      && r.topics[id].name == name && r.topics[id].typeId == typeId && r.topics[id].priority == actual
      && (priority != DONT_CARE ==> actual == priority)
    case (AddPublisher(nodeId, topicId, _), Done(_)) => topicId < |r.topics| && nodeId in r.topics[topicId].publishers
    case (AddSubscriber(nodeId, topicId, _), Done(_)) => topicId < |r.topics| && nodeId in r.topics[topicId].subscribers
    case (Unsupported, Empty) => true
    case _ => false
  }

  /** The response carries the RPC ID; a failure carries it as a signed 32-bit number. */
  ghost predicate Echoes(a: Response, rpcId: uint32) {
    match a
    case Empty => true
    case Failure(x) => -0x8000_0000 <= x < 0x8000_0000 && (x == rpcId || x == rpcId - 0x1_0000_0000)
    case _ => a.rpcId == rpcId
  }

  /** Every response is of the kind its request asks for, resolves in the new registry and echoes the RPC ID. */
  lemma ProcessAnswers(r: Registry, client: Address, rpcId: uint32, q: Request)
    ensures Answers(Process(r, client, rpcId, q).0, client, q, Process(r, client, rpcId, q).1)
    ensures Echoes(Process(r, client, rpcId, q).1, rpcId)
  {
  }

  /** Table entry of a topic, but for its lists. */
  function Heading(t: Topic): (string, nat, int) {
    (t.name, t.typeId, t.priority)
  }

  /**
   * What an add request does: if all three IDs are known and the type is the
   * topic's, it appends the node to one list of that topic; otherwise it fails.
   * Nothing else changes.
   */
  lemma AddChangesOneList(r: Registry, client: Address, rpcId: uint32, nodeId: nat, topicId: nat, typeId: nat)
    ensures var (s, a) := Process(r, client, rpcId, AddPublisher(nodeId, topicId, typeId));
            var (s', a') := Process(r, client, rpcId, AddSubscriber(nodeId, topicId, typeId));
            var ok := && nodeId < |r.nodes| && topicId < |r.topics| && typeId < |r.types|
                      && r.topics[topicId].typeId == typeId;
            && (a.Done? <==> ok) && (a.Failure? <==> !ok) && (a'.Done? <==> ok) && (a'.Failure? <==> !ok)
            && s.nodes == s'.nodes == r.nodes && s.types == s'.types == r.types
            && |s.topics| == |s'.topics| == |r.topics|
            && forall t | 0 <= t < |r.topics| ::
                 && Heading(s.topics[t]) == Heading(s'.topics[t]) == Heading(r.topics[t])
                 && s.topics[t].subscribers == r.topics[t].subscribers
                 && s'.topics[t].publishers == r.topics[t].publishers
                 && s.topics[t].publishers == r.topics[t].publishers + (if ok && t == topicId then [nodeId] else [])
                 && s'.topics[t].subscribers == r.topics[t].subscribers + (if ok && t == topicId then [nodeId] else [])
  {
  }

  /** Requests that are not implemented change nothing. */
  lemma UnsupportedChangesNothing(r: Registry, client: Address, rpcId: uint32)
    ensures Process(r, client, rpcId, Unsupported) == (r, Empty)
  {
  }

  /** A topic that does not exist yet is refused exactly at the don't-care priority, -101. */
  lemma NewTopicNeedsPriority(r: Registry, client: Address, rpcId: uint32, name: string, typeId: nat, priority: int)
    requires forall t | 0 <= t < |r.topics| :: r.topics[t].name != name
    ensures Process(r, client, rpcId, RegisterTopic(name, typeId, priority)).1.Failure? <==> priority == -101
  {
    IndexIs(TopicNames(r.topics), name, |r.topics|);
  }

  // ---- runs of requests ----------------------------------------------------

  datatype Call = Call(client: Address, rpcId: uint32, request: Request)

  function RunCalls(r: Registry, calls: seq<Call>): Registry {
    if calls == [] then r
    else
      var c := calls[|calls| - 1];
      Process(RunCalls(r, calls[..|calls| - 1]), c.client, c.rpcId, c.request).0
  }

  ghost predicate AllDefined(r: Registry, calls: seq<Call>) {
    forall k | 0 <= k < |calls| :: Defined(RunCalls(r, calls[..k]), calls[k].request)
  }

  /** Every run of requests keeps the registry invariant and the meaning of all IDs. */
  lemma {:induction false} RunKeepsRegistry(r: Registry, calls: seq<Call>)
    requires RegistryOk(r) && AllDefined(r, calls)
    ensures RegistryOk(RunCalls(r, calls)) && Extends(r, RunCalls(r, calls))
  {
    if calls != [] {
      var n := |calls| - 1;
      var before := calls[..n];
      forall k | 0 <= k < n ensures Defined(RunCalls(r, before[..k]), before[k].request) {
        assert before[..k] == calls[..k];
      }
      RunKeepsRegistry(r, before);
      var mid := RunCalls(r, before);
      var c := calls[n];
      ProcessKeepsRegistry(mid, c.client, c.rpcId, c.request);
      ProcessExtends(mid, c.client, c.rpcId, c.request);
      ExtendsTransitive(r, mid, RunCalls(r, calls));
    }
  }

  // ---- refinement of name-keyed maps ---------------------------------------

  /** A table seen as a map from names to ID and value. */
  ghost function Keyed<V>(names: seq<string>, values: seq<V>): (m: map<string, (nat, V)>)
    requires |names| == |values|
  {
    if names == [] then map[]
    else
      var n := |names| - 1;
      Keyed(names[..n], values[..n])[names[n] := (n, values[n])]
  }

  lemma {:induction false} KeyedIsIndex<V>(names: seq<string>, values: seq<V>, name: string)
    requires |names| == |values| && Distinct(names)
    ensures |Keyed(names, values)| == |names|
    ensures name in Keyed(names, values) <==> IndexOf(names, name) < |names|
    ensures IndexOf(names, name) < |names| ==>
              Keyed(names, values)[name] == (IndexOf(names, name), values[IndexOf(names, name)])
  {
    if names != [] {
      var n := |names| - 1;
      KeyedIsIndex(names[..n], values[..n], name);
      KeyedIsIndex(names[..n], values[..n], names[n]);
      assert IndexOf(names[..n], names[n]) == n;
      assert forall j | 0 <= j < n :: names[j] == names[..n][j];
    }
  }

  lemma KeyedAppend<V>(names: seq<string>, values: seq<V>, name: string, v: V)
    requires |names| == |values|
    ensures Keyed(names + [name], values + [v]) == Keyed(names, values)[name := (|names|, v)]
  {
  }

  /** Registering in a map where the first registration of a name wins. */
  ghost function FirstWins<V(!new)>(m: map<string, (nat, V)>, name: string, v: V, allowed: bool, fits: (V, V) -> bool):
    (map<string, (nat, V)>, Option<(nat, V)>)
  {
    if name in m then (m, if fits(m[name].1, v) then Some(m[name]) else None)
    else if allowed then (m[name := (|m|, v)], Some((|m|, v)))
    else (m, None)
  }

  ghost function NodeValues(nodes: seq<NodeInfo>): (v: seq<Address>)
    ensures |v| == |nodes|
  {
    seq(|nodes|, i requires 0 <= i < |nodes| => nodes[i].address)
  }

  ghost function TypeValues(types: seq<TypeInfo>): (v: seq<nat>)
    ensures |v| == |types|
  {
    seq(|types|, i requires 0 <= i < |types| => types[i].size)
  }

  ghost function TopicValues(topics: seq<Topic>): (v: seq<(nat, int)>)
    ensures |v| == |topics|
  {
    seq(|topics|, i requires 0 <= i < |topics| => (topics[i].typeId, topics[i].priority))
  }

  /** A node name can be registered once. */
  lemma NodesRefineMap(r: Registry, client: Address, rpcId: uint32, name: string)
    requires RegistryOk(r)
    ensures var (s, a) := Process(r, client, rpcId, RegisterNode(name));
            var (m, e) := FirstWins(Keyed(NodeNames(r.nodes), NodeValues(r.nodes)), name, client, true,
                (_, _) => false);
            && Keyed(NodeNames(s.nodes), NodeValues(s.nodes)) == m
            && s.types == r.types && s.topics == r.topics
            && a == if e.Some? then NodeRegistered(rpcId, e.value.0) else Failure(AsInt32(rpcId))
  {
    KeyedIsIndex(NodeNames(r.nodes), NodeValues(r.nodes), name);
    NamesAppend(r, NodeInfo(name, client), TypeInfo(name, 0), Topic(name, 0, 0, [], []));
    assert NodeValues(r.nodes + [NodeInfo(name, client)]) == NodeValues(r.nodes) + [client];
    KeyedAppend(NodeNames(r.nodes), NodeValues(r.nodes), name, client);
  }

  /** A message type name is bound to the size of its first registration. */
  lemma TypesRefineMap(r: Registry, client: Address, rpcId: uint32, name: string, size: nat)
    requires RegistryOk(r)
    ensures var (s, a) := Process(r, client, rpcId, RegisterType(name, size));
            var (m, e) := FirstWins(Keyed(TypeNames(r.types), TypeValues(r.types)), name, size, true,
                (x: nat, y: nat) => x == y);
            && Keyed(TypeNames(s.types), TypeValues(s.types)) == m
            && s.nodes == r.nodes && s.topics == r.topics
            && a == if e.Some? then TypeRegistered(rpcId, e.value.0) else Failure(AsInt32(rpcId))
  {
    KeyedIsIndex(TypeNames(r.types), TypeValues(r.types), name);
    NamesAppend(r, NodeInfo(name, client), TypeInfo(name, size), Topic(name, 0, 0, [], []));
    assert TypeValues(r.types + [TypeInfo(name, size)]) == TypeValues(r.types) + [size];
    KeyedAppend(TypeNames(r.types), TypeValues(r.types), name, size);
  }

  /** A topic name is bound to the type and priority of its first registration, which must state a priority. */
  lemma TopicsRefineMap(r: Registry, client: Address, rpcId: uint32, name: string, typeId: nat, priority: int)
    requires RegistryOk(r)
    ensures var (s, a) := Process(r, client, rpcId, RegisterTopic(name, typeId, priority));
            var (m, e) := FirstWins(Keyed(TopicNames(r.topics), TopicValues(r.topics)), name, (typeId, priority),
                                    priority != DONT_CARE,
                                    (x: (nat, int), y: (nat, int)) => x.0 == y.0 && (y.1 == DONT_CARE || x.1 == y.1));
            && Keyed(TopicNames(s.topics), TopicValues(s.topics)) == m
            && s.nodes == r.nodes && s.types == r.types
            && a == if e.Some? then TopicRegistered(rpcId, e.value.0, e.value.1.1) else Failure(AsInt32(rpcId))
  {
    var t := Topic(name, typeId, priority, [], []);
    KeyedIsIndex(TopicNames(r.topics), TopicValues(r.topics), name);
    NamesAppend(r, NodeInfo(name, client), TypeInfo(name, 0), t);
    assert TopicValues(r.topics + [t]) == TopicValues(r.topics) + [(typeId, priority)];
    KeyedAppend(TopicNames(r.topics), TopicValues(r.topics), name, (typeId, priority));
  }

  // ---- fan-out over whole runs ---------------------------------------------

  /** A packet and what the broker's buffer held before it arrived. */
  datatype Arrival = Arrival(client: Address, packet: Packet, stale: Codec.Buffer)

  function RunBroker(arrivals: seq<Arrival>): Broker {
    if arrivals == [] then START
    else
      var a := arrivals[|arrivals| - 1];
      ReceiveOver(RunBroker(arrivals[..|arrivals| - 1]), a.client, a.packet, a.stale).broker
  }

  /** The two lists of a topic. */
  datatype Side = OfPublishers | OfSubscribers

  function ListOf(t: Topic, side: Side): seq<nat> {
    if side == OfPublishers then t.publishers else t.subscribers
  }

  /** The request asks to add a node to that list of topic `t`. */
  predicate AsksFor(q: Request, side: Side, t: nat) {
    (if side == OfPublishers then q.AddPublisher? else q.AddSubscriber?) && q.topicId == t
  }

  /** The packet is such a request, and what the broker sends is its confirmation. */
  predicate Confirms(p: Packet, sends: seq<Send>, side: Side, t: nat) {
    && p.ControlPacket? && AsksFor(p.request, side, t)
    && sends != [] && sends[0].down.Reply? && sends[0].down.response.Done?
  }

  /** The node IDs of the requests for one list of topic `t` that the broker has confirmed, in order. */
  function Confirmed(arrivals: seq<Arrival>, side: Side, t: nat): seq<nat> {
    if arrivals == [] then []
    else
      var n := |arrivals| - 1;
      var before := Confirmed(arrivals[..n], side, t);
      var a := arrivals[n];
      var sends := ReceiveOver(RunBroker(arrivals[..n]), a.client, a.packet, a.stale).sends;
      if Confirms(a.packet, sends, side, t) then before + [a.packet.request.nodeId] else before
  }

  function Listed(b: Broker, side: Side, t: nat): seq<nat> {
    if t < |b.registry.topics| then ListOf(b.registry.topics[t], side) else []
  }

  /** Over any run, both lists of a topic hold exactly the confirmed requests for them, in order. */
  lemma {:induction false} ListsAreConfirmed(arrivals: seq<Arrival>, side: Side, t: nat)
    ensures Listed(RunBroker(arrivals), side, t) == Confirmed(arrivals, side, t)
  {
    if arrivals != [] {
      var n := |arrivals| - 1;
      ListsAreConfirmed(arrivals[..n], side, t);
      ListedAfter(RunBroker(arrivals[..n]), arrivals[n], side, t);
    }
  }

  /** One packet adds to a list exactly if the broker confirms that. */
  lemma ListedAfter(b: Broker, a: Arrival, side: Side, t: nat)
    ensures var o := ReceiveOver(b, a.client, a.packet, a.stale);
            Listed(o.broker, side, t)
            == Listed(b, side, t) + if Confirms(a.packet, o.sends, side, t) then [a.packet.request.nodeId] else []
  {
  }

  /** The packet names a known topic under the topic's own, known type. */
  ghost predicate WellAddressed(r: Registry, d: Codec.Decoded) {
    d.Data? && exists t | 0 <= t < |r.topics| :: d.topicId == t && r.topics[t].typeId == d.typeId < |r.types|
  }

  /**
   * In every run, and whatever the broker's buffer held before, an accepted
   * data packet with known topic and type is sent
   * on unchanged once per confirmed subscription, in subscription order, and
   * alters no table; any other data packet is sent to nobody.
   */
  lemma ExactFanOut(arrivals: seq<Arrival>, client: Address, bytes: Bytes, stale: Codec.Buffer)
    requires AcceptsPacket(RunBroker(arrivals), client, DataPacket(bytes))
    ensures var b := RunBroker(arrivals);
            var d := Codec.DecodeOver(stale, bytes);
            var o := ReceiveOver(b, client, DataPacket(bytes), stale);
            && o.broker.registry == b.registry
            && (!WellAddressed(b.registry, d) ==> o.sends == [])
            && (WellAddressed(b.registry, d) ==>
                  var subs := Confirmed(arrivals, OfSubscribers, d.topicId);
                  && |o.sends| == |subs|
                  && forall i | 0 <= i < |subs| :: o.sends[i] == Send(AddressOf(b.registry, subs[i]), Forward(bytes)))
  {
    var d := Codec.DecodeOver(stale, bytes);
    if d.Data? {
      ListsAreConfirmed(arrivals, OfSubscribers, d.topicId);
    }
  }
}
