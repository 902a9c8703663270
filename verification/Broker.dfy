/** The broker as an object whose methods update its tables in place. */
module Brokers {
  import opened Basics
  import opened BrokerModel
  import Codec
  import Counter

  class BrokerServer {
    var clientCounters: map<Address, uint32>
    var nodes: seq<NodeInfo>
    var messageTypes: seq<TypeInfo>
    var topics: seq<Topic>

    ghost function Tables(): Registry
      reads this
    {
      Registry(nodes, messageTypes, topics)
    }

    ghost function Abs(): Broker
      reads this
    {
      Broker(clientCounters, Tables())
    }

    constructor ()
      ensures Abs() == START
    {
      clientCounters, nodes, messageTypes, topics := map[], [], [], [];
    }

    method VerifyAndUpdateClientCounter(client: Address, counter: uint32) returns (ok: bool)
      modifies this`clientCounters
      ensures ok <==> Counter.Accepts(StoredCounter(old(Abs()), client), counter)
      ensures clientCounters == if ok then old(clientCounters)[client := counter] else old(clientCounters)
    {
      if client !in clientCounters {
        clientCounters := clientCounters[client := counter];
      } else {
        var last: int := clientCounters[client];
        if Wrap(last + 1) != counter {
          return false;
        }
      }
      clientCounters := clientCounters[client := counter];
      return true;
    }

    method RegisterNode(client: Address, name: string) returns (ok: bool, nodeId: nat)
      modifies this`nodes
      ensures var (r, a) := DoRegisterNode(old(Tables()), client, 0, name);
              Tables() == r && (ok <==> a.NodeRegistered?) && (ok ==> nodeId == a.nodeId)
    {
      var i := 0;
      while i < |nodes| && nodes[i].name != name
        invariant 0 <= i <= |nodes|
        invariant forall j | 0 <= j < i :: nodes[j].name != name
      {
        i := i + 1;
      }
      assert i == IndexOf(NodeNames(nodes), name) by { IndexIs(NodeNames(nodes), name, i); }
      if i == |nodes| {
        nodes := nodes + [NodeInfo(name, client)];
        return true, |nodes| - 1;
      }
      return false, 0;
    }

    method RegisterMessageType(name: string, size: nat) returns (ok: bool, typeId: nat)
      modifies this`messageTypes
      ensures var (r, a) := DoRegisterType(old(Tables()), 0, name, size);
              Tables() == r && (ok <==> a.TypeRegistered?) && (ok ==> typeId == a.typeId)
    {
      var i := 0;
      while i < |messageTypes| && messageTypes[i].name != name
        invariant 0 <= i <= |messageTypes|
        invariant forall j | 0 <= j < i :: messageTypes[j].name != name
      {
        i := i + 1;
      }
      assert i == IndexOf(TypeNames(messageTypes), name) by { IndexIs(TypeNames(messageTypes), name, i); }
      if i == |messageTypes| {
        messageTypes := messageTypes + [TypeInfo(name, size)];
      } else if messageTypes[i].size != size {
        return false, 0;
      }
      return true, i;
    }

    /**
     * An unknown type ID is reported and used all the same, so callers must not
     * make the code read the type table at it.
     */
    method RegisterTopic(name: string, typeId: nat, priority: int) returns (ok: bool, topicId: nat, actual: int)
      requires Defined(Tables(), Request.RegisterTopic(name, typeId, priority))
      modifies this`topics
      ensures var (r, a) := DoRegisterTopic(old(Tables()), 0, name, typeId, priority);
              && Tables() == r && (ok <==> a.TopicRegistered?)
              && (ok ==> topicId == a.topicId && actual == a.priority)
    {
      var i := 0;
      while i < |topics| && topics[i].name != name
        invariant 0 <= i <= |topics|
        invariant forall j | 0 <= j < i :: topics[j].name != name
      {
        i := i + 1;
      }
      assert i == IndexOf(TopicNames(topics), name) by { IndexIs(TopicNames(topics), name, i); }
      if i == |topics| {
        if priority == DONT_CARE {
          return false, 0, 0;
        }
        topics := topics + [Topic(name, typeId, priority, [], [])];
        return true, |topics| - 1, topics[|topics| - 1].priority;
      }
      if topics[i].typeId != typeId || (priority != DONT_CARE && topics[i].priority != priority) {
        return false, 0, 0;
      }
      return true, i, topics[i].priority;
    }

    method ValidateTopicParameters(nodeId: nat, topicId: nat, typeId: nat) returns (ok: bool)
      ensures ok <==> ValidTopicParameters(Tables(), nodeId, topicId, typeId)
    {
      if nodeId >= |nodes| || topicId >= |topics| || typeId >= |messageTypes| {
        return false;
      }
      return topics[topicId].typeId == typeId;
    }

    method AddPublisher(nodeId: nat, topicId: nat, typeId: nat) returns (ok: bool)
      modifies this`topics
      ensures var (r, a) := DoAddPublisher(old(Tables()), 0, nodeId, topicId, typeId);
              Tables() == r && (ok <==> a.Done?)
    {
      ok := ValidateTopicParameters(nodeId, topicId, typeId);
      if ok {
        var t := topics[topicId];
        topics := topics[topicId := t.(publishers := t.publishers + [nodeId])];
      }
    }

    method AddSubscriber(nodeId: nat, topicId: nat, typeId: nat) returns (ok: bool)
      modifies this`topics
      ensures var (r, a) := DoAddSubscriber(old(Tables()), 0, nodeId, topicId, typeId);
              Tables() == r && (ok <==> a.Done?)
    {
      ok := ValidateTopicParameters(nodeId, topicId, typeId);
      if ok {
        var t := topics[topicId];
        topics := topics[topicId := t.(subscribers := t.subscribers + [nodeId])];
      }
    }

    method ProcessControlRequest(client: Address, rpcId: uint32, q: Request) returns (a: Response)
      requires Defined(Tables(), q)
      modifies this`nodes, this`messageTypes, this`topics
      ensures (Tables(), a) == Process(old(Tables()), client, rpcId, q)
    {
      match q {
        case RegisterNode(name) =>
          var ok, id := RegisterNode(client, name);
          a := if ok then NodeRegistered(rpcId, id) else Failure(AsInt32(rpcId));
        case RegisterType(name, size) =>
          var ok, id := RegisterMessageType(name, size);
          a := if ok then TypeRegistered(rpcId, id) else Failure(AsInt32(rpcId));
        case RegisterTopic(name, typeId, priority) =>
          var ok, id, actual := RegisterTopic(name, typeId, priority);
          a := if ok then TopicRegistered(rpcId, id, actual) else Failure(AsInt32(rpcId));
        case AddPublisher(nodeId, topicId, typeId) =>
          var ok := AddPublisher(nodeId, topicId, typeId);
          a := if ok then Done(rpcId) else Failure(AsInt32(rpcId));
        case AddSubscriber(nodeId, topicId, typeId) =>
          var ok := AddSubscriber(nodeId, topicId, typeId);
          a := if ok then Done(rpcId) else Failure(AsInt32(rpcId));
        case Unsupported =>
          a := Empty;
      }
    }

    /** Sends a data packet on to every subscriber of its topic. */
    method ForwardData(bytes: Bytes, stale: Codec.Buffer) returns (sends: seq<Send>)
      requires forall t | t in topics :: forall id | id in t.subscribers :: id < |nodes|
      ensures sends == Distribute(Tables(), stale, bytes)
    {
      sends := [];
      var d := Codec.DecodeOver(stale, bytes);
      if !d.Data? || d.topicId >= |topics| || d.typeId >= |messageTypes| || topics[d.topicId].typeId != d.typeId {
        return;
      }
      var subscribers := topics[d.topicId].subscribers;
      assert topics[d.topicId] in topics;
      var i := 0;
      while i < |subscribers|
        invariant 0 <= i <= |subscribers|
        invariant sends == FanOut(Tables(), subscribers, bytes)[..i]
      {
        assert subscribers[i] in subscribers;
        sends := sends + [Send(nodes[subscribers[i]].address, Forward(bytes))];
        i := i + 1;
      }
    }

    /** The counter as `decode_packet_buffer` reads it. */
    method DecodedCounter(packet: Packet, stale: Codec.Buffer) returns (counter: uint32)
      ensures counter == PacketCounter(packet)
    {
      match packet {
        case ControlPacket(c, _, _) =>
          counter := c;
        case DataPacket(bytes) =>
          Codec.CounterIgnoresStale(stale, bytes);
          counter := Codec.DecodeOver(stale, bytes).counter;
      }
    }

    /** One iteration of the broker's loop; `stale` is what the receive buffer held before. */
    method SpinOnce(client: Address, packet: Packet, stale: Codec.Buffer) returns (sends: seq<Send>)
      requires packet.ControlPacket? ==> Defined(Tables(), packet.request)
      requires forall t | t in topics :: forall id | id in t.subscribers :: id < |nodes|
      modifies this
      ensures Outcome(Abs(), sends) == ReceiveOver(old(Abs()), client, packet, stale)
    {
      sends := [];
      var counter := DecodedCounter(packet, stale);
      var accepted := VerifyAndUpdateClientCounter(client, counter);
      if !accepted {
        return;
      }
      match packet {
        case ControlPacket(_, rpcId, q) =>
          var a := ProcessControlRequest(client, rpcId, q);
          sends := [Send(client, Reply(clientCounters[client], a))];
        case DataPacket(bytes) =>
          sends := ForwardData(bytes, stale);
      }
    }
  }
}
