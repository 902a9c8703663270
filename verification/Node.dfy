/** A node as an object whose methods update its publishers, subscribers and indexes in place. */
module Nodes {
  import opened Basics
  import opened NodeModel
  import opened SchedulerProofs
  import opened DrainProofs
  import opened BrokerModel
  import opened System
  import Codec
  import Dialling

  /** What the scheduler makes of a datagram received over the previous buffer content. */
  ghost function IncomingOf(stale: Bytes, datagram: Option<Bytes>): Incoming<Bytes>
    requires |stale| == BUFFER_SIZE
  {
    if datagram.None? then Nothing
    else
      var buffer := Codec.Overlay(stale, datagram.value);
      Understood(buffer, |datagram.value|, size => Codec.CopyOut(buffer, size))
  }

  ghost function BufferAfter(stale: Bytes, datagram: Option<Bytes>): (buf: Bytes)
    requires |stale| == BUFFER_SIZE && (datagram.Some? ==> |datagram.value| <= BUFFER_SIZE)
    ensures |buf| == BUFFER_SIZE
  {
    if datagram.None? then stale else Codec.Overlay(stale, datagram.value)
  }

  /** A backlog of datagrams as the scheduler will see them, one after the other in the same buffer. */
  ghost function IncomingsOf(stale: Bytes, backlog: seq<Bytes>): (r: seq<Incoming<Bytes>>)
    requires |stale| == BUFFER_SIZE && forall k | 0 <= k < |backlog| :: |backlog[k]| <= BUFFER_SIZE
    ensures |r| == |backlog|
    decreases |backlog|
  {
    if backlog == [] then []
    else [IncomingOf(stale, Some(backlog[0]))] + IncomingsOf(BufferAfter(stale, Some(backlog[0])), backlog[1..])
  }

  /** Arrivals and environments, one pass after the other, over the same buffer. */
  ghost function RoundsOf(stale: Bytes, arrivals: seq<Option<Bytes>>, envs: seq<seq<Env<Bytes>>>)
    : (r: seq<Round<Bytes, Bytes>>)
    requires |stale| == BUFFER_SIZE && |arrivals| == |envs|
    requires forall k | 0 <= k < |arrivals| && arrivals[k].Some? :: |arrivals[k].value| <= BUFFER_SIZE
    ensures |r| == |arrivals| && forall k | 0 <= k < |r| :: r[k].envs == envs[k]
    decreases |arrivals|
  {
    if arrivals == [] then []
    else
      [Round(IncomingOf(stale, arrivals[0]), envs[0])]
      + RoundsOf(BufferAfter(stale, arrivals[0]), arrivals[1..], envs[1..])
  }

  /** What the loop has done so far followed by the remaining rounds gives the whole loop. */
  ghost predicate Looping<P, S>(whole: Looped<P, S>, passes: nat, done: seq<Event<P, S>>, d: Node<P, S>,
                                rounds: seq<Round<P, S>>, idle: bool) {
    && Wired(d) && FitRounds(d, rounds)
    && var rest := Loop(d, rounds, idle);
       whole == Looped(rest.node, done + rest.events, passes + rest.passes, rest.ended)
  }

  lemma RoundsFirst(stale: Bytes, arrivals: seq<Option<Bytes>>, envs: seq<seq<Env<Bytes>>>, k: nat)
    requires |stale| == BUFFER_SIZE && |arrivals| == |envs| && k < |arrivals|
    requires forall i | 0 <= i < |arrivals| && arrivals[i].Some? :: |arrivals[i].value| <= BUFFER_SIZE
    ensures var r := RoundsOf(stale, arrivals[k..], envs[k..]);
            && r[0] == Round(IncomingOf(stale, arrivals[k]), envs[k])
            && r[1..] == RoundsOf(BufferAfter(stale, arrivals[k]), arrivals[k + 1..], envs[k + 1..])
  {
    assert arrivals[k..][1..] == arrivals[k + 1..] && envs[k..][1..] == envs[k + 1..];
  }

  lemma LoopAdvances<P, S>(whole: Looped<P, S>, passes: nat, done: seq<Event<P, S>>, d: Node<P, S>,
                           rounds: seq<Round<P, S>>, idle: bool)
    requires Looping(whole, passes, done, d, rounds, idle) && rounds != []
    ensures var s := NodeModel.SpinOnce(d, rounds[0].inc, rounds[0].envs);
            && Wired(s.node) && SameShape(d, s.node)
            && (GoesOn(s.result, idle) ==> Looping(whole, passes + 1, done + s.events, s.node, rounds[1..], idle))
            && (!GoesOn(s.result, idle) ==> whole == Looped(s.node, done + s.events, passes + 1, Some(s.result)))
  {
    ActFrame(d, ActSpin(rounds[0].inc, rounds[0].envs));
    var s := NodeModel.SpinOnce(d, rounds[0].inc, rounds[0].envs);
    if GoesOn(s.result, idle) {
      var rest := Loop(s.node, rounds[1..], idle);
      assert done + (s.events + rest.events) == (done + s.events) + rest.events;
    }
  }

  lemma RoundAdvances(whole: Looped<Bytes, Bytes>, k: nat, done: seq<Event<Bytes, Bytes>>, d: Node<Bytes, Bytes>,
                      stale: Bytes, arrivals: seq<Option<Bytes>>, envs: seq<seq<Env<Bytes>>>, idle: bool)
    requires |stale| == BUFFER_SIZE && |arrivals| == |envs| && k < |arrivals|
    requires forall i | 0 <= i < |arrivals| && arrivals[i].Some? :: |arrivals[i].value| <= BUFFER_SIZE
    requires Looping(whole, k, done, d, RoundsOf(stale, arrivals[k..], envs[k..]), idle)
    ensures |envs[k]| == |Schedule(d.levels)|
    ensures var s := NodeModel.SpinOnce(d, IncomingOf(stale, arrivals[k]), envs[k]);
            var rest := RoundsOf(BufferAfter(stale, arrivals[k]), arrivals[k + 1..], envs[k + 1..]);
            && Wired(s.node) && SameShape(d, s.node)
            && (GoesOn(s.result, idle) ==> Looping(whole, k + 1, done + s.events, s.node, rest, idle))
            && (!GoesOn(s.result, idle) ==> whole == Looped(s.node, done + s.events, k + 1, Some(s.result)))
  {
    RoundsFirst(stale, arrivals, envs, k);
    LoopAdvances(whole, k, done, d, RoundsOf(stale, arrivals[k..], envs[k..]), idle);
  }

  /** The rest of a pass: what was done so far followed by the remaining stops gives the whole pass. */
  ghost predicate OnTrack<P, S>(whole: Result<P, S>, done: seq<Event<P, S>>, d: Node<P, S>, stops: seq<Stop>,
                                envs: seq<Env<P>>) {
    && |envs| == |stops|
    && var rest := Pass(d, stops, envs);
       whole == Result(rest.node, done + rest.events, rest.ok)
  }

  /** One visit moves the pass one stop ahead, or ends it. */
  lemma VisitAdvances<P, S>(whole: Result<P, S>, done: seq<Event<P, S>>, d: Node<P, S>, stops: seq<Stop>,
                            envs: seq<Env<P>>)
    requires OnTrack(whole, done, d, stops, envs) && stops != []
    ensures var r := VisitOne(d, stops[0].visit, envs[0]);
            && (r.ok ==> OnTrack(whole, done + r.events, r.node, stops[1..], envs[1..]))
            && (!r.ok ==> whole == Result(r.node, done + r.events, false))
  {
  }

  /** What was published so far followed by the remaining calls gives all calls. */
  ghost predicate Publishing<P, S>(whole: Result<P, S>, done: seq<Event<P, S>>, d: Node<P, S>,
                                   calls: seq<PublishCall<P>>) {
    var rest := PublishAll(d, calls);
    whole == Result(rest.node, done + rest.events, true)
  }

  lemma PublishAdvances<P, S>(whole: Result<P, S>, done: seq<Event<P, S>>, d: Node<P, S>, calls: seq<PublishCall<P>>)
    requires Publishing(whole, done, d, calls) && calls != []
    ensures var r := PublishOne(d, calls[0]);
            Publishing(whole, done + r.events, r.node, calls[1..])
  {
  }

  lemma SubStopsHead(priority: int, list: seq<nat>, tail: seq<Stop>)
    requires list != []
    ensures (SubStops(priority, list) + tail)[0] == Stop(priority, SubVisit(list[0]))
    ensures (SubStops(priority, list) + tail)[1..] == SubStops(priority, list[1..]) + tail
  {
  }

  lemma PubStopsHead(priority: int, list: seq<nat>, tail: seq<Stop>)
    requires list != []
    ensures (PubStops(priority, list) + tail)[0] == Stop(priority, PubVisit(list[0]))
    ensures (PubStops(priority, list) + tail)[1..] == PubStops(priority, list[1..]) + tail
  {
  }

  class NodeProcess {
    const name: string
    const buffer: array<byte>
    var nodeId: nat
    var counter: uint32
    var pubs: seq<Pub<Bytes>>
    var subs: seq<Sub<Bytes>>
    var topics: map<nat, TopicInfo>
    var levels: seq<Level>

    ghost predicate Valid()
      reads this
    {
      && buffer.Length == BUFFER_SIZE
      && (forall t | t in topics :: forall j | j in topics[t].subs :: j < |subs|)
    }

    /** No subscriber of the packet's topic copies past the end of the buffer. */
    ghost predicate CopiesFit(datagram: Option<Bytes>)
      requires Valid()
      reads this, buffer
    {
      var inc := IncomingOf(buffer[..], datagram);
      Deliverable(Abs(), inc) ==>
        forall j | j in topics[inc.topicId].subs :: Codec.PAYLOAD + subs[j].size <= BUFFER_SIZE
    }

    /** No subscriber ever does. */
    ghost predicate SubscribersFit()
      reads this
    {
      forall j | 0 <= j < |subs| :: Codec.PAYLOAD + subs[j].size <= BUFFER_SIZE
    }

    ghost function Abs(): Node<Bytes, Bytes>
      reads this
    {
      Node(name, nodeId, counter, pubs, subs, topics, levels)
    }

    /** Callers create all publishers and subscribers before connecting. */
    constructor (name: string, pubs: seq<Pub<Bytes>>, subs: seq<Sub<Bytes>>)
      ensures Valid() && Abs() == Node(name, 0, 0, pubs, subs, map[], [])
    {
      this.name, this.pubs, this.subs := name, pubs, subs;
      buffer := new byte[BUFFER_SIZE](_ => 0);
      nodeId, counter, topics, levels := 0, 0, map[], [];
    }

    /** The end of `register_publisher`. */
    method FilePublisher(i: nat)
      requires Valid() && i < |pubs|
      modifies this`topics, this`levels
      ensures Valid() && Abs() == FilePub(old(Abs()), i)
    {
      var p := pubs[i];
      if p.topicId !in topics {
        topics := topics[p.topicId := NO_TOPIC];
      }
      var e := topics[p.topicId];
      topics := topics[p.topicId := e.(pubs := e.pubs + [i])];
      levels := Insert(levels, p.priority, TopicInfo([i], []));
    }

    /** The end of `register_subscriber`. */
    method FileSubscriber(j: nat)
      requires Valid() && j < |subs|
      modifies this`topics, this`levels
      ensures Valid() && Abs() == FileSub(old(Abs()), j)
    {
      var u := subs[j];
      if u.topicId !in topics {
        topics := topics[u.topicId := NO_TOPIC];
      }
      var e := topics[u.topicId];
      topics := topics[u.topicId := e.(subs := e.subs + [j])];
      levels := Insert(levels, u.priority, TopicInfo([], [j]));
    }

    /** `broker_rpc_blocking`: the RPC ID is the counter before the request's own. No ID is compared on return. */
    method BrokerRpcBlocking(q: Request, r: Dialling.Reaction) returns (a: Option<Response>, packet: Packet)
      modifies this`counter
      ensures counter == Wrap(old(counter) + 1) && packet == ControlPacket(counter, old(counter), q)
      ensures a == if r.Got? && r.down.Reply? then Some(r.down.response) else None
    {
      var rpcId := counter;
      var c := NextCounter();
      packet := ControlPacket(c, rpcId, q);
      match r {
        case SendFails => a := None;
        case ReceiveFails => a := None;
        case Got(down) => a := if down.Reply? then Some(down.response) else None;
      }
    }

    method RegisterMessageType(typeName: string, size: nat, r: Dialling.Reaction)
      returns (id: Option<nat>, packet: Packet)
      modifies this`counter
      ensures counter == Wrap(old(counter) + 1)
      ensures packet == ControlPacket(counter, old(counter), RegisterType(typeName, size))
      ensures id == if r.Got? && r.down.Reply? && r.down.response.TypeRegistered? then Some(r.down.response.typeId)
              else None
    {
      var a;
      a, packet := BrokerRpcBlocking(RegisterType(typeName, size), r);
      id := if a.Some? && a.value.TypeRegistered? then Some(a.value.typeId) else None;
    }

    method RegisterTopic(topicName: string, typeId: nat, priority: int, r: Dialling.Reaction)
      returns (answer: Option<(nat, int)>, packet: Packet)
      modifies this`counter
      ensures counter == Wrap(old(counter) + 1)
      ensures packet == ControlPacket(counter, old(counter), BrokerModel.RegisterTopic(topicName, typeId, priority))
      ensures answer == if r.Got? && r.down.Reply? && r.down.response.TopicRegistered?
                        then Some((r.down.response.topicId, r.down.response.priority)) else None
    {
      var a;
      a, packet := BrokerRpcBlocking(BrokerModel.RegisterTopic(topicName, typeId, priority), r);
      answer := if a.Some? && a.value.TopicRegistered? then Some((a.value.topicId, a.value.priority)) else None;
    }

    method AskPublisherType(i: nat, world: nat -> Dialling.Reaction, ghost whole: Dialling.Connection<Bytes, Bytes>,
                            before: seq<Packet>)
      returns (ok: bool, sent: seq<Packet>)
      requires Valid() && i < |pubs| && Dialling.OnCall(whole, before, Abs(), AtPub(i, AskType), world)
      modifies this`counter, this`pubs
      ensures Valid() && |pubs| == |old(pubs)|
      ensures ok ==> Dialling.OnCall(whole, sent, Abs(), AtPub(i, AskTopic), world)
      ensures !ok ==> whole == Dialling.Connection(Abs(), sent, false)
    {
      Dialling.CallAdvances(whole, before, Abs(), AtPub(i, AskType), world);
      ghost var x := Dialling.Call(Abs(), AtPub(i, AskType), world(|before|));
      var typeId, packet := RegisterMessageType(pubs[i].typeName, pubs[i].size, world(|before|));
      ok, sent := typeId.Some?, before + [packet];
      if ok {
        pubs := pubs[i := pubs[i].(typeId := typeId.value)];
      }
      assert x.ok == ok && sent == before + [x.packet] && Abs() == x.node;
    }

    method AskPublisherTopic(i: nat, world: nat -> Dialling.Reaction, ghost whole: Dialling.Connection<Bytes, Bytes>,
                             before: seq<Packet>)
      returns (ok: bool, sent: seq<Packet>)
      requires Valid() && i < |pubs| && Dialling.OnCall(whole, before, Abs(), AtPub(i, AskTopic), world)
      modifies this`counter, this`pubs
      ensures Valid() && |pubs| == |old(pubs)| && (ok ==> Dialling.OnCall(whole, sent, Abs(), AtPub(i, AskAdd), world))
      ensures !ok ==> whole == Dialling.Connection(Abs(), sent, false)
    {
      Dialling.CallAdvances(whole, before, Abs(), AtPub(i, AskTopic), world);
      ghost var x := Dialling.Call(Abs(), AtPub(i, AskTopic), world(|before|));
      var topic, packet := RegisterTopic(pubs[i].topicName, pubs[i].typeId, pubs[i].priority, world(|before|));
      ok, sent := topic.Some?, before + [packet];
      if ok {
        pubs := pubs[i := pubs[i].(topicId := topic.value.0)];
      }
      assert x.ok == ok && sent == before + [x.packet] && Abs() == x.node;
    }

    method AskPublisherAdd(i: nat, world: nat -> Dialling.Reaction, ghost whole: Dialling.Connection<Bytes, Bytes>,
                           before: seq<Packet>)
      returns (ok: bool, sent: seq<Packet>)
      requires Valid() && i < |pubs| && Dialling.OnCall(whole, before, Abs(), AtPub(i, AskAdd), world)
      modifies this`counter, this`topics, this`levels
      ensures Valid() && |pubs| == |old(pubs)|
      ensures ok ==> Dialling.OnCall(whole, sent, Abs(), NextPc(Abs(), AtPub(i, AskAdd)), world)
      ensures !ok ==> whole == Dialling.Connection(Abs(), sent, false)
    {
      Dialling.CallAdvances(whole, before, Abs(), AtPub(i, AskAdd), world);
      ghost var x := Dialling.Call(Abs(), AtPub(i, AskAdd), world(|before|));
      var a, packet := BrokerRpcBlocking(AddPublisher(nodeId, pubs[i].topicId, pubs[i].typeId), world(|before|));
      ok, sent := a.Some? && a.value.Done?, before + [packet];
      if ok {
        FilePublisher(i);
      }
      assert x.ok == ok && sent == before + [x.packet] && Abs() == x.node;
    }

    /** `register_publisher`: three calls; the priority the broker reports is ignored. */
    method RegisterPublisher(i: nat, world: nat -> Dialling.Reaction, ghost whole: Dialling.Connection<Bytes, Bytes>,
                             before: seq<Packet>)
      returns (ok: bool, sent: seq<Packet>)
      requires Valid() && i < |pubs| && Dialling.OnCall(whole, before, Abs(), AtPub(i, AskType), world)
      modifies this`counter, this`pubs, this`topics, this`levels
      ensures Valid() && |pubs| == |old(pubs)|
      ensures ok ==> Dialling.OnCall(whole, sent, Abs(), NextPc(Abs(), AtPub(i, AskAdd)), world)
      ensures !ok ==> whole == Dialling.Connection(Abs(), sent, false)
    {
      ok, sent := AskPublisherType(i, world, whole, before);
      if ok {
        ok, sent := AskPublisherTopic(i, world, whole, sent);
      }
      if ok {
        ok, sent := AskPublisherAdd(i, world, whole, sent);
      }
    }

    method AskSubscriberType(j: nat, world: nat -> Dialling.Reaction, ghost whole: Dialling.Connection<Bytes, Bytes>,
                             before: seq<Packet>)
      returns (ok: bool, sent: seq<Packet>)
      requires Valid() && j < |subs| && Dialling.OnCall(whole, before, Abs(), AtSub(j, AskType), world)
      modifies this`counter, this`subs
      ensures Valid() && |subs| == |old(subs)|
      ensures ok ==> Dialling.OnCall(whole, sent, Abs(), AtSub(j, AskTopic), world)
      ensures !ok ==> whole == Dialling.Connection(Abs(), sent, false)
    {
      Dialling.CallAdvances(whole, before, Abs(), AtSub(j, AskType), world);
      ghost var x := Dialling.Call(Abs(), AtSub(j, AskType), world(|before|));
      var typeId, packet := RegisterMessageType(subs[j].typeName, subs[j].size, world(|before|));
      ok, sent := typeId.Some?, before + [packet];
      if ok {
        subs := subs[j := subs[j].(typeId := typeId.value)];
      }
      assert x.ok == ok && sent == before + [x.packet] && Abs() == x.node;
    }

    method AskSubscriberTopic(j: nat, world: nat -> Dialling.Reaction, ghost whole: Dialling.Connection<Bytes, Bytes>,
                              before: seq<Packet>)
      returns (ok: bool, sent: seq<Packet>)
      requires Valid() && j < |subs| && Dialling.OnCall(whole, before, Abs(), AtSub(j, AskTopic), world)
      modifies this`counter, this`subs
      ensures Valid() && |subs| == |old(subs)| && (ok ==> Dialling.OnCall(whole, sent, Abs(), AtSub(j, AskAdd), world))
      ensures !ok ==> whole == Dialling.Connection(Abs(), sent, false)
    {
      Dialling.CallAdvances(whole, before, Abs(), AtSub(j, AskTopic), world);
      ghost var x := Dialling.Call(Abs(), AtSub(j, AskTopic), world(|before|));
      var topic, packet := RegisterTopic(subs[j].topicName, subs[j].typeId, subs[j].priority, world(|before|));
      ok, sent := topic.Some?, before + [packet];
      if ok {
        subs := subs[j := subs[j].(topicId := topic.value.0, priority := topic.value.1)];
      }
      assert x.ok == ok && sent == before + [x.packet] && Abs() == x.node;
    }

    method AskSubscriberAdd(j: nat, world: nat -> Dialling.Reaction, ghost whole: Dialling.Connection<Bytes, Bytes>,
                            before: seq<Packet>)
      returns (ok: bool, sent: seq<Packet>)
      requires Valid() && j < |subs| && Dialling.OnCall(whole, before, Abs(), AtSub(j, AskAdd), world)
      modifies this`counter, this`topics, this`levels
      ensures Valid() && |subs| == |old(subs)|
      ensures ok ==> Dialling.OnCall(whole, sent, Abs(), NextPc(Abs(), AtSub(j, AskAdd)), world)
      ensures !ok ==> whole == Dialling.Connection(Abs(), sent, false)
    {
      Dialling.CallAdvances(whole, before, Abs(), AtSub(j, AskAdd), world);
      ghost var x := Dialling.Call(Abs(), AtSub(j, AskAdd), world(|before|));
      var a, packet := BrokerRpcBlocking(AddSubscriber(nodeId, subs[j].topicId, subs[j].typeId), world(|before|));
      ok, sent := a.Some? && a.value.Done?, before + [packet];
      if ok {
        FileSubscriber(j);
      }
      assert x.ok == ok && sent == before + [x.packet] && Abs() == x.node;
    }

    /** `register_subscriber`: three calls; the priority the broker reports is adopted. */
    method RegisterSubscriber(j: nat, world: nat -> Dialling.Reaction, ghost whole: Dialling.Connection<Bytes, Bytes>,
                              before: seq<Packet>)
      returns (ok: bool, sent: seq<Packet>)
      requires Valid() && j < |subs| && Dialling.OnCall(whole, before, Abs(), AtSub(j, AskType), world)
      modifies this`counter, this`subs, this`topics, this`levels
      ensures Valid() && |subs| == |old(subs)|
      ensures ok ==> Dialling.OnCall(whole, sent, Abs(), NextPc(Abs(), AtSub(j, AskAdd)), world)
      ensures !ok ==> whole == Dialling.Connection(Abs(), sent, false)
    {
      ok, sent := AskSubscriberType(j, world, whole, before);
      if ok {
        ok, sent := AskSubscriberTopic(j, world, whole, sent);
      }
      if ok {
        ok, sent := AskSubscriberAdd(j, world, whole, sent);
      }
    }

    /** `register_node`. */
    method RegisterNode(r: Dialling.Reaction) returns (ok: bool, packet: Packet)
      requires Valid()
      modifies this`counter, this`nodeId
      ensures Valid() && Dialling.Exchange(Abs(), packet, ok) == Dialling.Call(old(Abs()), AtNode, r)
    {
      var a;
      a, packet := BrokerRpcBlocking(BrokerModel.RegisterNode(name), r);
      if a.None? || !a.value.NodeRegistered? {
        return false, packet;
      }
      nodeId := a.value.nodeId;
      return true, packet;
    }

    /** The first loop of `connect`. */
    method RegisterPublishers(world: nat -> Dialling.Reaction, ghost whole: Dialling.Connection<Bytes, Bytes>,
                              before: seq<Packet>)
      returns (ok: bool, sent: seq<Packet>)
      requires Valid() && Dialling.OnCall(whole, before, Abs(), FirstPub(Abs()), world)
      modifies this`counter, this`pubs, this`topics, this`levels
      ensures Valid() && (ok ==> Dialling.OnCall(whole, sent, Abs(), FirstSub(Abs()), world))
      ensures !ok ==> whole == Dialling.Connection(Abs(), sent, false)
    {
      ok, sent := true, before;
      var i := 0;
      while i < |pubs|
        invariant 0 <= i <= |pubs| && Valid()
        invariant Dialling.OnCall(whole, sent, Abs(), if i < |pubs| then AtPub(i, AskType) else FirstSub(Abs()), world)
      {
        ok, sent := RegisterPublisher(i, world, whole, sent);
        if !ok {
          return;
        }
        i := i + 1;
      }
    }

    /** The second loop of `connect`. */
    method RegisterSubscribers(world: nat -> Dialling.Reaction, ghost whole: Dialling.Connection<Bytes, Bytes>,
                               before: seq<Packet>)
      returns (ok: bool, sent: seq<Packet>)
      requires Valid() && Dialling.OnCall(whole, before, Abs(), FirstSub(Abs()), world)
      modifies this`counter, this`subs, this`topics, this`levels
      ensures Valid() && (ok ==> Dialling.OnCall(whole, sent, Abs(), AtEnd, world))
      ensures !ok ==> whole == Dialling.Connection(Abs(), sent, false)
    {
      ok, sent := true, before;
      var j := 0;
      while j < |subs|
        invariant 0 <= j <= |subs| && Valid()
        invariant Dialling.OnCall(whole, sent, Abs(), if j < |subs| then AtSub(j, AskType) else AtEnd, world)
      {
        ok, sent := RegisterSubscriber(j, world, whole, sent);
        if !ok {
          return;
        }
        j := j + 1;
      }
    }

    /** `connect`: call number `k` meets `world(k)`; the result lists the requests it tried to send. */
    method Connect(world: nat -> Dialling.Reaction) returns (ok: bool, sent: seq<Packet>)
      requires Valid()
      modifies this`counter, this`nodeId, this`pubs, this`subs, this`topics, this`levels
      ensures Valid()
      ensures Dialling.Connection(Abs(), sent, ok) == Dialling.Connect(old(Abs()), AtNode, world, 0)
    {
      ghost var whole := Dialling.Connect(Abs(), AtNode, world, 0);
      Dialling.CallStarts(Abs(), AtNode, world);
      Dialling.CallAdvances(whole, [], Abs(), AtNode, world);
      var packet;
      ok, packet := RegisterNode(world(0));
      sent := [] + [packet];
      if ok {
        ok, sent := RegisterPublishers(world, whole, sent);
      }
      if ok {
        ok, sent := RegisterSubscribers(world, whole, sent);
      }
      if ok {
        Dialling.CallEnds(whole, sent, Abs(), world);
      }
    }

    method NextCounter() returns (c: uint32)
      modifies this`counter
      ensures c == counter == Wrap(old(counter) + 1)
    {
      var next: int := counter;
      counter := Wrap(next + 1);
      c := counter;
    }

    /** Queues a decoded message at every subscriber of its topic. */
    method QueueAtSubscribers(list: seq<nat>, copy: nat -> Bytes)
      requires Valid() && forall j | j in list :: j < |subs|
      modifies this`subs
      ensures Valid() && Abs() == QueueAll(old(Abs()), list, copy)
    {
      ghost var start := Abs();
      var i := 0;
      while i < |list|
        invariant 0 <= i <= |list|
        invariant Valid() && |subs| == |old(subs)|
        invariant Abs() == start.(subs := subs)
        invariant QueueAll(start, list, copy) == QueueAll(Abs(), list[i..], copy)
      {
        var j := list[i];
        assert j in list && list[i..][0] == j && list[i..][1..] == list[i + 1..];
        subs := subs[j := subs[j].(queue := Enqueue(subs[j].queue, copy(subs[j].size)))];
        i := i + 1;
      }
    }

    /** `process_incoming_message`: -1 on error, 0 if nothing has arrived, 1 if a message was queued. */
    method ProcessIncomingMessage(datagram: Option<Bytes>) returns (r: int)
      requires Valid() && (datagram.Some? ==> |datagram.value| <= BUFFER_SIZE) && CopiesFit(datagram)
      modifies this`subs, buffer
      ensures Valid()
      ensures var inc := IncomingOf(old(buffer[..]), datagram);
              Abs() == ProcessIncoming(old(Abs()), inc) && (r > 0 <==> Deliverable(old(Abs()), inc))
      ensures r == if datagram.None? then 0 else if r > 0 then 1 else -1
      ensures buffer[..] == BufferAfter(old(buffer[..]), datagram)
    {
      ghost var d := Abs();
      ghost var inc := IncomingOf(buffer[..], datagram);
      if datagram.None? {
        return 0;
      }
      ghost var stale := buffer[..];
      Receive(datagram.value);
      assert buffer[..] == Codec.Overlay(stale, datagram.value);
      var packet := Codec.DecodePacketBuffer(buffer, |datagram.value|);
      if !packet.Data? || packet.topicId !in topics || topics[packet.topicId].subs == [] {
        return -1;
      }
      var content := buffer[..];
      var copy := (size: nat) => Codec.CopyOut(content, size);
      QueueAtSubscribers(topics[packet.topicId].subs, copy);
      SameCopy(d, d.topics[packet.topicId].subs, copy, inc.copy);
      return 1;
    }

    /** `recvfrom` into the node's buffer. */
    method Receive(datagram: Bytes)
      requires |datagram| <= buffer.Length
      modifies buffer
      ensures buffer[..] == datagram + old(buffer[|datagram|..])
    {
      var i := 0;
      while i < |datagram|
        invariant 0 <= i <= |datagram|
        invariant buffer[..i] == datagram[..i]
        invariant buffer[|datagram|..] == old(buffer[|datagram|..])
      {
        buffer[i] := datagram[i];
        i := i + 1;
      }
      assert buffer[..] == buffer[..|datagram|] + buffer[|datagram|..];
    }

    /** What the application or a callback publishes. */
    method PublishCalls(calls: seq<PublishCall<Bytes>>) returns (events: seq<Event<Bytes, Bytes>>)
      requires Valid()
      modifies this`pubs
      ensures Valid()
      ensures Result(Abs(), events, true) == PublishAll(old(Abs()), calls)
    {
      ghost var start := Abs();
      ghost var whole := PublishAll(start, calls);
      events := [];
      var i := 0;
      assert calls[0..] == calls && [] + whole.events == whole.events;
      while i < |calls|
        invariant 0 <= i <= |calls|
        invariant Valid() && Abs() == start.(pubs := pubs)
        invariant Publishing(whole, events, Abs(), calls[i..])
      {
        var c := calls[i];
        ghost var before := Abs();
        PublishAdvances(whole, events, Abs(), calls[i..]);
        assert calls[i..][0] == c && calls[i..][1..] == calls[i + 1..];
        var accepted := c.pub < |pubs| && |pubs[c.pub].queue| < CAPACITY;
        if accepted {
          pubs := pubs[c.pub := pubs[c.pub].(queue := pubs[c.pub].queue + [c.message])];
        }
        events := events + [Published(c.pub, c.message, accepted)];
        assert Abs().pubs == PublishOne(before, c).node.pubs;
        i := i + 1;
      }
      assert events + [] == events;
    }

    /** `run_callback` at one stop: the callback first, then the message is popped. */
    method VisitSubscriber(j: nat, e: Env<Bytes>) returns (events: seq<Event<Bytes, Bytes>>)
      requires Valid()
      modifies this`pubs, this`subs
      ensures Valid()
      ensures Result(Abs(), events, true) == VisitOne(old(Abs()), SubVisit(j), e)
    {
      events := [];
      if j < |subs| && |subs[j].queue| != 0 {
        var m := subs[j].queue[0];
        var published := PublishCalls(e.publishes);
        PublishAllFrame(old(Abs()), e.publishes);
        subs := subs[j := subs[j].(queue := subs[j].queue[1..])];
        events := [Handed(j, m)] + published;
      }
    }

    /** `send_data` at one stop, with the packet that goes to the network. */
    method VisitPublisher(i: nat, e: Env<Bytes>)
      returns (ok: bool, events: seq<Event<Bytes, Bytes>>, packet: Option<Bytes>)
      requires Valid()
      modifies this`pubs, this`counter
      ensures Valid()
      ensures Result(Abs(), events, ok) == VisitOne(old(Abs()), PubVisit(i), e)
      ensures packet.Some? <==> CanSend(old(Abs()), i)
      ensures packet.Some? ==>
                var p := old(pubs[i]); packet.value == Codec.EncodeData(counter, p.topicId, p.typeId, p.queue[0])
    {
      ok, events, packet := true, [], None;
      if i < |pubs| && |pubs[i].queue| != 0 {
        var m := pubs[i].queue[0];
        var c := NextCounter();
        packet := Some(Codec.EncodeData(c, pubs[i].topicId, pubs[i].typeId, m));
        if e.sendOk {
          pubs := pubs[i := pubs[i].(queue := pubs[i].queue[1..])];
          events := [Sent(i, m, c)];
        } else {
          ok, events := false, [SendFailed(i, m, c)];
        }
      }
    }

    /** `spin_once`. Stop number `x` of the pass meets the environment `envs[x]`. */
    method SpinOnce(datagram: Option<Bytes>, envs: seq<Env<Bytes>>)
      returns (result: SpinResult, events: seq<Event<Bytes, Bytes>>)
      requires Valid() && |envs| == |Schedule(levels)|
      requires (datagram.Some? ==> |datagram.value| <= BUFFER_SIZE) && CopiesFit(datagram)
      modifies this`subs, this`pubs, this`counter, buffer
      ensures Valid()
      ensures Spin(Abs(), events, result)
              == NodeModel.SpinOnce(old(Abs()), IncomingOf(old(buffer[..]), datagram), envs)
      ensures buffer[..] == BufferAfter(old(buffer[..]), datagram)
    {
      var processed := ProcessIncomingMessage(datagram);
      var workDone := processed > 0;
      var ok, passEvents, sent := RunPass(envs);
      events := passEvents;
      if !ok {
        return Error, events;
      }
      workDone := workDone || sent;
      return if workDone then Success else NoWork, events;
    }

    /** The two nested loops over the priority index. */
    method RunPass(envs: seq<Env<Bytes>>) returns (ok: bool, events: seq<Event<Bytes, Bytes>>, sent: bool)
      requires Valid() && |envs| == |Schedule(levels)|
      modifies this`subs, this`pubs, this`counter
      ensures Valid()
      ensures Result(Abs(), events, ok) == Pass(old(Abs()), Schedule(levels), envs)
      ensures sent <==> AnySent(events)
    {
      ghost var whole := Pass(Abs(), Schedule(levels), envs);
      events, sent := [], false;
      var l, x := 0, 0;
      assert levels[0..] == levels && envs[0..] == envs;
      while l < |levels|
        invariant 0 <= l <= |levels| && 0 <= x <= |envs|
        invariant Valid()
        invariant OnTrack(whole, events, Abs(), Schedule(levels[l..]), envs[x..])
        invariant sent <==> AnySent(events)
      {
        assert levels[l..][0] == levels[l] && levels[l..][1..] == levels[l + 1..];
        ok, events, sent, x := RunLevel(levels[l], whole, events, sent, envs, x, Schedule(levels[l + 1..]));
        if !ok {
          return;
        }
        l := l + 1;
      }
      ok := true;
      assert Schedule(levels[l..]) == [];
      assert events + [] == events;
    }

    /** One level: all subscribers, then all publishers. */
    method RunLevel(level: Level, ghost whole: Result<Bytes, Bytes>, before: seq<Event<Bytes, Bytes>>, sentBefore: bool,
                    envs: seq<Env<Bytes>>, start: nat, ghost rest: seq<Stop>)
      returns (ok: bool, events: seq<Event<Bytes, Bytes>>, sent: bool, x: nat)
      requires Valid() && start <= |envs| && (sentBefore <==> AnySent(before))
      requires OnTrack(whole, before, Abs(), LevelStops(level) + rest, envs[start..])
      modifies this`subs, this`pubs, this`counter
      ensures Valid() && x <= |envs| && (sent <==> AnySent(events))
      ensures ok ==> OnTrack(whole, events, Abs(), rest, envs[x..])
      ensures !ok ==> whole == Result(Abs(), events, false)
    {
      ghost var p := level.priority;
      ghost var tail := PubStops(p, level.info.pubs) + rest;
      assert LevelStops(level) + rest == SubStops(p, level.info.subs) + tail;
      var middle;
      events, middle := RunSubscribers(level.info.subs, p, whole, before, envs, start, tail);
      ok, events, sent, x := RunPublishers(level.info.pubs, p, whole, events, sentBefore, envs, middle, rest);
    }

    method RunSubscribers(list: seq<nat>, ghost p: int, ghost whole: Result<Bytes, Bytes>,
                          before: seq<Event<Bytes, Bytes>>,
                          envs: seq<Env<Bytes>>, start: nat, ghost tail: seq<Stop>)
      returns (events: seq<Event<Bytes, Bytes>>, x: nat)
      requires Valid() && start <= |envs|
      requires OnTrack(whole, before, Abs(), SubStops(p, list) + tail, envs[start..])
      modifies this`subs, this`pubs
      ensures Valid() && x <= |envs| && (AnySent(events) <==> AnySent(before))
      ensures OnTrack(whole, events, Abs(), tail, envs[x..])
    {
      events, x := before, start;
      var k := 0;
      assert list[0..] == list;
      while k < |list|
        invariant 0 <= k <= |list| && x <= |envs| && Valid()
        invariant OnTrack(whole, events, Abs(), SubStops(p, list[k..]) + tail, envs[x..])
        invariant AnySent(events) <==> AnySent(before)
      {
        SubStopsHead(p, list[k..], tail);
        VisitAdvances(whole, events, Abs(), SubStops(p, list[k..]) + tail, envs[x..]);
        assert list[k..][1..] == list[k + 1..] && envs[x..][1..] == envs[x + 1..];
        SubEvents(Abs(), list[k], envs[x]);
        var more := VisitSubscriber(list[k], envs[x]);
        AnySentAppend(events, more);
        events := events + more;
        x, k := x + 1, k + 1;
      }
      assert SubStops(p, list[k..]) + tail == tail;
    }

    method RunPublishers(list: seq<nat>, ghost p: int, ghost whole: Result<Bytes, Bytes>,
                         before: seq<Event<Bytes, Bytes>>,
                         sentBefore: bool, envs: seq<Env<Bytes>>, start: nat, ghost rest: seq<Stop>)
      returns (ok: bool, events: seq<Event<Bytes, Bytes>>, sent: bool, x: nat)
      requires Valid() && start <= |envs| && (sentBefore <==> AnySent(before))
      requires OnTrack(whole, before, Abs(), PubStops(p, list) + rest, envs[start..])
      modifies this`pubs, this`counter
      ensures Valid() && x <= |envs| && (sent <==> AnySent(events))
      ensures ok ==> OnTrack(whole, events, Abs(), rest, envs[x..])
      ensures !ok ==> whole == Result(Abs(), events, false)
    {
      events, sent, x, ok := before, sentBefore, start, true;
      var k := 0;
      assert list[0..] == list;
      while k < |list|
        invariant 0 <= k <= |list| && x <= |envs| && Valid()
        invariant OnTrack(whole, events, Abs(), PubStops(p, list[k..]) + rest, envs[x..])
        invariant sent <==> AnySent(events)
      {
        PubStopsHead(p, list[k..], rest);
        VisitAdvances(whole, events, Abs(), PubStops(p, list[k..]) + rest, envs[x..]);
        assert list[k..][1..] == list[k + 1..] && envs[x..][1..] == envs[x + 1..];
        var good, more, packet := VisitPublisher(list[k], envs[x]);
        AnySentAppend(events, more);
        events := events + more;
        if !good {
          ok := false;
          return;
        }
        assert packet.Some? ==> more[0].Sent?;
        sent := sent || packet.Some?;
        x, k := x + 1, k + 1;
      }
      assert PubStops(p, list[k..]) + rest == rest;
    }

    /** The loop of `spin` (`idle`) or `spin_while_work`, as far as the given arrivals and environments reach. */
    method SpinLoop(arrivals: seq<Option<Bytes>>, envs: seq<seq<Env<Bytes>>>, idle: bool)
      returns (passes: nat, ended: Option<SpinResult>, events: seq<Event<Bytes, Bytes>>)
      requires Valid() && SubscribersFit() && Wired(Abs()) && |arrivals| == |envs|
      requires forall k | 0 <= k < |envs| :: |envs[k]| == |Schedule(levels)|
      requires forall k | 0 <= k < |arrivals| && arrivals[k].Some? :: |arrivals[k].value| <= BUFFER_SIZE
      modifies this`subs, this`pubs, this`counter, buffer
      ensures Valid() && passes <= |arrivals|
      ensures Looped(Abs(), events, passes, ended)
              == Loop(old(Abs()), RoundsOf(old(buffer[..]), arrivals, envs), idle)
    {
      passes, ended, events := 0, None, [];
      ghost var whole := Loop(Abs(), RoundsOf(buffer[..], arrivals, envs), idle);
      assert arrivals[0..] == arrivals && envs[0..] == envs && [] + whole.events == whole.events;
      while ended.None? && passes < |arrivals|
        invariant 0 <= passes <= |arrivals| && Valid() && Wired(Abs()) && levels == old(levels)
        invariant SubscribersFit()
        invariant ended.None? ==> Looping(whole, passes, events, Abs(),
                  RoundsOf(buffer[..], arrivals[passes..], envs[passes..]), idle)
        invariant ended.Some? ==> whole == Looped(Abs(), events, passes, ended)
        decreases ended.None?, |arrivals| - passes
      {
        RoundAdvances(whole, passes, events, Abs(), buffer[..], arrivals, envs, idle);
        var result, more := SpinOnce(arrivals[passes], envs[passes]);
        events, passes := events + more, passes + 1;
        if !GoesOn(result, idle) {
          ended := Some(result);
        }
      }
      if ended.None? {
        assert arrivals[passes..] == [] && envs[passes..] == [];
        assert events + [] == events;
      }
    }

    /** `spin_while_work` on a backlog to which nothing is added, with callbacks that publish nothing. */
    method SpinWhileWork(backlog: seq<Bytes>, ok: (nat, nat) -> bool) returns (good: bool, left: seq<Bytes>)
      requires Valid() && SubscribersFit() && Wired(Abs())
      requires forall k | 0 <= k < |backlog| :: |backlog[k]| <= BUFFER_SIZE
      modifies this`subs, this`pubs, this`counter, buffer
      ensures Valid()
      ensures forall k | 0 <= k < |left| :: |left[k]| <= BUFFER_SIZE
      ensures Work(Abs(), IncomingsOf(buffer[..], left), good)
              == WhileWork(old(Abs()), IncomingsOf(old(buffer[..]), backlog), ok, 0)
    {
      left := backlog;
      var pass := 0;
      ghost var whole := WhileWork(Abs(), IncomingsOf(buffer[..], backlog), ok, 0);
      var result := Success;
      while result == Success
        invariant Valid() && SubscribersFit() && Wired(Abs())
        invariant forall k | 0 <= k < |left| :: |left[k]| <= BUFFER_SIZE
        invariant whole == if result == Success then WhileWork(Abs(), IncomingsOf(buffer[..], left), ok, pass)
                           else Work(Abs(), IncomingsOf(buffer[..], left), result == NoWork)
        decreases result == Success, |left| + Total(pubs)
      {
        var datagram := if left == [] then None else Some(left[0]);
        var envs := Silent(ok, pass, |Schedule(levels)|);
        SpinShrinks(Abs(), IncomingOf(buffer[..], datagram), envs);
        ghost var incs := IncomingsOf(buffer[..], left);
        assert Next(incs) == IncomingOf(buffer[..], datagram);
        assert Rest(incs) == if left == [] then [] else IncomingsOf(BufferAfter(buffer[..], datagram), left[1..]);
        var r, events := SpinOnce(datagram, envs);
        result := r;
        left := if left == [] then [] else left[1..];
        pass := pass + 1;
      }
      good := result == NoWork;
    }
  }

  /** Copying functions that agree give the same deliveries. */
  lemma {:induction false} SameCopy<P, S>(d: Node<P, S>, list: seq<nat>, f: nat -> S, g: nat -> S)
    requires forall size: nat :: f(size) == g(size)
    ensures QueueAll(d, list, f) == QueueAll(d, list, g)
    decreases |list|
  {
    if list != [] {
      var j := list[0];
      var d' := if j < |d.subs|
                then d.(subs := d.subs[j := d.subs[j].(queue := Enqueue(d.subs[j].queue, f(d.subs[j].size)))])
                else d;
      SameCopy(d', list[1..], f, g);
    }
  }

  /** Visiting a subscriber sends nothing. */
  lemma SubEvents<P, S>(d: Node<P, S>, j: nat, e: Env<P>)
    ensures !AnySent(VisitOne(d, SubVisit(j), e).events)
  {
    PublishNeverFails(d, e.publishes);
  }
}
