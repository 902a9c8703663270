/**
 * The scheduler does not look into messages: it runs the same on payloads
 * alone, as a node does, and on payloads with their origin, as the system
 * model needs them to state where a message comes from.
 */
module Relabelling {
  import opened Basics
  import opened NodeModel
  import opened System
  import Nodes

  function MapAll<S, T>(xs: seq<S>, f: S -> T): (ys: seq<T>)
    ensures |ys| == |xs| && forall k | 0 <= k < |xs| :: ys[k] == f(xs[k])
  {
    seq(|xs|, k requires 0 <= k < |xs| => f(xs[k]))
  }

  function MapSub<S, T>(u: Sub<S>, f: S -> T): Sub<T> {
    Sub(u.topicName, u.typeName, u.size, u.priority, u.topicId, u.typeId, MapAll(u.queue, f))
  }

  /** The node with every queued message relabelled. */
  function MapNode<P, S, T>(d: Node<P, S>, f: S -> T): (e: Node<P, T>)
    ensures e.pubs == d.pubs && e.topics == d.topics && e.levels == d.levels && e.counter == d.counter
    ensures |e.subs| == |d.subs| && forall j | 0 <= j < |d.subs| :: e.subs[j] == MapSub(d.subs[j], f)
  {
    Node(d.name, d.nodeId, d.counter, d.pubs,
         seq(|d.subs|, j requires 0 <= j < |d.subs| => MapSub(d.subs[j], f)), d.topics, d.levels)
  }

  function MapEvent<P, S, T>(e: Event<P, S>, f: S -> T): Event<P, T> {
    match e
    case Published(pub, message, accepted) => Published(pub, message, accepted)
    case Handed(sub, delivered) => Handed(sub, f(delivered))
    case Sent(pub, message, counter) => Sent(pub, message, counter)
    case SendFailed(pub, message, counter) => SendFailed(pub, message, counter)
  }

  function MapEvents<P, S, T>(events: seq<Event<P, S>>, f: S -> T): (r: seq<Event<P, T>>)
    ensures |r| == |events| && forall k | 0 <= k < |events| :: r[k] == MapEvent(events[k], f)
  {
    seq(|events|, k requires 0 <= k < |events| => MapEvent(events[k], f))
  }

  function MapResult<P, S, T>(r: Result<P, S>, f: S -> T): Result<P, T> {
    Result(MapNode(r.node, f), MapEvents(r.events, f), r.ok)
  }

  /** `b` is `a` relabelled. */
  ghost predicate Agree<S, T>(a: Incoming<S>, b: Incoming<T>, f: S -> T) {
    match (a, b)
    case (Message(t, copy), Message(t', copy')) => t == t' && forall size: nat :: copy'(size) == f(copy(size))
    case (Nothing, Nothing) => true
    case (Undecodable, Undecodable) => true
    case _ => false
  }

  lemma {:induction false} QueueAllMaps<P, S, T>(d: Node<P, S>, list: seq<nat>, copy: nat -> S, copy': nat -> T,
                                                 f: S -> T)
    requires forall size: nat :: copy'(size) == f(copy(size))
    ensures QueueAll(MapNode(d, f), list, copy') == MapNode(QueueAll(d, list, copy), f)
    decreases |list|
  {
    if list != [] {
      var j := list[0];
      if j < |d.subs| {
        var d' := d.(subs := d.subs[j := d.subs[j].(queue := Enqueue(d.subs[j].queue, copy(d.subs[j].size)))]);
        var e := MapNode(d, f);
        assert Enqueue(e.subs[j].queue, copy'(e.subs[j].size))
            == MapAll(Enqueue(d.subs[j].queue, copy(d.subs[j].size)), f);
        assert e.(subs := e.subs[j := e.subs[j].(queue := Enqueue(e.subs[j].queue, copy'(e.subs[j].size)))])
            == MapNode(d', f);
        QueueAllMaps(d', list[1..], copy, copy', f);
      } else {
        QueueAllMaps(d, list[1..], copy, copy', f);
      }
    }
  }

  lemma MapAppend<P, S, T>(a: seq<Event<P, S>>, b: seq<Event<P, S>>, f: S -> T)
    ensures MapEvents(a + b, f) == MapEvents(a, f) + MapEvents(b, f)
  {
  }

  lemma {:induction false} PublishAllMaps<P, S, T>(d: Node<P, S>, calls: seq<PublishCall<P>>, f: S -> T)
    ensures PublishAll(MapNode(d, f), calls) == MapResult(PublishAll(d, calls), f)
    decreases |calls|
  {
    if calls != [] {
      var r := PublishOne(d, calls[0]);
      assert PublishOne(MapNode(d, f), calls[0]) == MapResult(r, f);
      PublishAllMaps(r.node, calls[1..], f);
      var rest := PublishAll(r.node, calls[1..]);
      MapAppend(r.events, rest.events, f);
    }
  }

  lemma SubVisitMaps<P, S, T>(d: Node<P, S>, j: nat, e: Env<P>, f: S -> T)
    requires CanRun(d, j)
    ensures VisitOne(MapNode(d, f), SubVisit(j), e) == MapResult(VisitOne(d, SubVisit(j), e), f)
  {
    PublishAllMaps(d, e.publishes, f);
    var m := d.subs[j].queue[0];
    var r := PublishAll(d, e.publishes);
    MapAppend([Handed(j, m)], r.events, f);
    if CanRun(r.node, j) {
      DropMaps(r.node, j, f);
    }
  }

  lemma DropMaps<P, S, T>(d: Node<P, S>, j: nat, f: S -> T)
    requires CanRun(d, j)
    ensures DropFrontSub(MapNode(d, f), j) == MapNode(DropFrontSub(d, j), f)
  {
    assert MapAll(d.subs[j].queue, f)[1..] == MapAll(d.subs[j].queue[1..], f);
    assert DropFrontSub(MapNode(d, f), j).subs == MapNode(DropFrontSub(d, j), f).subs;
  }

  lemma VisitMaps<P, S, T>(d: Node<P, S>, v: Visit, e: Env<P>, f: S -> T)
    ensures VisitOne(MapNode(d, f), v, e) == MapResult(VisitOne(d, v, e), f)
  {
    if v.SubVisit? && CanRun(d, v.j) {
      SubVisitMaps(d, v.j, e, f);
    } else if v.PubVisit? && CanSend(d, v.i) {
      assert MapNode(SendFront(d, v.i, e.sendOk), f) == SendFront(MapNode(d, f), v.i, e.sendOk);
    }
  }

  lemma {:induction false} PassMaps<P, S, T>(d: Node<P, S>, stops: seq<Stop>, envs: seq<Env<P>>, f: S -> T)
    requires |envs| == |stops|
    ensures Pass(MapNode(d, f), stops, envs) == MapResult(Pass(d, stops, envs), f)
    decreases |stops|
  {
    if stops != [] {
      VisitMaps(d, stops[0].visit, envs[0], f);
      var r := VisitOne(d, stops[0].visit, envs[0]);
      if r.ok {
        PassMaps(r.node, stops[1..], envs[1..], f);
        var rest := Pass(r.node, stops[1..], envs[1..]);
        MapAppend(r.events, rest.events, f);
      }
    }
  }

  /** `spin_once` on relabelled messages does the same, relabelled. */
  lemma SpinMaps<P, S, T>(d: Node<P, S>, inc: Incoming<S>, inc': Incoming<T>, envs: seq<Env<P>>, f: S -> T)
    requires Agree(inc, inc', f) && |envs| == |Schedule(d.levels)|
    ensures var s := SpinOnce(d, inc, envs);
            SpinOnce(MapNode(d, f), inc', envs) == Spin(MapNode(s.node, f), MapEvents(s.events, f), s.result)
  {
    if Deliverable(d, inc) {
      QueueAllMaps(d, d.topics[inc.topicId].subs, inc.copy, inc'.copy, f);
    }
    var d1 := ProcessIncoming(d, inc);
    assert ProcessIncoming(MapNode(d, f), inc') == MapNode(d1, f);
    PassMaps(d1, Schedule(d.levels), envs, f);
    var events := Pass(d1, Schedule(d.levels), envs).events;
    SentMaps(events, f);
  }

  lemma SentMaps<P, S, T>(events: seq<Event<P, S>>, f: S -> T)
    ensures AnySent(MapEvents(events, f)) <==> AnySent(events)
  {
    if k :| 0 <= k < |events| && events[k].Sent? {
      assert MapEvents(events, f)[k].Sent?;
    }
  }

  function Payload(): Msg -> Bytes {
    (m: Msg) => m.payload
  }

  /**
   * A node that receives a forwarded packet does, on payloads alone, what the
   * system model does on messages with their origin.
   */
  lemma NodeSpinsAsSystem(h: Host, f: Flight, stale: Bytes, envs: seq<Env<Bytes>>)
    requires |stale| == BUFFER_SIZE && f.down.Forward? && |envs| == |Schedule(h.core.levels)|
    ensures var s := SpinOnce(h.core, Carried(f, stale), envs);
            SpinOnce(MapNode(h.core, Payload()), Nodes.IncomingOf(stale, Some(f.down.bytes)), envs)
            == Spin(MapNode(s.node, Payload()), MapEvents(s.events, Payload()), s.result)
  {
    SpinMaps(h.core, Carried(f, stale), Nodes.IncomingOf(stale, Some(f.down.bytes)), envs, Payload());
  }
}
