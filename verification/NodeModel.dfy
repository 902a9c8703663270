/**
 * A node: its publishers and subscribers, the two indexes over them, and one
 * pass of the scheduler. Messages are opaque: `P` is what publishers queue and
 * `S` what subscribers queue. Publishers and subscribers are named by position.
 */
module NodeModel {
  import opened Basics
  import Codec

  const CAPACITY: nat := 10

  datatype Pub<P> = Pub(topicName: string, typeName: string, size: nat, priority: int,
                        topicId: nat, typeId: nat, queue: seq<P>)

  datatype Sub<S> = Sub(topicName: string, typeName: string, size: nat, priority: int,
                        topicId: nat, typeId: nat, queue: seq<S>)

  datatype TopicInfo = TopicInfo(pubs: seq<nat>, subs: seq<nat>)

  const NO_TOPIC: TopicInfo := TopicInfo([], [])

  /** One entry of the priority-sorted map. */
  datatype Level = Level(priority: int, info: TopicInfo)

  datatype Node<P, S> = Node(name: string, nodeId: nat, counter: uint32, pubs: seq<Pub<P>>, subs: seq<Sub<S>>,
                             topics: map<nat, TopicInfo>, levels: seq<Level>)

  // ---- registration in the two indexes -------------------------------------

  /** Adds to the entry for `priority`, creating it in descending order if it is missing. */
  function Insert(levels: seq<Level>, priority: int, more: TopicInfo): seq<Level> {
    if levels == [] || levels[0].priority < priority then [Level(priority, more)] + levels
    else if levels[0].priority == priority then
      var info := levels[0].info;
      [Level(priority, TopicInfo(info.pubs + more.pubs, info.subs + more.subs))] + levels[1..]
    else [levels[0]] + Insert(levels[1..], priority, more)
  }

  function TopicEntry(topics: map<nat, TopicInfo>, t: nat): TopicInfo {
    if t in topics then topics[t] else NO_TOPIC
  }

  /**
   * The tail of `register_publisher`: files publisher `i` under its topic and
   * under the priority it was created with.
   */
  function FilePub<P, S>(d: Node<P, S>, i: nat): Node<P, S>
    requires i < |d.pubs|
  {
    var p := d.pubs[i];
    var e := TopicEntry(d.topics, p.topicId);
    d.(topics := d.topics[p.topicId := e.(pubs := e.pubs + [i])],
       levels := Insert(d.levels, p.priority, TopicInfo([i], [])))
  }

  /** The tail of `register_subscriber`. */
  function FileSub<P, S>(d: Node<P, S>, j: nat): Node<P, S>
    requires j < |d.subs|
  {
    var s := d.subs[j];
    var e := TopicEntry(d.topics, s.topicId);
    d.(topics := d.topics[s.topicId := e.(subs := e.subs + [j])],
       levels := Insert(d.levels, s.priority, TopicInfo([], [j])))
  }

  // ---- queue operations ----------------------------------------------------

  function Enqueue<T>(queue: seq<T>, m: T): seq<T> {
    if |queue| < CAPACITY then queue + [m] else queue
  }

  function Publish<P, S>(d: Node<P, S>, i: nat, m: P): Node<P, S> {
    if i < |d.pubs| then d.(pubs := d.pubs[i := d.pubs[i].(queue := Enqueue(d.pubs[i].queue, m))]) else d
  }

  /** Queues the message at each listed subscriber; every subscriber copies as many bytes as its own size. */
  function QueueAll<P, S>(d: Node<P, S>, list: seq<nat>, copy: nat -> S): Node<P, S>
    decreases |list|
  {
    if list == [] then d
    else
      var j := list[0];
      var d' := if j < |d.subs|
                then d.(subs := d.subs[j := d.subs[j].(queue := Enqueue(d.subs[j].queue, copy(d.subs[j].size)))])
                else d;
      QueueAll(d', list[1..], copy)
  }

  predicate HasSubscribers<P, S>(d: Node<P, S>, t: nat) {
    t in d.topics && d.topics[t].subs != []
  }

  /** Queueing a data message for topic `t`; without a subscriber it is dropped. */
  function Deliver<P, S>(d: Node<P, S>, t: nat, copy: nat -> S): Node<P, S> {
    if HasSubscribers(d, t) then QueueAll(d, d.topics[t].subs, copy) else d
  }

  predicate CanRun<P, S>(d: Node<P, S>, j: nat) {
    j < |d.subs| && d.subs[j].queue != []
  }

  function DropFrontSub<P, S>(d: Node<P, S>, j: nat): Node<P, S>
    requires CanRun(d, j)
  {
    d.(subs := d.subs[j := d.subs[j].(queue := d.subs[j].queue[1..])])
  }

  predicate CanSend<P, S>(d: Node<P, S>, i: nat) {
    i < |d.pubs| && d.pubs[i].queue != []
  }

  /** A send attempt always consumes a counter; only a successful one removes the message. */
  function SendFront<P, S>(d: Node<P, S>, i: nat, ok: bool): Node<P, S>
    requires CanSend(d, i)
  {
    var d' := d.(counter := Wrap(d.counter + 1));
    if ok then d'.(pubs := d.pubs[i := d.pubs[i].(queue := d.pubs[i].queue[1..])]) else d'
  }

  // ---- one pass ------------------------------------------------------------

  datatype Visit = SubVisit(j: nat) | PubVisit(i: nat)

  datatype Stop = Stop(priority: int, visit: Visit)

  function SubStops(priority: int, subs: seq<nat>): (r: seq<Stop>)
    ensures |r| == |subs|
  {
    seq(|subs|, k requires 0 <= k < |subs| => Stop(priority, SubVisit(subs[k])))
  }

  function PubStops(priority: int, pubs: seq<nat>): (r: seq<Stop>)
    ensures |r| == |pubs|
  {
    seq(|pubs|, k requires 0 <= k < |pubs| => Stop(priority, PubVisit(pubs[k])))
  }

  function LevelStops(l: Level): seq<Stop> {
    SubStops(l.priority, l.info.subs) + PubStops(l.priority, l.info.pubs)
  }

  /** The stops of a pass: levels from the highest priority down, subscribers before publishers. */
  function Schedule(levels: seq<Level>): seq<Stop> {
    if levels == [] then [] else LevelStops(levels[0]) + Schedule(levels[1..])
  }

  /** `v` is among the stops of every pass. */
  predicate Visited<P, S>(d: Node<P, S>, v: Visit) {
    exists k | 0 <= k < |Schedule(d.levels)| :: Schedule(d.levels)[k].visit == v
  }

  datatype PublishCall<P> = PublishCall(pub: nat, message: P)

  /** The outside world at one stop: what the callback publishes and whether a send succeeds. */
  datatype Env<P> = Env(publishes: seq<PublishCall<P>>, sendOk: bool)

  datatype Event<P, S> =
    | Published(pub: nat, message: P, accepted: bool)
    | Handed(sub: nat, delivered: S)
    | Sent(pub: nat, message: P, counter: uint32)
    | SendFailed(pub: nat, message: P, counter: uint32)

  datatype Result<P, S> = Result(node: Node<P, S>, events: seq<Event<P, S>>, ok: bool)

  function PublishOne<P, S>(d: Node<P, S>, c: PublishCall<P>): Result<P, S> {
    Result(Publish(d, c.pub, c.message),
           [Published(c.pub, c.message, c.pub < |d.pubs| && |d.pubs[c.pub].queue| < CAPACITY)], true)
  }

  function PublishAll<P, S>(d: Node<P, S>, calls: seq<PublishCall<P>>): Result<P, S>
    decreases |calls|
  {
    if calls == [] then Result(d, [], true)
    else
      var r := PublishOne(d, calls[0]);
      var rest := PublishAll(r.node, calls[1..]);
      Result(rest.node, r.events + rest.events, true)
  }

  /** A subscriber's callback runs before its message is popped; a failed send ends the pass. */
  function VisitOne<P, S>(d: Node<P, S>, v: Visit, e: Env<P>): Result<P, S> {
    match v
    case SubVisit(j) =>
      if CanRun(d, j) then
        var m := d.subs[j].queue[0];
        var r := PublishAll(d, e.publishes);
        if CanRun(r.node, j) then Result(DropFrontSub(r.node, j), [Handed(j, m)] + r.events, true)
        else Result(r.node, [Handed(j, m)] + r.events, false)
      else Result(d, [], true)
    case PubVisit(i) =>
      if CanSend(d, i) then
        var d' := SendFront(d, i, e.sendOk);
        var m := d.pubs[i].queue[0];
        Result(d', [if e.sendOk then Sent(i, m, d'.counter) else SendFailed(i, m, d'.counter)], e.sendOk)
      else Result(d, [], true)
  }

  function Pass<P, S>(d: Node<P, S>, stops: seq<Stop>, envs: seq<Env<P>>): Result<P, S>
    requires |envs| == |stops|
    decreases |stops|
  {
    if stops == [] then Result(d, [], true)
    else
      var r := VisitOne(d, stops[0].visit, envs[0]);
      if !r.ok then r
      else
        var rest := Pass(r.node, stops[1..], envs[1..]);
        Result(rest.node, r.events + rest.events, rest.ok)
  }

  /** The packet that `process_incoming_message` finds, if any. */
  datatype Incoming<S> = Nothing | Undecodable | Message(topicId: nat, copy: nat -> S)

  /** What the scheduler makes of `n` bytes received at the front of a buffer. */
  function Understood<S>(buffer: Bytes, n: nat, copy: nat -> S): Incoming<S>
    requires n <= |buffer| && Codec.PAYLOAD <= |buffer|
  {
    var d := Codec.Decode(buffer, n);
    if d.Data? then Message(d.topicId, copy) else Undecodable
  }

  predicate Deliverable<P, S>(d: Node<P, S>, inc: Incoming<S>) {
    inc.Message? && HasSubscribers(d, inc.topicId)
  }

  function ProcessIncoming<P, S>(d: Node<P, S>, inc: Incoming<S>): Node<P, S> {
    if inc.Message? then Deliver(d, inc.topicId, inc.copy) else d
  }

  datatype SpinResult = Success | NoWork | Error

  predicate AnySent<P, S>(events: seq<Event<P, S>>) {
    exists k | 0 <= k < |events| :: events[k].Sent?
  }

  datatype Spin<P, S> = Spin(node: Node<P, S>, events: seq<Event<P, S>>, result: SpinResult)

  /** `spin_once`; running callbacks does not count as work. */
  function SpinOnce<P, S>(d: Node<P, S>, inc: Incoming<S>, envs: seq<Env<P>>): Spin<P, S>
    requires |envs| == |Schedule(d.levels)|
  {
    var r := Pass(ProcessIncoming(d, inc), Schedule(d.levels), envs);
    Spin(r.node, r.events,
         if !r.ok then Error else if Deliverable(d, inc) || AnySent(r.events) then Success else NoWork)
  }
}
