/** What the protocol can always do next when the network does not interfere. */
module Progress {
  import opened Basics
  import opened BrokerModel
  import opened BrokerProofs
  import opened NodeModel
  import opened SchedulerProofs
  import opened System
  import opened SystemCounters
  import opened SystemViews
  import opened SystemData
  import opened SystemDelivery
  import opened Theorems
  import opened SpinPaths
  import Codec
  import Dialling

  // ---- a call completes ----------------------------------------------------

  /** Once all earlier packets have arrived, the next one sent is accepted. */
  lemma NextAccepted(t: Sys, n: nat, i: nat)
    requires Shaped(t) && CountersOk(t) && n < |t.hosts|
    requires |t.accepted[n]| == i && |t.hosts[n].sent| == i + 1 < WORD && t.hosts[n].sent[i].ok
    ensures Enabled(t, BrokerTurn(n, i)) && AcceptsPacket(t.broker, n, t.hosts[n].sent[i].packet)
  {
    AcceptsNext(t.broker, n, t.hosts[n], t.accepted[n], t.inbox[n], i);
  }

  lemma CallAccepted(s: Sys, n: nat)
    requires Shaped(s) && n < |s.hosts| && CountersOk(s) && Enabled(s, Step.Call(n, true))
    requires |s.accepted[n]| == |s.hosts[n].sent| && |s.hosts[n].sent| + 1 < WORD
    ensures var t := Apply(s, Step.Call(n, true));
            && Shaped(t) && Enabled(t, BrokerTurn(n, |s.hosts[n].sent|))
            && AcceptsPacket(t.broker, n, t.hosts[n].sent[|s.hosts[n].sent|].packet)
  {
    HostStepKeepsCounters(s, Step.Call(n, true));
    NextAccepted(Apply(s, Step.Call(n, true)), n, |s.hosts[n].sent|);
  }

  /** An accepted request is answered at once, at the end of the sender's inbox. */
  lemma TurnAnswers(s: Sys, n: nat, i: nat)
    requires Shaped(s) && Enabled(s, BrokerTurn(n, i)) && AcceptsPacket(s.broker, n, s.hosts[n].sent[i].packet)
    requires s.hosts[n].sent[i].packet.ControlPacket?
    ensures var t := Apply(s, BrokerTurn(n, i));
            var p := s.hosts[n].sent[i].packet;
            var (r, a) := Process(s.broker.registry, n, p.rpcId, p.request);
            && Shaped(t) && t.hosts == s.hosts && t.broker.registry == r && |t.accepted[n]| == |s.accepted[n]| + 1
            && t.inbox[n] == s.inbox[n] + [Flight(Reply(p.counter, a), Origin(n, i))]
  {
    RepliesGoHome(s.broker, n, s.hosts[n].sent[i].packet, n, Origin(n, i));
  }

  /** What a node hears when its request and the response get through. */
  function Heard(r: Registry, n: nat, h: Host): Dialling.Reaction {
    Dialling.Got(Reply(Wrap(h.core.counter + 1), Process(r, n, h.core.counter, RequestAt(h.core, h.pc)).1))
  }

  /**
   * From a connecting node whose packets have all arrived, request, broker turn
   * and response complete the current call: the node moves on exactly if the
   * broker does not refuse the request.
   */
  lemma CallCompletes(s: Sys, n: nat) returns (states: seq<Sys>, steps: seq<Step>, t: Sys)
    requires Shaped(s) && n < |s.hosts| && CountersOk(s) && ViewsOk(s) && Enabled(s, Step.Call(n, true))
    requires |s.accepted[n]| == |s.hosts[n].sent| && |s.hosts[n].sent| + 1 < WORD
    ensures Links(s, states, steps, t) && n < |t.hosts|
    ensures t.hosts == s.hosts[n := Dialling.HostAfterCall(s.hosts[n], Heard(s.broker.registry, n, s.hosts[n]))]
    ensures var h := s.hosts[n];
            var (r, a) := Process(s.broker.registry, n, h.core.counter, RequestAt(h.core, h.pc));
            && t.broker.registry == r
            && |t.accepted[n]| == |t.hosts[n].sent| == |h.sent| + 1
            && (if a.Failure? then t.hosts[n].status.Failed?
                else t.hosts[n].pc == NextPc(h.core, h.pc)
                     && t.hosts[n].status == (if t.hosts[n].pc.AtEnd? then Connected else Connecting))
  {
    var h, r := s.hosts[n], s.broker.registry;
    var i, k := |h.sent|, |s.inbox[n]|;
    var s1 := Apply(s, Step.Call(n, true));
    CallAccepted(s, n);
    var s2 := Apply(s1, BrokerTurn(n, i));
    TurnAnswers(s1, n, i);
    assert s2.inbox[n][k].down == Heard(r, n, h).down;
    t := Apply(s2, Answer(n, k));
    AnswerCompletes(r, n, h);
    ThreeSteps(s, Step.Call(n, true), BrokerTurn(n, i), Answer(n, k));
    states, steps := [s, s1] + [s2] + [t], [Step.Call(n, true)] + [BrokerTurn(n, i)] + [Answer(n, k)];
  }

  lemma ThreeSteps(s: Sys, a: Step, b: Step, c: Step)
    requires Shaped(s) && Enabled(s, a)
    requires var s1 := Apply(s, a); Shaped(s1) && Enabled(s1, b)
    requires var s2 := Apply(Apply(s, a), b); Shaped(s2) && Enabled(s2, c)
    ensures var s1 := Apply(s, a);
            var s2 := Apply(s1, b);
            var t := Apply(s2, c);
            Links(s, [s, s1] + [s2] + [t], [a] + [b] + [c], t)
  {
    var s1 := Apply(s, a);
    var s2 := Apply(s1, b);
    OneStep(s, a);
    Snoc(s, [s, s1], [a], s1, b);
    Snoc(s, [s, s1] + [s2], [a] + [b], s2, c);
  }

  /** The last third of a call: the node hears the answer. */
  lemma AnswerCompletes(r: Registry, n: nat, h: Host)
    requires ViewAt(r, n, h) && RegistryOk(r) && h.pc != AtEnd
    ensures var a := Process(r, n, h.core.counter, RequestAt(h.core, h.pc)).1;
            var g := Dialling.HostAfterCall(h, Heard(r, n, h));
            && |g.sent| == |h.sent| + 1
            && (if a.Failure? then g.status.Failed?
                else g.pc == NextPc(h.core, h.pc) && g.status == (if g.pc.AtEnd? then Connected else Connecting))
  {
    var (r', a) := Process(r, n, h.core.counter, RequestAt(h.core, h.pc));
    ProcessAnswers(r, n, h.core.counter, RequestAt(h.core, h.pc));
    LearnsAnswer(h, n, r', a, Wrap(h.core.counter + 1));
  }

  /** A node understands every response of the right kind, and fails on a refusal. */
  lemma LearnsAnswer(h: Host, n: nat, r: Registry, a: Response, counter: uint32)
    requires PcInRange(h.core, h.pc) && h.pc != AtEnd && Answers(r, n, RequestAt(h.core, h.pc), a)
    ensures var g := DoAnswer(DoCall(h, true), Reply(counter, a));
            && |g.sent| == |h.sent| + 1
            && (if a.Failure? then g.status.Failed?
                else g.pc == NextPc(h.core, h.pc) && g.status == (if g.pc.AtEnd? then Connected else Connecting))
  {
  }

  // ---- a message gets through ----------------------------------------------

  /** Topics of the same name have the same ID everywhere. */
  lemma SameTopicId(r: Registry, a: nat, b: nat)
    requires RegistryOk(r) && a < |r.topics| && b < |r.topics| && r.topics[a].name == r.topics[b].name
    ensures a == b
  {
    var names := TopicNames(r.topics);
    assert names[a] == names[b];
  }

  /** A listed subscriber gets at least one copy. */
  lemma ListedIsSubscribed(r: Registry, n: nat, h: Host, j: nat)
    requires ViewAt(r, n, h) && h.pc != AtNode && j < |h.core.subs| && SubListed(r, h, j)
    ensures Subscribed(r, h.core.subs[j].topicId, n) >= 1
  {
    var ids := r.topics[h.core.subs[j].topicId].subscribers;
    var k :| 0 <= k < |ids| && ids[k] == h.core.nodeId;
    assert Addresses(r, ids)[k] == n;
    assert n in Addresses(r, ids);
  }

  lemma SendAccepted(s: Sys, q: nat, p: nat)
    requires Shaped(s) && CountersOk(s) && q < |s.hosts|
    requires Enabled(s, SendOut(q, p, true)) && |s.accepted[q]| == |s.hosts[q].sent|
    requires Bounded(s) && |s.hosts[q].sent| + 1 < WORD
    ensures var i := |s.hosts[q].sent|;
            var t := Apply(s, SendOut(q, p, true));
            && Shaped(t) && Bounded(t) && Enabled(t, BrokerTurn(q, i))
            && t.hosts[q].sent[i].packet.DataPacket? && AcceptsPacket(t.broker, q, t.hosts[q].sent[i].packet)
  {
    HostStepKeepsCounters(s, SendOut(q, p, true));
    NextAccepted(Apply(s, SendOut(q, p, true)), q, |s.hosts[q].sent|);
  }

  /** Attempt `i` of node `q` carries a message under the topic ID of subscriber `j` of the connected node `n`. */
  ghost predicate Addressed(hosts: seq<Host>, q: nat, i: nat, n: nat, j: nat) {
    && q < |hosts| && i < |hosts[q].sent| && n < |hosts| && j < |hosts[n].core.subs| && hosts[n].pc == AtEnd
    && hosts[q].sent[i].source.FromPub? && hosts[q].sent[i].source.pub < |hosts[q].core.pubs|
    && hosts[q].core.pubs[hosts[q].sent[i].source.pub].topicId == hosts[n].core.subs[j].topicId
  }

  /** An accepted data packet reaches every connected subscriber of its publisher's topic ID. */
  lemma TurnReaches(s: Sys, q: nat, i: nat, n: nat, j: nat)
    requires Shaped(s) && CountersOk(s) && ViewsOk(s) && PublishedOk(s) && Bounded(s)
    requires Enabled(s, BrokerTurn(q, i)) && Addressed(s.hosts, q, i, n, j)
    requires s.hosts[q].sent[i].packet.DataPacket? && AcceptsPacket(s.broker, q, s.hosts[q].sent[i].packet)
    ensures var t := Apply(s, BrokerTurn(q, i));
            && |t.inbox| == |s.inbox| && |t.inbox[n]| > |s.inbox[n]| && t.hosts == s.hosts
            && t.inbox[n][|s.inbox[n]|].down.Forward? && t.inbox[n][|s.inbox[n]|].origin == Origin(q, i)
  {
    var r := s.broker.registry;
    assert ViewAt(r, n, s.hosts[n]) && ListedAt(r, s.hosts[n]) && SubListed(r, s.hosts[n], j);
    ListedIsSubscribed(r, n, s.hosts[n], j);
    NewCopies(s, q, i, n);
    var packet := s.hosts[q].sent[i].packet;
    RepliesGoHome(s.broker, q, packet, n, Origin(q, i));
    var more := Arriving(Receive(s.broker, q, packet).sends, n, Origin(q, i));
    assert DoBrokerTurn(s, q, i).inbox[n] == s.inbox[n] + more;
  }

  /** A connected node that takes in a traced packet for one of its subscribers can hand its payload over. */
  lemma TakenIsHanded(s: Sys, n: nat, k: nat, stale: Bytes, j: nat)
    requires Shaped(s) && Bounded(s) && n < |s.hosts| && j < |s.hosts[n].core.subs|
    requires ViewsOk(s) && IndexesOk(s) && PublishedOk(s) && IntegrityOk(s)
    requires Enabled(s, TakeIn(n, k, stale)) && s.hosts[n].pc == AtEnd && s.inbox[n][k].down.Forward?
    requires Traced(s, s.inbox[n][k].origin)
    requires PubOf(s, s.inbox[n][k].origin).topicId == s.hosts[n].core.subs[j].topicId
    requires s.hosts[n].core.subs[j].queue == []
    ensures var o := s.inbox[n][k].origin;
            var t := Apply(s, TakeIn(n, k, stale));
            && Shaped(t) && Enabled(t, Callback(n, j))
            && var u := Apply(t, Callback(n, j));
               && j < |u.hosts[n].handed|
               && u.hosts[n].handed[j] == s.hosts[n].handed[j] + [Msg(PayloadOf(s, o), o)]
  {
    var f := s.inbox[n][k];
    var h := s.hosts[n];
    var t := Apply(s, TakeIn(n, k, stale));
    ApplyShaped(s, TakeIn(n, k, stale));
    ApplyHost(s, TakeIn(n, k, stale), n);
    TakeInFrame(h, f, stale);
    TakenIsQueued(s, n, k, stale, j);
    SubVisited(h, j) by { assert IndexesAt(h); }
    assert Visited(t.hosts[n].core, SubVisit(j));
  }

  lemma SubVisited(h: Host, j: nat)
    requires IndexesAt(h) && h.pc == AtEnd && j < |h.core.subs|
    ensures Visited(h.core, SubVisit(j))
  {
  }

  /** A filed subscriber with an empty queue receives its own copy. */
  lemma DeliverReaches(h: Host, j: nat, copy: nat -> Msg)
    requires TopicsAt(h) && j < |h.core.subs| && SubFiled(h.pc, j) && h.core.subs[j].queue == []
    ensures var d := Deliver(h.core, h.core.subs[j].topicId, copy);
            |d.subs| == |h.core.subs| && d.subs[j].queue == [copy(h.core.subs[j].size)]
  {
    assert InTopic(h, j);
    QueueAllAt(h.core, h.core.topics[h.core.subs[j].topicId].subs, copy);
  }

  lemma TakenIsQueued(s: Sys, n: nat, k: nat, stale: Bytes, j: nat)
    requires Shaped(s) && n < |s.hosts| && k < |s.inbox[n]| && |stale| == BUFFER_SIZE && j < |s.hosts[n].core.subs|
    requires ViewsOk(s) && IndexesOk(s) && PublishedOk(s) && IntegrityOk(s) && Bounded(s)
    requires s.hosts[n].pc == AtEnd && s.inbox[n][k].down.Forward?
    requires Traced(s, s.inbox[n][k].origin)
    requires PubOf(s, s.inbox[n][k].origin).topicId == s.hosts[n].core.subs[j].topicId
    requires s.hosts[n].core.subs[j].queue == []
    ensures var o := s.inbox[n][k].origin;
            var g := DoTakeIn(s.hosts[n], s.inbox[n][k], stale);
            j < |g.core.subs| && g.core.subs[j].queue == [Msg(PayloadOf(s, o), o)]
  {
    var h := s.hosts[n];
    assert IndexesAt(h);
    var copy := TakeInDelivers(s, n, k, stale);
    DeliverReaches(h, j, copy);
    SubscriberAgrees(s, n, j, s.inbox[n][k].origin);
  }

  /** Sending and forwarding keep the invariant and the bounds. */
  lemma SendAndForwardKeep(s: Sys, q: nat, p: nat)
    requires Shaped(s) && q < |s.hosts| && Enabled(s, SendOut(q, p, true)) && |s.accepted[q]| == |s.hosts[q].sent|
    requires Bounded(s) && |s.hosts[q].sent| + 1 < WORD && Invariant(s)
    ensures var i := |s.hosts[q].sent|;
            var s1 := Apply(s, SendOut(q, p, true));
            && Shaped(s1) && Bounded(s1) && Invariant(s1) && Enabled(s1, BrokerTurn(q, i))
            && s1.hosts[q].sent[i].packet.DataPacket? && AcceptsPacket(s1.broker, q, s1.hosts[q].sent[i].packet)
            && var s2 := Apply(s1, BrokerTurn(q, i));
               Shaped(s2) && Bounded(s2) && Invariant(s2)
  {
    var i := |s.hosts[q].sent|;
    SendAccepted(s, q, p);
    StepInvariant(s, SendOut(q, p, true));
    var s1 := Apply(s, SendOut(q, p, true));
    StepInvariant(s1, BrokerTurn(q, i));
    TurnBounded(s1, q, i);
  }

  lemma SendReady(s: Sys, q: nat, p: nat, n: nat, j: nat)
    requires Shaped(s) && q < |s.hosts| && n < |s.hosts| && j < |s.hosts[n].core.subs|
    requires Enabled(s, SendOut(q, p, true)) && Shaped(Apply(s, SendOut(q, p, true))) && s.hosts[n].pc == AtEnd
    requires s.hosts[q].core.pubs[p].topicName == s.hosts[n].core.subs[j].topicName
    requires ViewsOk(s) && IndexesOk(s) && PublishedOk(s)
    ensures Addressed(Apply(s, SendOut(q, p, true)).hosts, q, |s.hosts[q].sent|, n, j)
    ensures Apply(s, SendOut(q, p, true)).inbox == s.inbox
    ensures |Apply(s, SendOut(q, p, true)).hosts| == |s.hosts|
  {
    SendOutDetails(s, q, p, n, j);
  }

  /** What the forwarded packet carries. */
  lemma ForwardedPayload(s: Sys, q: nat, p: nat, n: nat, j: nat, s2: Sys)
    requires Shaped(s) && q < |s.hosts| && n < |s.hosts| && j < |s.hosts[n].core.subs|
    requires ViewsOk(s) && IndexesOk(s) && PublishedOk(s)
    requires Enabled(s, SendOut(q, p, true)) && Shaped(Apply(s, SendOut(q, p, true)))
    requires s.hosts[n].pc == AtEnd && s.hosts[q].core.pubs[p].topicName == s.hosts[n].core.subs[j].topicName
    requires Shaped(s2) && s2.hosts == Apply(s, SendOut(q, p, true)).hosts && Traced(s2, Origin(q, |s.hosts[q].sent|))
    ensures |s2.hosts| == |s.hosts| && s2.hosts[n].pc == AtEnd && s2.hosts[n].status == s.hosts[n].status
    ensures s2.hosts[n].handed == s.hosts[n].handed && s2.hosts[n].core.subs == s.hosts[n].core.subs
    ensures PubOf(s2, Origin(q, |s.hosts[q].sent|)).topicId == s.hosts[n].core.subs[j].topicId
    ensures PayloadOf(s2, Origin(q, |s.hosts[q].sent|)) == s.hosts[q].core.pubs[p].queue[0]
  {
    SendOutDetails(s, q, p, n, j);
  }

  /**
   * End-to-end delivery is possible: in every reachable state in which all
   * packets of a publishing node have arrived, its front message can be sent,
   * forwarded, taken in and handed to a connected subscriber of the topic.
   */
  lemma DeliveryPossible(s: Sys, q: nat, p: nat, n: nat, j: nat) returns (states: seq<Sys>, steps: seq<Step>, t: Sys)
    requires Shaped(s) && q < |s.hosts| && n < |s.hosts| && j < |s.hosts[n].core.subs|
    requires Enabled(s, SendOut(q, p, true)) && |s.accepted[q]| == |s.hosts[q].sent|
    requires s.hosts[n].status.Connected? && s.hosts[n].pc == AtEnd && s.hosts[n].core.subs[j].queue == []
    requires s.hosts[q].core.pubs[p].topicName == s.hosts[n].core.subs[j].topicName
    requires Bounded(s) && |s.hosts[q].sent| + 1 < WORD && Invariant(s)
    ensures Links(s, states, steps, t) && n < |t.hosts| && j < |t.hosts[n].handed|
    ensures t.hosts[n].handed[j]
            == s.hosts[n].handed[j] + [Msg(s.hosts[q].core.pubs[p].queue[0], Origin(q, |s.hosts[q].sent|))]
  {
    var i, k := |s.hosts[q].sent|, |s.inbox[n]|;
    var a, b, c, d := SendOut(q, p, true), BrokerTurn(q, i), TakeIn(n, k, Codec.Blank()), Callback(n, j);
    SendAndForwardKeep(s, q, p);
    var s1 := Apply(s, a);
    SendReady(s, q, p, n, j);
    TurnReaches(s1, q, i, n, j);
    var s2 := Apply(s1, b);
    assert FlightOk(s2, s2.inbox[n][k]);
    ForwardedPayload(s, q, p, n, j, s2);
    ForwardedIsHanded(s.hosts[n], n, j, s2, k, Origin(q, i));
    FourSteps(s, a, b, c, d);
    var s3 := Apply(s2, c);
    t := Apply(s3, d);
    states, steps := [s, s1] + [s2] + [s3] + [t], [a] + [b] + [c] + [d];
  }

  /** The second half of a delivery: the packet lies in the subscriber's inbox. */
  lemma ForwardedIsHanded(h: Host, n: nat, j: nat, s2: Sys, k: nat, o: Origin)
    requires n < |s2.hosts| && j < |h.core.subs| && h.status.Connected? && h.core.subs[j].queue == []
    requires Shaped(s2) && Bounded(s2) && Traced(s2, o) && s2.hosts[n].pc == AtEnd && s2.hosts[n].status == h.status
    requires s2.hosts[n].handed == h.handed && s2.hosts[n].core.subs == h.core.subs
    requires k < |s2.inbox[n]| && s2.inbox[n][k].down.Forward? && s2.inbox[n][k].origin == o
    requires PubOf(s2, o).topicId == h.core.subs[j].topicId
    requires ViewsOk(s2) && IndexesOk(s2) && PublishedOk(s2) && IntegrityOk(s2)
    ensures var c, d := TakeIn(n, k, Codec.Blank()), Callback(n, j);
            && Enabled(s2, c)
            && var s3 := Apply(s2, c);
               && Shaped(s3) && Enabled(s3, d)
               && var t := Apply(s3, d);
                  && n < |t.hosts| && j < |t.hosts[n].handed|
                  && t.hosts[n].handed[j] == h.handed[j] + [Msg(PayloadOf(s2, o), o)]
  {
    TakenIsHanded(s2, n, k, Codec.Blank(), j);
  }

  lemma FourSteps(s: Sys, a: Step, b: Step, c: Step, d: Step)
    requires Shaped(s) && Enabled(s, a)
    requires var s1 := Apply(s, a); Shaped(s1) && Enabled(s1, b)
    requires var s2 := Apply(Apply(s, a), b); Shaped(s2) && Enabled(s2, c)
    requires var s3 := Apply(Apply(Apply(s, a), b), c); Shaped(s3) && Enabled(s3, d)
    ensures var s1 := Apply(s, a);
            var s2 := Apply(s1, b);
            var s3 := Apply(s2, c);
            var t := Apply(s3, d);
            Links(s, [s, s1] + [s2] + [s3] + [t], [a] + [b] + [c] + [d], t)
  {
    ThreeSteps(s, a, b, c);
    var s1 := Apply(s, a);
    var s2 := Apply(s1, b);
    var s3 := Apply(s2, c);
    Snoc(s, [s, s1] + [s2] + [s3], [a] + [b] + [c], s3, d);
  }

  /** A data packet does not add to the tables. */
  lemma TurnBounded(s: Sys, q: nat, i: nat)
    requires Shaped(s) && Enabled(s, BrokerTurn(q, i)) && s.hosts[q].sent[i].packet.DataPacket? && Bounded(s)
    ensures Bounded(DoBrokerTurn(s, q, i))
  {
  }

  /** A filed publisher and a filed subscriber of one topic name know it by the same ID. */
  lemma SameTopic(s: Sys, q: nat, p: nat, n: nat, j: nat)
    requires Shaped(s) && ViewsOk(s) && q < |s.hosts| && p < |s.hosts[q].core.pubs| && PubFiled(s.hosts[q].pc, p)
    requires n < |s.hosts| && j < |s.hosts[n].core.subs| && SubFiled(s.hosts[n].pc, j)
    requires s.hosts[q].core.pubs[p].topicName == s.hosts[n].core.subs[j].topicName
    ensures s.hosts[q].core.pubs[p].topicId == s.hosts[n].core.subs[j].topicId
  {
    var r := s.broker.registry;
    assert ViewAt(r, q, s.hosts[q]) && ViewAt(r, n, s.hosts[n]);
    assert PubView(r, s.hosts[q].pc, p, s.hosts[q].core.pubs[p]);
    assert SubView(r, s.hosts[n].pc, j, s.hosts[n].core.subs[j]);
    SameTopicId(r, s.hosts[q].core.pubs[p].topicId, s.hosts[n].core.subs[j].topicId);
  }

  /** What sending the front message does to its own node and leaves unchanged for the subscriber. */
  lemma SendOutDetails(s: Sys, q: nat, p: nat, n: nat, j: nat)
    requires Shaped(s) && ViewsOk(s) && IndexesOk(s) && PublishedOk(s)
    requires q < |s.hosts| && n < |s.hosts| && j < |s.hosts[n].core.subs|
    requires Enabled(s, SendOut(q, p, true)) && Shaped(Apply(s, SendOut(q, p, true)))
    requires s.hosts[n].pc == AtEnd
    requires s.hosts[q].core.pubs[p].topicName == s.hosts[n].core.subs[j].topicName
    ensures var i := |s.hosts[q].sent|;
            var g := Apply(s, SendOut(q, p, true)).hosts;
            && g[n].pc == AtEnd && g[n].status == s.hosts[n].status
            && g[n].handed == s.hosts[n].handed && g[n].core.subs == s.hosts[n].core.subs
            && i < |g[q].sent| && g[q].sent[i].source == FromPub(p, Popped(s.hosts[q], p))
            && |g[q].core.pubs| == |s.hosts[q].core.pubs| && p < |g[q].core.pubs|
            && g[q].core.pubs[p].topicId == s.hosts[n].core.subs[j].topicId
            && g[q].published == s.hosts[q].published && Popped(s.hosts[q], p) < |s.hosts[q].published[p]|
            && s.hosts[q].published[p][Popped(s.hosts[q], p)] == s.hosts[q].core.pubs[p].queue[0]
  {
    ApplyHost(s, SendOut(q, p, true), n);
    ApplyHost(s, SendOut(q, p, true), q);
    VisitFiled(s.hosts[q], p) by { assert IndexesAt(s.hosts[q]); }
    SameTopic(s, q, p, n, j);
    assert PublishedAt(s.hosts[q]) && QueueAt(s.hosts[q].core.pubs[p], s.hosts[q].published[p]);
    SendConserves(s.hosts[q], p, true);
  }
}
