/** Sixth layer: the broker's lists of publishers and subscribers are what the nodes have asked for. */
module SystemSubscriptions {
  import opened Basics
  import opened BrokerModel
  import opened BrokerProofs
  import opened NodeModel
  import opened SchedulerProofs
  import opened System
  import opened SystemCounters
  import opened SystemRpc
  import opened SystemViews
  import opened SystemDelivery

  // ---- counting ------------------------------------------------------------

  ghost function SubIds<S>(subs: seq<Sub<S>>): (ids: seq<nat>)
    ensures |ids| == |subs|
  {
    seq(|subs|, j requires 0 <= j < |subs| => subs[j].topicId)
  }

  ghost function PubIds<P>(pubs: seq<Pub<P>>): (ids: seq<nat>)
    ensures |ids| == |pubs|
  {
    seq(|pubs|, i requires 0 <= i < |pubs| => pubs[i].topicId)
  }

  /** Topic IDs of a node's publishers or subscribers, in order of creation. */
  ghost function TopicIds<P, S>(d: Node<P, S>, side: Side): seq<nat> {
    if side == OfPublishers then PubIds(d.pubs) else SubIds(d.subs)
  }

  /** Topic names of a node's publishers or subscribers, in order of creation. */
  ghost function NamesOf<P, S>(d: Node<P, S>, side: Side): seq<string> {
    if side == OfPublishers then seq(|d.pubs|, i requires 0 <= i < |d.pubs| => d.pubs[i].topicName)
    else seq(|d.subs|, j requires 0 <= j < |d.subs| => d.subs[j].topicName)
  }

  ghost function Count<T>(xs: seq<T>, x: T): nat {
    multiset(xs)[x]
  }

  lemma CountAppend<T>(xs: seq<T>, y: T, x: T)
    ensures Count(xs + [y], x) == Count(xs, x) + if x == y then 1 else 0
  {
  }

  lemma {:induction false} SameCount<T, U>(xs: seq<T>, x: T, ys: seq<U>, y: U)
    requires |xs| == |ys| && forall k | 0 <= k < |xs| :: xs[k] == x <==> ys[k] == y
    ensures Count(xs, x) == Count(ys, y)
    decreases |xs|
  {
    if xs != [] {
      var n := |xs| - 1;
      SameCount(xs[..n], x, ys[..n], y);
      CountAppend(xs[..n], xs[n], x);
      CountAppend(ys[..n], ys[n], y);
      assert xs == xs[..n] + [xs[n]] && ys == ys[..n] + [ys[n]];
    }
  }

  /** How often node `n` is listed at topic `t`. */
  ghost function Times(r: Registry, side: Side, t: nat, n: nat): nat {
    if t < |r.topics| then Count(Addresses(r, ListOf(r.topics[t], side)), n) else 0
  }

  lemma SubscribedTimes(r: Registry, t: nat, n: nat)
    ensures Subscribed(r, t, n) == Times(r, OfSubscribers, t, n)
  {
  }

  /** Number of publishers or subscribers filed at `pc`. */
  ghost function FiledCount<P, S>(d: Node<P, S>, pc: Pc, side: Side): (m: nat)
    ensures m <= |TopicIds(d, side)|
  {
    var all := |TopicIds(d, side)|;
    match pc
    case AtNode => 0
    case AtPub(i, _) => if side == OfPublishers && i < all then i else 0
    case AtSub(j, _) => if side == OfSubscribers && j < all then j else if side == OfSubscribers then 0 else all
    case AtEnd => all
  }

  ghost function FiledFor(h: Host, side: Side, t: nat): nat {
    Count(TopicIds(h.core, side)[..FiledCount(h.core, h.pc, side)], t)
  }

  // ---- the invariant -------------------------------------------------------

  /** The entry that the current call asks for is confirmed, but the node does not know it yet. */
  ghost predicate Unheard(h: Host, acc: seq<nat>, side: Side, t: nat) {
    h.status.Waiting? && |acc| == |h.sent| && AsksFor(RequestAt(h.core, h.pc), side, t)
  }

  predicate Adds(q: Request) {
    q.AddPublisher? || q.AddSubscriber?
  }

  /** A node's requests to be listed name the node itself. */
  ghost predicate OwnRequests(r: Registry, n: nat, h: Host) {
    forall a | 0 <= a < |h.sent| && h.sent[a].packet.ControlPacket? && Adds(h.sent[a].packet.request) ::
      OwnId(r, n, h.sent[a].packet.request.nodeId)
  }

  ghost predicate OwnId(r: Registry, n: nat, nodeId: nat) {
    nodeId < |r.nodes| && r.nodes[nodeId].address == n
  }

  /** Unless the node has failed, the broker lists what it has filed, and the entry it has not heard of yet. */
  ghost predicate CountedAt(r: Registry, n: nat, h: Host, acc: seq<nat>) {
    !h.status.Failed? ==>
      forall side, t: nat ::
        Times(r, side, t, n) == FiledFor(h, side, t) + if Unheard(h, acc, side, t) then 1 else 0
  }

  ghost predicate SubscriptionsOk(s: Sys)
    requires Shaped(s)
  {
    forall n | 0 <= n < |s.hosts| ::
      OwnRequests(s.broker.registry, n, s.hosts[n]) && CountedAt(s.broker.registry, n, s.hosts[n], s.accepted[n])
  }

  // ---- the broker's part ---------------------------------------------------

  lemma AddressesAppend(r: Registry, ids: seq<nat>, id: nat)
    ensures Addresses(r, ids + [id]) == Addresses(r, ids) + [AddressOf(r, id)]
  {
  }

  lemma SameAddresses(r: Registry, s: Registry, ids: seq<nat>)
    requires r.nodes <= s.nodes && forall k | 0 <= k < |ids| :: ids[k] < |r.nodes|
    ensures Addresses(r, ids) == Addresses(s, ids)
  {
  }

  /** A request appends to a list exactly if it is confirmed and asks for that. */
  lemma ProcessAppends(r: Registry, client: Address, rpcId: uint32, q: Request, side: Side, t: nat)
    requires t < |r.topics|
    ensures var (s, a) := Process(r, client, rpcId, q);
            && t < |s.topics| && r.nodes <= s.nodes
            && ListOf(s.topics[t], side)
               == ListOf(r.topics[t], side) + (if AsksFor(q, side, t) && a.Done? then [q.nodeId] else [])
            && (AsksFor(q, side, t) && a.Done? ==> s.nodes == r.nodes)
  {
    if Adds(q) {
      AddChangesOneList(r, client, rpcId, q.nodeId, q.topicId, q.typeId);
    }
  }

  /** One more ID in a list is one more entry of the node at its address. */
  lemma AddressesGrow(r: Registry, s: Registry, ids: seq<nat>, id: nat, n: nat)
    requires r.nodes <= s.nodes && forall k | 0 <= k < |ids| :: ids[k] < |r.nodes|
    ensures Count(Addresses(s, ids), n) == Count(Addresses(r, ids), n)
    ensures r.nodes == s.nodes ==>
              Count(Addresses(s, ids + [id]), n)
              == Count(Addresses(r, ids), n) + if AddressOf(r, id) == n then 1 else 0
  {
    SameAddresses(r, s, ids);
    AddressesAppend(s, ids, id);
    CountAppend(Addresses(s, ids), AddressOf(s, id), n);
  }

  lemma ListedInRange(r: Registry, side: Side, t: nat)
    requires RegistryOk(r) && t < |r.topics|
    ensures forall k | 0 <= k < |ListOf(r.topics[t], side)| :: ListOf(r.topics[t], side)[k] < |r.nodes|
  {
    assert TopicOk(r, r.topics[t]);
  }

  /** A request changes how often a node is listed exactly if it is confirmed and asks for that. */
  lemma ProcessLists(r: Registry, client: Address, rpcId: uint32, q: Request, side: Side, t: nat, n: nat)
    requires RegistryOk(r)
    ensures var (s, a) := Process(r, client, rpcId, q);
            Times(s, side, t, n) == Times(r, side, t, n)
              + if AsksFor(q, side, t) && a.Done? && AddressOf(r, q.nodeId) == n then 1 else 0
  {
    if t < |r.topics| {
      ProcessAppends(r, client, rpcId, q, side, t);
      ListedInRange(r, side, t);
      AddressesGrow(r, Process(r, client, rpcId, q).0, ListOf(r.topics[t], side), if Adds(q) then q.nodeId else 0, n);
    } else {
      NewTopicListsNobody(r, client, rpcId, q, side, t, n);
    }
  }

  lemma NewTopicListsNobody(r: Registry, client: Address, rpcId: uint32, q: Request, side: Side, t: nat, n: nat)
    requires t >= |r.topics|
    ensures var (s, a) := Process(r, client, rpcId, q);
            Times(s, side, t, n) == 0 && !(AsksFor(q, side, t) && a.Done?)
  {
  }

  /** What the current call of a waiting node does to its own entries when the broker accepts it. */
  lemma OwnCallLists(r: Registry, n: nat, h: Host, rpcId: uint32, side: Side, t: nat)
    requires RegistryOk(r) && ViewAt(r, n, h)
    ensures Times(Process(r, n, rpcId, RequestAt(h.core, h.pc)).0, side, t, n)
            == Times(r, side, t, n) + if AsksFor(RequestAt(h.core, h.pc), side, t) then 1 else 0
  {
    ProcessLists(r, n, rpcId, RequestAt(h.core, h.pc), side, t, n);
    if h.pc.AtSub? {
      assert SubView(r, h.pc, h.pc.j, h.core.subs[h.pc.j]);
    } else if h.pc.AtPub? {
      assert PubView(r, h.pc, h.pc.i, h.core.pubs[h.pc.i]);
    }
  }

  /** The broker's tables after it has accepted a packet. */
  ghost function TablesAfter(r: Registry, client: Address, p: Packet): Registry {
    if p.ControlPacket? then Process(r, client, p.rpcId, p.request).0 else r
  }

  /** Only a waiting node has a request for the broker to accept, and it is its last attempt. */
  lemma AcceptedIsLast(r: Registry, n: nat, h: Host, acc: seq<nat>, inbox: seq<Flight>)
    requires RpcAt(r, n, h, acc, inbox) && |acc| < |h.sent| && !h.status.Failed?
    ensures var p := h.sent[|acc|].packet;
            && (p.ControlPacket? ==>
                  h.status.Waiting? && |acc| + 1 == |h.sent| && p.request == RequestAt(h.core, h.pc))
            && (h.status.Waiting? && |acc| + 1 == |h.sent| ==> p.ControlPacket?)
  {
    if h.sent[|acc|].packet.ControlPacket? {
      assert Pending(h, acc, |acc|);
    }
  }

  lemma AcceptCounts(r: Registry, n: nat, h: Host, acc: seq<nat>, inbox: seq<Flight>)
    requires RegistryOk(r) && ViewAt(r, n, h) && RpcAt(r, n, h, acc, inbox) && CountedAt(r, n, h, acc)
    requires |acc| < |h.sent|
    ensures CountedAt(TablesAfter(r, n, h.sent[|acc|].packet), n, h, acc + [|acc|])
  {
    if !h.status.Failed? {
      AcceptedIsLast(r, n, h, acc, inbox);
      AcceptCountsAt(r, n, h, acc);
    }
  }

  lemma AcceptCountsAt(r: Registry, n: nat, h: Host, acc: seq<nat>)
    requires RegistryOk(r) && ViewAt(r, n, h) && CountedAt(r, n, h, acc) && |acc| < |h.sent| && !h.status.Failed?
    requires var p := h.sent[|acc|].packet;
             && (p.ControlPacket? <==> h.status.Waiting? && |acc| + 1 == |h.sent|)
             && (p.ControlPacket? ==> p.request == RequestAt(h.core, h.pc))
    ensures CountedAt(TablesAfter(r, n, h.sent[|acc|].packet), n, h, acc + [|acc|])
  {
    var i, p := |acc|, h.sent[|acc|].packet;
    forall side, t: nat
      ensures Times(TablesAfter(r, n, p), side, t, n)
              == FiledFor(h, side, t) + if Unheard(h, acc + [i], side, t) then 1 else 0
    {
      if p.ControlPacket? {
        OwnCallLists(r, n, h, p.rpcId, side, t);
      }
    }
  }

  lemma TurnCountsOwn(s: Sys, n: nat, i: nat)
    requires Shaped(s) && Enabled(s, BrokerTurn(n, i)) && CountersOk(s) && |s.hosts[n].sent| < WORD
    requires RegistryOk(s.broker.registry) && ViewAt(s.broker.registry, n, s.hosts[n])
    requires RpcAt(s.broker.registry, n, s.hosts[n], s.accepted[n], s.inbox[n])
    requires CountedAt(s.broker.registry, n, s.hosts[n], s.accepted[n])
    ensures var t := DoBrokerTurn(s, n, i);
            |t.accepted| == |s.hosts| && CountedAt(t.broker.registry, n, s.hosts[n], t.accepted[n])
  {
    AcceptsNext(s.broker, n, s.hosts[n], s.accepted[n], s.inbox[n], i);
    if i == |s.accepted[n]| {
      AcceptCounts(s.broker.registry, n, s.hosts[n], s.accepted[n], s.inbox[n]);
    }
  }

  /** A node's packets change nobody else's subscriptions. */
  lemma TurnCountsOther(s: Sys, n: nat, i: nat, m: nat)
    requires Shaped(s) && Enabled(s, BrokerTurn(n, i)) && ViewsOk(s) && m < |s.hosts| && m != n
    requires OwnRequests(s.broker.registry, n, s.hosts[n])
    requires CountedAt(s.broker.registry, m, s.hosts[m], s.accepted[m])
    ensures var t := DoBrokerTurn(s, n, i);
            |t.accepted| == |s.hosts| && CountedAt(t.broker.registry, m, s.hosts[m], t.accepted[m])
  {
    var r, p := s.broker.registry, s.hosts[n].sent[i].packet;
    if p.ControlPacket? {
      forall side, t: nat
        ensures Times(Process(r, n, p.rpcId, p.request).0, side, t, m) == Times(r, side, t, m)
      {
        ProcessLists(r, n, p.rpcId, p.request, side, t, m);
      }
    }
  }

  lemma OwnStable(r: Registry, r': Registry, n: nat, h: Host)
    requires Extends(r, r') && OwnRequests(r, n, h)
    ensures OwnRequests(r', n, h)
  {
    forall a | 0 <= a < |h.sent| && h.sent[a].packet.ControlPacket? && Adds(h.sent[a].packet.request)
      ensures OwnId(r', n, h.sent[a].packet.request.nodeId)
    {
      assert OwnId(r, n, h.sent[a].packet.request.nodeId);
    }
  }

  lemma TurnKeepsSubscriptions(s: Sys, n: nat, i: nat)
    requires Shaped(s) && Enabled(s, BrokerTurn(n, i)) && CountersOk(s) && RpcOk(s) && ViewsOk(s) && Bounded(s)
    requires SubscriptionsOk(s)
    ensures Shaped(DoBrokerTurn(s, n, i)) && SubscriptionsOk(DoBrokerTurn(s, n, i))
  {
    var t := DoBrokerTurn(s, n, i);
    ReceiveExtends(s.broker, n, s.hosts[n].sent[i].packet);
    forall m | 0 <= m < |t.hosts|
      ensures OwnRequests(t.broker.registry, m, t.hosts[m])
      ensures CountedAt(t.broker.registry, m, t.hosts[m], t.accepted[m])
    {
      OwnStable(s.broker.registry, t.broker.registry, m, s.hosts[m]);
      if m == n {
        TurnCountsOwn(s, n, i);
      } else {
        TurnCountsOther(s, n, i, m);
      }
    }
  }

  // ---- the node's part -----------------------------------------------------

  lemma CallKeepsOwn(r: Registry, n: nat, h: Host, ok: bool)
    requires ViewAt(r, n, h) && OwnRequests(r, n, h)
    ensures OwnRequests(r, n, DoCall(h, ok))
  {
    var g := DoCall(h, ok);
    forall a | 0 <= a < |g.sent| && g.sent[a].packet.ControlPacket? && Adds(g.sent[a].packet.request)
      ensures OwnId(r, n, g.sent[a].packet.request.nodeId)
    {
      if a < |h.sent| {
        assert OwnId(r, n, h.sent[a].packet.request.nodeId);
      }
    }
  }

  lemma SameOwn(r: Registry, n: nat, h: Host, g: Host)
    requires OwnRequests(r, n, h) && h.sent <= g.sent && |g.sent| <= |h.sent| + 1
    requires |g.sent| > |h.sent| ==> g.sent[|h.sent|].packet.DataPacket?
    ensures OwnRequests(r, n, g)
  {
    forall a | 0 <= a < |g.sent| && g.sent[a].packet.ControlPacket? && Adds(g.sent[a].packet.request)
      ensures OwnId(r, n, g.sent[a].packet.request.nodeId)
    {
      assert OwnId(r, n, h.sent[a].packet.request.nodeId);
    }
  }

  lemma SameFiledFor(h: Host, g: Host, side: Side, t: nat)
    requires SameShape(h.core, g.core) && g.pc == h.pc
    ensures FiledFor(g, side, t) == FiledFor(h, side, t)
    ensures AsksFor(RequestAt(g.core, g.pc), side, t) <==> AsksFor(RequestAt(h.core, h.pc), side, t)
  {
    assert TopicIds(g.core, side) == TopicIds(h.core, side);
  }

  /** A call that is sent has not been accepted yet. */
  lemma CallCounts(r: Registry, n: nat, h: Host, acc: seq<nat>, ok: bool)
    requires CountedAt(r, n, h, acc) && h.status.Connecting? && |acc| <= |h.sent|
    ensures CountedAt(r, n, DoCall(h, ok), acc)
  {
    var g := DoCall(h, ok);
    forall side, t: nat
      ensures FiledFor(g, side, t) == FiledFor(h, side, t) && !Unheard(g, acc, side, t) && !Unheard(h, acc, side, t)
    {
      assert TopicIds(g.core, side) == TopicIds(h.core, side);
    }
  }

  /** Hearing of a confirmed entry moves the count of filed entries on, and nothing else does. */
  lemma AnswerMoves(h: Host, a: Response, side: Side)
    requires PcInRange(h.core, h.pc) && Learn(h.core, h.pc, a).Some?
    ensures var g := DoAnswer(h, Reply(0, a));
            var m, m' := FiledCount(h.core, h.pc, side), FiledCount(g.core, g.pc, side);
            var files := Files(h.pc) && (h.pc.AtPub? <==> side == OfPublishers);
            && |TopicIds(g.core, side)| == |TopicIds(h.core, side)|
            && m' == (if files then m + 1 else m)
            && (forall k | 0 <= k < m' :: TopicIds(g.core, side)[k] == TopicIds(h.core, side)[k])
            && (files ==> forall t :: AsksFor(RequestAt(h.core, h.pc), side, t) <==> TopicIds(h.core, side)[m] == t)
            && (!files ==> forall t :: !AsksFor(RequestAt(h.core, h.pc), side, t))
  {
  }

  /** Hearing of a confirmed entry files it, and nothing else is filed. */
  lemma AnswerFiles(h: Host, a: Response, side: Side, t: nat)
    requires PcInRange(h.core, h.pc) && Learn(h.core, h.pc, a).Some?
    ensures FiledFor(DoAnswer(h, Reply(0, a)), side, t)
            == FiledFor(h, side, t) + if AsksFor(RequestAt(h.core, h.pc), side, t) then 1 else 0
  {
    var g := DoAnswer(h, Reply(0, a));
    AnswerMoves(h, a, side);
    PrefixCounts(TopicIds(h.core, side), TopicIds(g.core, side), FiledCount(h.core, h.pc, side),
                 FiledCount(g.core, g.pc, side), t);
  }

  lemma PrefixCounts(ids: seq<nat>, ids': seq<nat>, m: nat, m': nat, t: nat)
    requires m <= m' <= m + 1 && m' <= |ids| == |ids'| && forall k | 0 <= k < m' :: ids'[k] == ids[k]
    ensures Count(ids'[..m'], t) == Count(ids[..m], t) + if m < m' && ids[m] == t then 1 else 0
  {
    assert ids'[..m'] == ids[..m'];
    if m < m' {
      assert ids[..m'] == ids[..m] + [ids[m]];
      CountAppend(ids[..m], ids[m], t);
    }
  }

  lemma AnswerCounts(r: Registry, n: nat, h: Host, acc: seq<nat>, inbox: seq<Flight>, k: nat)
    requires CountedAt(r, n, h, acc) && RpcAt(r, n, h, acc, inbox) && PcInRange(h.core, h.pc)
    requires h.status.Waiting? && k < |inbox| && |acc| <= |h.sent|
    ensures CountedAt(r, n, DoAnswer(h, inbox[k].down), acc)
  {
    var down := inbox[k].down;
    if down.Reply? && Learn(h.core, h.pc, down.response).Some? {
      var g := DoAnswer(h, down);
      assert inbox[k].origin.attempt == |h.sent| - 1 < |acc|;
      forall side, t: nat
        ensures Times(r, side, t, n) == FiledFor(g, side, t) + if Unheard(g, acc, side, t) then 1 else 0
      {
        AnswerFiles(h, down.response, side, t);
      }
    }
  }

  lemma OtherCounts(r: Registry, n: nat, h: Host, g: Host, acc: seq<nat>)
    requires CountedAt(r, n, h, acc) && SameShape(h.core, g.core) && g.pc == h.pc
    requires g.status == h.status && (h.status.Waiting? ==> g.sent == h.sent)
    ensures CountedAt(r, n, g, acc)
  {
    forall side, t: nat
      ensures FiledFor(g, side, t) == FiledFor(h, side, t)
      ensures Unheard(g, acc, side, t) <==> Unheard(h, acc, side, t)
    {
      SameFiledFor(h, g, side, t);
    }
  }

  lemma HostStepCounts(s: Sys, step: Step)
    requires Shaped(s) && Enabled(s, step) && !step.BrokerTurn?
    requires AcceptedAt(s.broker, step.n, s.hosts[step.n], s.accepted[step.n], s.inbox[step.n])
    requires RpcAt(s.broker.registry, step.n, s.hosts[step.n], s.accepted[step.n], s.inbox[step.n])
    requires ViewAt(s.broker.registry, step.n, s.hosts[step.n])
    requires OwnRequests(s.broker.registry, step.n, s.hosts[step.n])
    requires CountedAt(s.broker.registry, step.n, s.hosts[step.n], s.accepted[step.n])
    ensures OwnRequests(s.broker.registry, step.n, HostAfter(s, step))
    ensures CountedAt(s.broker.registry, step.n, HostAfter(s, step), s.accepted[step.n])
  {
    var n, r := step.n, s.broker.registry;
    var h, g, acc := s.hosts[n], HostAfter(s, step), s.accepted[n];
    if step.Call? {
      CallKeepsOwn(r, n, h, step.ok);
      CallCounts(r, n, h, acc, step.ok);
    } else if step.Answer? {
      SameOwn(r, n, h, g);
      AnswerCounts(r, n, h, acc, s.inbox[n], step.k);
    } else if step.Abort? {
      SameOwn(r, n, h, g);
    } else {
      OtherStep(s, step);
      SameOwn(r, n, h, g);
      OtherCounts(r, n, h, g, acc);
    }
  }

  /** Every step keeps the broker's subscriber lists what the nodes have asked for. */
  lemma StepKeepsSubscriptions(s: Sys, step: Step)
    requires Shaped(s) && Enabled(s, step) && CountersOk(s) && RpcOk(s) && ViewsOk(s) && Bounded(s)
    requires SubscriptionsOk(s)
    ensures Shaped(Apply(s, step)) && SubscriptionsOk(Apply(s, step))
  {
    ApplyShaped(s, step);
    if step.BrokerTurn? {
      TurnKeepsSubscriptions(s, step.n, step.i);
    } else {
      var t := Apply(s, step);
      HostStepCounts(s, step);
      forall m | 0 <= m < |t.hosts|
        ensures OwnRequests(t.broker.registry, m, t.hosts[m])
        ensures CountedAt(t.broker.registry, m, t.hosts[m], t.accepted[m])
      {
        assert t.hosts[m] == if m == step.n then HostAfter(s, step) else s.hosts[m];
      }
    }
  }
}
