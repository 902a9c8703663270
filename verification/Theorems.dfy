/** The main results, over every run of one broker and any number of nodes. */
module Theorems {
  import opened Basics
  import opened BrokerModel
  import opened BrokerProofs
  import opened NodeModel
  import opened SchedulerProofs
  import opened System
  import opened SystemCounters
  import opened SystemRpc
  import opened SystemViews
  import opened SystemData
  import opened SystemDelivery
  import opened SystemSubscriptions
  import Codec

  ghost predicate Invariant(s: Sys)
    requires Shaped(s)
  {
    CountersOk(s) && RpcOk(s) && ViewsOk(s) && IndexesOk(s) && PublishedOk(s) && IntegrityOk(s) && CopiesOk(s)
  }

  lemma InitCounters(s: Sys)
    requires Init(s)
    ensures CountersOk(s) && RpcOk(s)
  {
  }

  lemma InitViews(s: Sys)
    requires Init(s)
    ensures ViewsOk(s) && IndexesOk(s)
  {
  }

  lemma InitData(s: Sys)
    requires Init(s)
    ensures PublishedOk(s) && IntegrityOk(s) && CopiesOk(s)
    ensures forall n | 0 <= n < |s.hosts| :: OrderAt(s, n)
  {
  }

  lemma InitOrder(s: Sys, n: nat)
    requires Init(s) && n < |s.hosts|
    ensures OrderAt(s, n)
  {
    InitData(s);
  }

  lemma LastStep(states: seq<Sys>, steps: seq<Step>, k: nat)
    requires IsPath(states, steps) && 0 < k < |states| && Bounded(states[k])
    ensures Enabled(states[k - 1], steps[k - 1]) && states[k] == Apply(states[k - 1], steps[k - 1])
    ensures Bounded(states[k - 1])
  {
    LastLink(states, steps, k);
    BoundedBefore(states[k - 1], steps[k - 1]);
  }

  /** Every step keeps the whole invariant. */
  lemma StepInvariant(s: Sys, step: Step)
    requires Shaped(s) && Enabled(s, step) && Bounded(s) && Invariant(s)
    ensures Shaped(Apply(s, step)) && Invariant(Apply(s, step))
  {
    StepKeepsCounters(s, step);
    StepKeepsRpc(s, step);
    StepKeepsViews(s, step);
    StepKeepsIndexes(s, step);
    StepKeepsPublished(s, step);
    StepKeepsIntegrity(s, step);
    StepKeepsCopies(s, step);
  }

  lemma StepInvariantTo(s: Sys, step: Step, t: Sys)
    requires Shaped(s) && Enabled(s, step) && Bounded(s) && Invariant(s) && t == Apply(s, step)
    ensures Shaped(t) && Invariant(t)
  {
    StepInvariant(s, step);
  }

  lemma InitInvariant(s: Sys)
    requires Init(s)
    ensures Invariant(s)
  {
    InitCounters(s);
    InitViews(s);
    InitData(s);
  }

  lemma InvariantLink(states: seq<Sys>, steps: seq<Step>, k: nat)
    requires IsPath(states, steps) && 0 < k < |states| && Bounded(states[k])
    ensures Bounded(states[k - 1]) && (Invariant(states[k - 1]) ==> Invariant(states[k]))
  {
    LastStep(states, steps, k);
    if Invariant(states[k - 1]) {
      StepInvariantTo(states[k - 1], steps[k - 1], states[k]);
    }
  }

  /** The invariant holds in every bounded state of every path that starts with it. */
  lemma {:induction false} PathInvariant(states: seq<Sys>, steps: seq<Step>, k: nat)
    requires IsPath(states, steps) && Invariant(states[0]) && k < |states| && Bounded(states[k])
    ensures Invariant(states[k])
  {
    if k > 0 {
      InvariantLink(states, steps, k);
      PathInvariant(states, steps, k - 1);
    }
  }

  /** The invariant holds in every bounded state of every run. */
  lemma RunInvariant(states: seq<Sys>, steps: seq<Step>, k: nat)
    requires IsRun(states, steps) && k < |states| && Bounded(states[k])
    ensures Invariant(states[k])
  {
    InitInvariant(states[0]);
    PathInvariant(states, steps, k);
  }

  lemma StepOrderTo(s: Sys, step: Step, t: Sys, n: nat)
    requires Shaped(s) && Enabled(s, step) && Bounded(s) && Invariant(s) && t == Apply(s, step)
    requires n < |s.hosts| && InOrderAt(step, n) && OrderAt(s, n)
    ensures Shaped(t) && n < |t.hosts| && OrderAt(t, n)
  {
    StepKeepsOrder(s, step, n);
  }

  lemma OrderLink(states: seq<Sys>, steps: seq<Step>, k: nat, n: nat)
    requires IsPath(states, steps) && 0 < k < |states| && Bounded(states[k]) && InOrderAt(steps[k - 1], n)
    requires Invariant(states[k - 1]) && n < |states[k].hosts| && |states[k].hosts| == |states[k - 1].hosts|
    requires OrderAt(states[k - 1], n)
    ensures OrderAt(states[k], n)
  {
    LastStep(states, steps, k);
    StepOrderTo(states[k - 1], steps[k - 1], states[k], n);
  }

  lemma {:induction false} RunOrder(states: seq<Sys>, steps: seq<Step>, k: nat, n: nat)
    requires IsRun(states, steps) && k < |states| && Bounded(states[k]) && n < |states[k].hosts|
    requires forall z | 0 <= z < k :: InOrderAt(steps[z], n)
    ensures OrderAt(states[k], n)
  {
    if k == 0 {
      InitOrder(states[0], n);
    } else {
      LastLink(states, steps, k);
      InvariantLink(states, steps, k);
      RunInvariant(states, steps, k - 1);
      RunOrder(states, steps, k - 1, n);
      OrderLink(states, steps, k, n);
    }
  }

  // ---- prefix acceptance ---------------------------------------------------

  /**
   * Over a network that loses, duplicates and reorders, the packets the broker
   * has accepted from a node are a prefix of those it attempted to send, each
   * once and in order, and none of them failed to be sent.
   */
  lemma PrefixAcceptance(states: seq<Sys>, steps: seq<Step>, k: nat, n: nat)
    requires IsRun(states, steps) && k < |states| && Bounded(states[k]) && n < |states[k].hosts|
    ensures var s := states[k];
            var m := |s.accepted[n]|;
            && m <= |s.hosts[n].sent|
            && (forall i | 0 <= i < m :: s.accepted[n][i] == i && s.hosts[n].sent[i].ok)
            && (forall i | 0 <= i < |s.hosts[n].sent| ::
                  AcceptsPacket(s.broker, n, s.hosts[n].sent[i].packet) <==> i == m)
  {
    RunInvariant(states, steps, k);
    var s := states[k];
    var h := s.hosts[n];
    assert AcceptedAt(s.broker, n, h, s.accepted[n], s.inbox[n]);
    forall i | 0 <= i < |h.sent| ensures AcceptsPacket(s.broker, n, h.sent[i].packet) <==> i == |s.accepted[n]| {
      AcceptsNext(s.broker, n, h, s.accepted[n], s.inbox[n], i);
    }
  }

  // ---- RPC pairing ---------------------------------------------------------

  /**
   * The reply answers the last request of the node: its counter is the
   * request's, its RPC ID is one less, and what it says is true of the tables. It
   * is understood unless it reports failure.
   */
  ghost predicate Paired(r: Registry, n: nat, h: Host, reply: Flight)
    requires reply.down.Reply?
  {
    var last, a := |h.sent| - 1, reply.down.response;
    && last >= 0 && reply.origin == Origin(n, last)
    && h.sent[last].packet == ControlPacket(Wrap(h.start + last + 1), Wrap(h.start + last), RequestAt(h.core, h.pc))
    && reply.down.counter == Wrap(h.start + last + 1)
    && Echoes(a, Wrap(h.start + last))
    && Answers(r, n, RequestAt(h.core, h.pc), a)
    && (Learn(h.core, h.pc, a).Some? || a.Failure?)
  }

  /** Every response a blocking call can receive answers the request that call sent. */
  lemma RpcPairing(states: seq<Sys>, steps: seq<Step>, k: nat, n: nat, f: nat)
    requires IsRun(states, steps) && k < |states| && Bounded(states[k])
    requires n < |states[k].hosts| && f < |states[k].inbox[n]|
    requires states[k].hosts[n].status.Waiting? && states[k].inbox[n][f].down.Reply?
    ensures Paired(states[k].broker.registry, n, states[k].hosts[n], states[k].inbox[n][f])
  {
    ReachableNode(states, steps, k, n);
    RunKeepsStatus(states, steps, k, n);
    var s := states[k];
    PairedAt(s.broker.registry, n, s.hosts[n], s.accepted[n], s.inbox[n], f);
  }

  /** The invariants of one node. */
  lemma ReachableNode(states: seq<Sys>, steps: seq<Step>, k: nat, n: nat)
    requires IsRun(states, steps) && k < |states| && Bounded(states[k]) && n < |states[k].hosts|
    ensures var s := states[k];
            && RpcAt(s.broker.registry, n, s.hosts[n], s.accepted[n], s.inbox[n])
            && NumberedAt(s.hosts[n]) && ViewAt(s.broker.registry, n, s.hosts[n])
            && ListedAt(s.broker.registry, s.hosts[n])
  {
    RunInvariant(states, steps, k);
  }

  lemma PairedAt(r: Registry, n: nat, h: Host, acc: seq<nat>, inbox: seq<Flight>, f: nat)
    requires RpcAt(r, n, h, acc, inbox) && NumberedAt(h) && ViewAt(r, n, h) && StatusFits(h)
    requires f < |inbox| && h.status.Waiting? && inbox[f].down.Reply?
    ensures Paired(r, n, h, inbox[f])
  {
  }

  /** In every state, a node has at most one request or response outstanding. */
  lemma AtMostOneOutstanding(states: seq<Sys>, steps: seq<Step>, k: nat, n: nat)
    requires IsRun(states, steps) && k < |states| && Bounded(states[k]) && n < |states[k].hosts|
    ensures OneOutstanding(states[k].hosts[n], states[k].accepted[n], states[k].inbox[n])
  {
    ReachableNode(states, steps, k, n);
  }

  /** A node is done with its calls exactly when `connect` has returned true, unless it failed. */
  ghost predicate StatusFits(h: Host) {
    && (h.status.Connecting? || h.status.Waiting? ==> h.pc != AtEnd)
    && (h.status.Connected? ==> h.pc == AtEnd)
  }

  lemma StepKeepsStatus(s: Sys, step: Step, n: nat)
    requires Shaped(s) && Enabled(s, step) && n < |s.hosts| && StatusFits(s.hosts[n])
    ensures n < |Apply(s, step).hosts| && StatusFits(Apply(s, step).hosts[n])
  {
    ApplyHost(s, step, n);
    if step.TakeIn? && step.n == n {
      TakeInFrame(s.hosts[n], s.inbox[n][step.k], step.stale);
    }
  }

  lemma {:induction false} PathKeepsStatus(states: seq<Sys>, steps: seq<Step>, k: nat, n: nat)
    requires IsPath(states, steps) && k < |states| && n < |states[k].hosts|
    requires n < |states[0].hosts| ==> StatusFits(states[0].hosts[n])
    ensures StatusFits(states[k].hosts[n])
  {
    if k > 0 {
      LastLink(states, steps, k);
      PathKeepsStatus(states, steps, k - 1, n);
      StepKeepsStatus(states[k - 1], steps[k - 1], n);
    }
  }

  lemma RunKeepsStatus(states: seq<Sys>, steps: seq<Step>, k: nat, n: nat)
    requires IsRun(states, steps) && k < |states| && n < |states[k].hosts|
    ensures StatusFits(states[k].hosts[n])
  {
    if n < |states[0].hosts| {
      assert FreshHost(states[0].hosts[n]);
    }
    PathKeepsStatus(states, steps, k, n);
  }

  // ---- declarations --------------------------------------------------------

  /** Nothing the application has declared differs, and neither do the priorities of publishers. */
  ghost predicate SameDeclarations(h: Host, g: Host) {
    && g.core.name == h.core.name
    && |g.core.pubs| == |h.core.pubs| && |g.core.subs| == |h.core.subs|
    && (forall i | 0 <= i < |h.core.pubs| ::
          var p, q := h.core.pubs[i], g.core.pubs[i];
          p.topicName == q.topicName && p.typeName == q.typeName && p.size == q.size && p.priority == q.priority)
    && (forall j | 0 <= j < |h.core.subs| ::
          var u, v := h.core.subs[j], g.core.subs[j];
          u.topicName == v.topicName && u.typeName == v.typeName && u.size == v.size)
  }

  lemma StepKeepsDeclarations(s: Sys, step: Step, n: nat)
    requires Shaped(s) && Enabled(s, step) && n < |s.hosts|
    ensures n < |Apply(s, step).hosts| && SameDeclarations(s.hosts[n], Apply(s, step).hosts[n])
  {
    ApplyHost(s, step, n);
    if step.n == n && !step.BrokerTurn? && !step.Answer? {
      StepShape(s, step);
    }
  }

  lemma DeclarationsTransitive(a: Host, b: Host, c: Host)
    requires SameDeclarations(a, b) && SameDeclarations(b, c)
    ensures SameDeclarations(a, c)
  {
  }

  lemma DeclarationsLink(states: seq<Sys>, steps: seq<Step>, k: nat, n: nat)
    requires IsPath(states, steps) && 0 < k < |states| && n < |states[k - 1].hosts|
    ensures n < |states[k].hosts| && SameDeclarations(states[k - 1].hosts[n], states[k].hosts[n])
  {
    LastLink(states, steps, k);
    StepKeepsDeclarations(states[k - 1], steps[k - 1], n);
  }

  /**
   * In every run, names, types and sizes stay as the application has declared
   * them, and a publisher keeps the priority it was created with, whatever the
   * broker reports.
   */
  lemma {:induction false} DeclarationsStay(states: seq<Sys>, steps: seq<Step>, k: nat, n: nat)
    requires IsPath(states, steps) && k < |states| && n < |states[0].hosts|
    ensures n < |states[k].hosts| && SameDeclarations(states[0].hosts[n], states[k].hosts[n])
  {
    if k > 0 {
      DeclarationsStay(states, steps, k - 1, n);
      DeclarationsLink(states, steps, k, n);
      DeclarationsTransitive(states[0].hosts[n], states[k - 1].hosts[n], states[k].hosts[n]);
    }
  }

  // ---- view agreement ------------------------------------------------------

  /** What a node has learned when connected stays as it is. */
  ghost predicate SameIdentity(h: Host, g: Host) {
    && g.status.Connected? && g.pc == h.pc && SameShape(h.core, g.core)
  }

  lemma {:induction false} ConnectedStays(states: seq<Sys>, steps: seq<Step>, k: nat, l: nat, n: nat)
    requires IsPath(states, steps) && k <= l < |states| && n < |states[k].hosts|
    requires states[k].hosts[n].status.Connected?
    ensures n < |states[l].hosts| && SameIdentity(states[k].hosts[n], states[l].hosts[n])
    decreases l
  {
    if k < l {
      ConnectedStays(states, steps, k, l - 1, n);
      ConnectedLink(states, steps, l, n);
      SameIdentityTransitive(states[k].hosts[n], states[l - 1].hosts[n], states[l].hosts[n]);
    } else {
      SameIdentityReflexive(states[k].hosts[n]);
    }
  }

  lemma SameIdentityReflexive(h: Host)
    requires h.status.Connected?
    ensures SameIdentity(h, h)
  {
  }

  lemma SameIdentityTransitive(a: Host, b: Host, c: Host)
    requires SameIdentity(a, b) && SameIdentity(b, c)
    ensures SameIdentity(a, c)
  {
    SameShapeTransitive(a.core, b.core, c.core);
  }

  lemma ConnectedLink(states: seq<Sys>, steps: seq<Step>, l: nat, n: nat)
    requires IsPath(states, steps) && 0 < l < |states| && n < |states[l - 1].hosts|
    requires states[l - 1].hosts[n].status.Connected?
    ensures n < |states[l].hosts| && SameIdentity(states[l - 1].hosts[n], states[l].hosts[n])
  {
    LastLink(states, steps, l);
    ConnectedStep(states[l - 1], steps[l - 1], n);
  }

  lemma ConnectedStep(s: Sys, step: Step, n: nat)
    requires Shaped(s) && Enabled(s, step) && n < |s.hosts| && s.hosts[n].status.Connected?
    ensures n < |Apply(s, step).hosts| && SameIdentity(s.hosts[n], Apply(s, step).hosts[n])
  {
    ApplyHost(s, step, n);
    if step.TakeIn? && step.n == n {
      TakeInFrame(s.hosts[n], s.inbox[n][step.k], step.stale);
    }
  }

  lemma SameShapeTransitive<P, S>(a: Node<P, S>, b: Node<P, S>, c: Node<P, S>)
    requires SameShape(a, b) && SameShape(b, c)
    ensures SameShape(a, c)
  {
  }

  /**
   * Once `connect` has succeeded, in every later state the broker's entry at the
   * node's ID is that node, and all its topic and type IDs resolve to its own
   * topic names, type names, sizes and, unless don't-care, priorities; and the
   * broker lists the node as publisher or subscriber of each of these topics.
   */
  lemma ViewAgreement(states: seq<Sys>, steps: seq<Step>, k: nat, l: nat, n: nat)
    requires IsRun(states, steps) && k <= l < |states| && n < |states[k].hosts|
    requires states[k].hosts[n].status.Connected? && Bounded(states[l])
    ensures n < |states[l].hosts|
    ensures var d := states[k].hosts[n].core;
            var r := states[l].broker.registry;
            && d.nodeId < |r.nodes| && r.nodes[d.nodeId] == NodeInfo(d.name, n)
            && (forall i | 0 <= i < |d.pubs| ::
                  && TypeView(r, d.pubs[i].typeId, d.pubs[i].typeName, d.pubs[i].size)
                  && TopicView(r, d.pubs[i].topicId, d.pubs[i].topicName, d.pubs[i].typeId)
                  && (d.pubs[i].priority != DONT_CARE ==> r.topics[d.pubs[i].topicId].priority == d.pubs[i].priority)
                  && d.nodeId in r.topics[d.pubs[i].topicId].publishers)
            && (forall j | 0 <= j < |d.subs| ::
                  && TypeView(r, d.subs[j].typeId, d.subs[j].typeName, d.subs[j].size)
                  && TopicView(r, d.subs[j].topicId, d.subs[j].topicName, d.subs[j].typeId)
                  && r.topics[d.subs[j].topicId].priority == d.subs[j].priority
                  && d.nodeId in r.topics[d.subs[j].topicId].subscribers)
    ensures SameIdentity(states[k].hosts[n], states[l].hosts[n])
  {
    ConnectedStays(states, steps, k, l, n);
    RunKeepsStatus(states, steps, k, n);
    ReachableNode(states, steps, l, n);
    var g := states[l].hosts[n];
    var r := states[l].broker.registry;
    var d := states[k].hosts[n].core;
    forall i | 0 <= i < |d.pubs|
      ensures TypeView(r, d.pubs[i].typeId, d.pubs[i].typeName, d.pubs[i].size)
      ensures TopicView(r, d.pubs[i].topicId, d.pubs[i].topicName, d.pubs[i].typeId)
      ensures d.pubs[i].priority != DONT_CARE ==> r.topics[d.pubs[i].topicId].priority == d.pubs[i].priority
      ensures d.nodeId in r.topics[d.pubs[i].topicId].publishers
    {
      assert PubView(r, g.pc, i, g.core.pubs[i]) && PubListed(r, g, i);
    }
    forall j | 0 <= j < |d.subs|
      ensures TypeView(r, d.subs[j].typeId, d.subs[j].typeName, d.subs[j].size)
      ensures TopicView(r, d.subs[j].topicId, d.subs[j].topicName, d.subs[j].typeId)
      ensures r.topics[d.subs[j].topicId].priority == d.subs[j].priority
      ensures d.nodeId in r.topics[d.subs[j].topicId].subscribers
    {
      assert SubView(r, g.pc, j, g.core.subs[j]) && SubListed(r, g, j);
    }
  }

  /**
   * Whatever packet the broker receives in a run, it never reads past its type
   * table, and its tables stay consistent.
   */
  lemma BrokerStaysInRange(states: seq<Sys>, steps: seq<Step>, k: nat, n: nat, i: nat)
    requires IsRun(states, steps) && k < |states| && Bounded(states[k])
    requires n < |states[k].hosts| && i < |states[k].hosts[n].sent|
    ensures RegistryOk(states[k].broker.registry)
    ensures states[k].hosts[n].sent[i].packet.ControlPacket? ==>
              InRange(states[k].broker.registry, states[k].hosts[n].sent[i].packet.request)
  {
    RunInvariant(states, steps, k);
    assert RequestsInRange(states[k].broker.registry, states[k].hosts[n]);
  }

  // ---- end-to-end integrity ------------------------------------------------

  /** The publisher and publish index a handed message goes back to. */
  ghost predicate ComesFrom(s: Sys, m: Msg, q: nat, p: nat, i: nat)
    requires Shaped(s)
  {
    Traced(s, m.origin) && m.origin.node == q && s.hosts[q].sent[m.origin.attempt].source == FromPub(p, i)
  }

  /**
   * Every payload given to a callback is byte for byte one that `publish`
   * accepted, on a publisher of the same topic name, type name and size,
   * although the receiver checks neither type nor size.
   */
  lemma EndToEndIntegrity(states: seq<Sys>, steps: seq<Step>, k: nat, n: nat, j: nat, x: nat)
    returns (q: nat, p: nat, i: nat)
    requires IsRun(states, steps) && k < |states| && Bounded(states[k])
    requires n < |states[k].hosts| && j < |states[k].hosts[n].core.subs| && x < |states[k].hosts[n].handed[j]|
    ensures q < |states[k].hosts| && p < |states[k].hosts[q].core.pubs| && i < |states[k].hosts[q].published[p]|
    ensures var u := states[k].hosts[n].core.subs[j];
            var pub := states[k].hosts[q].core.pubs[p];
            && states[k].hosts[n].handed[j][x].payload == states[k].hosts[q].published[p][i]
            && pub.topicName == u.topicName && pub.typeName == u.typeName && pub.size == u.size
            && |states[k].hosts[n].handed[j][x].payload| == u.size
    ensures ComesFrom(states[k], states[k].hosts[n].handed[j][x], q, p, i)
  {
    ReachableMessage(states, steps, k, n, j, x);
    var s := states[k];
    var m := s.hosts[n].handed[j][x];
    q := m.origin.node;
    p := s.hosts[q].sent[m.origin.attempt].source.pub;
    i := s.hosts[q].sent[m.origin.attempt].source.index;
    assert QueueAt(s.hosts[q].core.pubs[p], s.hosts[q].published[p]);
  }

  lemma ReachableMessage(states: seq<Sys>, steps: seq<Step>, k: nat, n: nat, j: nat, x: nat)
    requires IsRun(states, steps) && k < |states| && Bounded(states[k])
    requires n < |states[k].hosts| && j < |states[k].hosts[n].core.subs| && x < |states[k].hosts[n].handed[j]|
    ensures var m := states[k].hosts[n].handed[j][x];
            MsgOk(states[k], states[k].hosts[n].core.subs[j], m) && QueuesAt(states[k].hosts[m.origin.node])
  {
    RunInvariant(states, steps, k);
    var s := states[k];
    assert MsgsOk(s, n, j);
    var m := s.hosts[n].handed[j][x];
    assert MsgOk(s, s.hosts[n].core.subs[j], m);
    assert PublishedAt(s.hosts[m.origin.node]);
  }

  // ---- end-to-end order and copies -----------------------------------------

  /**
   * If a node takes packets in in the order the broker sent them to it, the
   * publish indices of one publisher's messages never decrease at its subscribers.
   */
  lemma EndToEndOrder(states: seq<Sys>, steps: seq<Step>, k: nat, n: nat, j: nat, x: nat, y: nat, q: nat, p: nat,
                      i: nat, i': nat)
    requires IsRun(states, steps) && k < |states| && Bounded(states[k])
    requires forall z | 0 <= z < k :: InOrderAt(steps[z], n)
    requires n < |states[k].hosts| && j < |states[k].hosts[n].core.subs| && x < y < |states[k].hosts[n].handed[j]|
    requires ComesFrom(states[k], states[k].hosts[n].handed[j][x], q, p, i)
    requires ComesFrom(states[k], states[k].hosts[n].handed[j][y], q, p, i')
    ensures i <= i'
  {
    RunInvariant(states, steps, k);
    RunOrder(states, steps, k, n);
    assert PublishedAt(states[k].hosts[q]);
    IndicesInOrder(states[k], n, j, x, y, q, p, i, i');
  }

  lemma IndicesInOrder(s: Sys, n: nat, j: nat, x: nat, y: nat, q: nat, p: nat, i: nat, i': nat)
    requires Shaped(s) && n < |s.hosts| && j < |s.hosts[n].core.subs| && x < y < |s.hosts[n].handed[j]|
    requires InSendOrder(Trail(s, n, j)) && q < |s.hosts| && IndicesAt(s.hosts[q])
    requires ComesFrom(s, s.hosts[n].handed[j][x], q, p, i) && ComesFrom(s, s.hosts[n].handed[j][y], q, p, i')
    ensures i <= i'
  {
    var handed := s.hosts[n].handed[j];
    assert Trail(s, n, j)[x] == MsgOrigins(handed)[x] == handed[x].origin;
    assert Trail(s, n, j)[y] == MsgOrigins(handed)[y] == handed[y].origin;
  }

  /** How many of the messages come from publish number `i` of publisher `p` of node `q`. */
  ghost function Occurrences(s: Sys, ms: seq<Msg>, q: nat, p: nat, i: nat): nat
    requires Shaped(s)
  {
    if ms == [] then 0
    else (if ComesFrom(s, ms[0], q, p, i) then 1 else 0) + Occurrences(s, ms[1..], q, p, i)
  }

  lemma {:induction false} OccurrencesAreCopies(s: Sys, ms: seq<Msg>, q: nat, p: nat, i: nat, o: Origin)
    requires Shaped(s) && q < |s.hosts| && IndicesAt(s.hosts[q])
    requires Traced(s, o) && o.node == q && s.hosts[q].sent[o.attempt].source == FromPub(p, i)
    ensures Occurrences(s, ms, q, p, i) <= multiset(MsgOrigins(ms))[o]
    decreases |ms|
  {
    if ms != [] {
      OccurrencesAreCopies(s, ms[1..], q, p, i, o);
      OriginsAppend([ms[0]], ms[1..], [], []);
      assert ms == [ms[0]] + ms[1..];
      assert MsgOrigins([ms[0]]) == [ms[0].origin];
      if ComesFrom(s, ms[0], q, p, i) {
        assert ms[0].origin == o;
      }
    }
  }

  lemma {:induction false} NoOccurrences(s: Sys, ms: seq<Msg>, q: nat, p: nat, i: nat)
    requires Shaped(s) && forall x | 0 <= x < |ms| :: !ComesFrom(s, ms[x], q, p, i)
    ensures Occurrences(s, ms, q, p, i) == 0
    decreases |ms|
  {
    if ms != [] {
      NoOccurrences(s, ms[1..], q, p, i);
    }
  }

  /**
   * In every run, a subscriber is handed a published message at most as often as
   * its node is subscribed to the topic, in spite of duplicated packets.
   */
  lemma BoundedCopies(states: seq<Sys>, steps: seq<Step>, k: nat, n: nat, j: nat, q: nat, p: nat, i: nat)
    requires IsRun(states, steps) && k < |states| && Bounded(states[k])
    requires n < |states[k].hosts| && j < |states[k].hosts[n].core.subs|
    requires q < |states[k].hosts| && p < |states[k].hosts[q].core.pubs|
    ensures Occurrences(states[k], states[k].hosts[n].handed[j], q, p, i)
            <= Subscribed(states[k].broker.registry, states[k].hosts[q].core.pubs[p].topicId, n)
  {
    RunInvariant(states, steps, k);
    var s := states[k];
    var handed := s.hosts[n].handed[j];
    if x :| 0 <= x < |handed| && ComesFrom(s, handed[x], q, p, i) {
      var o := handed[x].origin;
      assert PublishedAt(s.hosts[q]);
      OccurrencesAreCopies(s, handed, q, p, i, o);
      assert CopiesAt(s, n, j);
      assert Copies(s, n, j, o) >= multiset(MsgOrigins(handed))[o];
    } else {
      NoOccurrences(s, handed, q, p, i);
    }
  }

  // ---- subscriptions -------------------------------------------------------

  lemma InitSubscriptions(s: Sys)
    requires Init(s)
    ensures SubscriptionsOk(s)
  {
    forall n | 0 <= n < |s.hosts| ensures CountedAt(s.broker.registry, n, s.hosts[n], s.accepted[n]) {
      assert FreshHost(s.hosts[n]);
    }
  }

  lemma StepSubscriptionsTo(s: Sys, step: Step, t: Sys)
    requires Shaped(s) && Enabled(s, step) && Bounded(s) && Invariant(s) && SubscriptionsOk(s) && t == Apply(s, step)
    ensures Shaped(t) && SubscriptionsOk(t)
  {
    StepKeepsSubscriptions(s, step);
  }

  lemma SubscriptionsLink(states: seq<Sys>, steps: seq<Step>, k: nat)
    requires IsPath(states, steps) && 0 < k < |states| && Bounded(states[k]) && Invariant(states[k - 1])
    requires SubscriptionsOk(states[k - 1])
    ensures SubscriptionsOk(states[k])
  {
    LastStep(states, steps, k);
    StepSubscriptionsTo(states[k - 1], steps[k - 1], states[k]);
  }

  lemma {:induction false} RunSubscriptions(states: seq<Sys>, steps: seq<Step>, k: nat)
    requires IsRun(states, steps) && k < |states| && Bounded(states[k])
    ensures SubscriptionsOk(states[k])
  {
    if k == 0 {
      InitSubscriptions(states[0]);
    } else {
      InvariantLink(states, steps, k);
      RunInvariant(states, steps, k - 1);
      RunSubscriptions(states, steps, k - 1);
      SubscriptionsLink(states, steps, k);
    }
  }

  /**
   * In every run, the broker lists a connected node as publisher or subscriber of
   * a topic exactly as often as the node has publishers or subscribers with the
   * topic's ID, and as often as it has created them for the topic's name.
   */
  lemma ListsAreDeclared(states: seq<Sys>, steps: seq<Step>, k: nat, n: nat, side: Side, t: nat)
    requires IsRun(states, steps) && k < |states| && Bounded(states[k]) && n < |states[k].hosts|
    requires states[k].hosts[n].status.Connected?
    ensures var r, d := states[k].broker.registry, states[k].hosts[n].core;
            && Times(r, side, t, n) == Count(TopicIds(d, side), t)
            && (t < |r.topics| ==> Times(r, side, t, n) == Count(NamesOf(d, side), r.topics[t].name))
  {
    RunSubscriptions(states, steps, k);
    RunKeepsStatus(states, steps, k, n);
    var r, h := states[k].broker.registry, states[k].hosts[n];
    assert CountedAt(r, n, h, states[k].accepted[n]);
    AllFiled(h, side, t);
    assert !Unheard(h, states[k].accepted[n], side, t);
    if t < |r.topics| {
      ReachableNode(states, steps, k, n);
      BrokerTables(states, steps, k);
      IdsAreNames(r, n, h, side, t);
    }
  }

  lemma AllFiled(h: Host, side: Side, t: nat)
    requires h.pc == AtEnd
    ensures FiledFor(h, side, t) == Count(TopicIds(h.core, side), t)
  {
    var ids := TopicIds(h.core, side);
    assert ids[..|ids|] == ids;
  }

  lemma BrokerTables(states: seq<Sys>, steps: seq<Step>, k: nat)
    requires IsRun(states, steps) && k < |states| && Bounded(states[k])
    ensures RegistryOk(states[k].broker.registry)
  {
    RunInvariant(states, steps, k);
  }

  /** A connected node's entries have a topic's ID exactly if they were created for its name. */
  lemma IdsAreNames(r: Registry, n: nat, h: Host, side: Side, t: nat)
    requires RegistryOk(r) && ViewAt(r, n, h) && h.pc == AtEnd && t < |r.topics|
    ensures Count(TopicIds(h.core, side), t) == Count(NamesOf(h.core, side), r.topics[t].name)
  {
    var ids, names := TopicIds(h.core, side), NamesOf(h.core, side);
    forall k | 0 <= k < |ids| ensures ids[k] == t <==> names[k] == r.topics[t].name {
      assert side == OfPublishers ==> PubView(r, h.pc, k, h.core.pubs[k]);
      assert side == OfSubscribers ==> SubView(r, h.pc, k, h.core.subs[k]);
      var all := TopicNames(r.topics);
      assert all[ids[k]] == names[k] && all[t] == r.topics[t].name;
    }
    SameCount(ids, t, names, r.topics[t].name);
  }

  /** The topic of a publisher from which a message has come. */
  lemma OriginTopic(s: Sys, o: Origin)
    requires Shaped(s) && ViewsOk(s) && PublishedOk(s) && Traced(s, o)
    ensures var p := PubOf(s, o); TopicView(s.broker.registry, p.topicId, p.topicName, p.typeId)
  {
    var h := s.hosts[o.node];
    assert PublishedAt(h) && CarriesAt(h, o.attempt);
    assert PubView(s.broker.registry, h.pc, h.sent[o.attempt].source.pub, PubOf(s, o));
  }

  lemma MessageTopic(states: seq<Sys>, steps: seq<Step>, k: nat, o: Origin)
    requires IsRun(states, steps) && k < |states| && Bounded(states[k]) && Traced(states[k], o)
    ensures var p := PubOf(states[k], o); TopicView(states[k].broker.registry, p.topicId, p.topicName, p.typeId)
  {
    RunInvariant(states, steps, k);
    OriginTopic(states[k], o);
  }

  /**
   * In every run, a subscriber of a connected node is handed a published message
   * at most as often as the node itself has subscribers of the topic.
   */
  lemma CopiesAsDeclared(states: seq<Sys>, steps: seq<Step>, k: nat, n: nat, j: nat, q: nat, p: nat, i: nat)
    requires IsRun(states, steps) && k < |states| && Bounded(states[k])
    requires n < |states[k].hosts| && j < |states[k].hosts[n].core.subs| && states[k].hosts[n].status.Connected?
    requires q < |states[k].hosts| && p < |states[k].hosts[q].core.pubs|
    ensures Occurrences(states[k], states[k].hosts[n].handed[j], q, p, i)
            <= Count(NamesOf(states[k].hosts[n].core, OfSubscribers), states[k].hosts[q].core.pubs[p].topicName)
  {
    var s := states[k];
    var handed := s.hosts[n].handed[j];
    if x :| 0 <= x < |handed| && ComesFrom(s, handed[x], q, p, i) {
      BoundedCopies(states, steps, k, n, j, q, p, i);
      var pub := s.hosts[q].core.pubs[p];
      ListsAreDeclared(states, steps, k, n, OfSubscribers, pub.topicId);
      SubscribedTimes(s.broker.registry, pub.topicId, n);
      MessageTopic(states, steps, k, handed[x].origin);
    } else {
      NoOccurrences(s, handed, q, p, i);
    }
  }

  // ---- stale bytes ---------------------------------------------------------

  /** In every run, what the broker's buffer held before never matters: nodes send whole headers. */
  lemma StaleNeverMatters(states: seq<Sys>, steps: seq<Step>, k: nat, n: nat, i: nat, stale: Codec.Buffer)
    requires IsRun(states, steps) && k < |states| && Bounded(states[k])
    requires n < |states[k].hosts| && i < |states[k].hosts[n].sent|
    ensures var s := states[k];
            ReceiveOver(s.broker, n, s.hosts[n].sent[i].packet, stale)
            == Receive(s.broker, n, s.hosts[n].sent[i].packet)
  {
    RunInvariant(states, steps, k);
    var s := states[k];
    var h := s.hosts[n];
    assert PublishedAt(h);
    if h.sent[i].packet.DataPacket? {
      assert h.sent[i].source.FromPub? ==> CarriesAt(h, i);
    }
    StaleIrrelevant(s.broker, n, h.sent[i].packet, stale);
  }

  // ---- priority order ------------------------------------------------------

  /**
   * Every pass of a connected node visits each of its publishers and
   * subscribers exactly once, in non-increasing priority, subscribers first, and
   * in order of creation among those of equal priority;
   * the priority is the broker's for all subscribers and for all publishers
   * that were not created as don't-care.
   */
  lemma PriorityOrder(states: seq<Sys>, steps: seq<Step>, k: nat, n: nat)
    requires IsRun(states, steps) && k < |states| && Bounded(states[k]) && n < |states[k].hosts|
    requires states[k].hosts[n].status.Connected?
    ensures var d := states[k].hosts[n].core;
            var r := states[k].broker.registry;
            var stops := Schedule(d.levels);
            && (forall x, y | 0 <= x < y < |stops| ::
                  InOrder(stops[x], stops[y]) && Precedes(stops[x], stops[y]) && stops[x].visit != stops[y].visit)
            && (forall i | 0 <= i < |d.pubs| :: Visited(d, PubVisit(i)))
            && (forall j | 0 <= j < |d.subs| :: Visited(d, SubVisit(j)))
            && (forall x | 0 <= x < |stops| :: BrokerPriority(d, r, stops[x]))
  {
    RunInvariant(states, steps, k);
    RunKeepsStatus(states, steps, k, n);
    var h := states[k].hosts[n];
    assert IndexesAt(h) && ViewAt(states[k].broker.registry, n, h);
    IndexesWire(h);
    forall x | 0 <= x < |Schedule(h.core.levels)|
      ensures BrokerPriority(h.core, states[k].broker.registry, Schedule(h.core.levels)[x])
    {
      PriorityAgrees(states[k].broker.registry, n, h, x);
    }
    forall x, y | 0 <= x < y < |Schedule(h.core.levels)|
      ensures InOrder(Schedule(h.core.levels)[x], Schedule(h.core.levels)[y])
    {
      ScheduleInOrder(h.core.levels, x, y);
    }
  }

  lemma PriorityAgrees(r: Registry, n: nat, h: Host, x: nat)
    requires ScheduleAt(h) && ViewAt(r, n, h) && h.pc == AtEnd && x < |Schedule(h.core.levels)|
    ensures BrokerPriority(h.core, r, Schedule(h.core.levels)[x])
  {
    var stop := Schedule(h.core.levels)[x];
    assert stop in StopsOf(h);
    assert StopOk(h, stop);
    match stop.visit {
      case PubVisit(i) => assert PubView(r, h.pc, i, h.core.pubs[i]);
      case SubVisit(j) => assert SubView(r, h.pc, j, h.core.subs[j]);
    }
  }

  ghost predicate BrokerPriority<P, S>(d: Node<P, S>, r: Registry, x: Stop) {
    match x.visit
    case PubVisit(i) =>
      && i < |d.pubs| && d.pubs[i].topicId < |r.topics|
      && x.priority == (if d.pubs[i].priority == DONT_CARE then DONT_CARE else r.topics[d.pubs[i].topicId].priority)
    case SubVisit(j) =>
      && j < |d.subs| && d.subs[j].topicId < |r.topics|
      && x.priority == r.topics[d.subs[j].topicId].priority
  }

  /** Nodes reached in runs meet the assumptions under which the scheduler's properties are proved. */
  lemma ReachableNodesAreWired(states: seq<Sys>, steps: seq<Step>, k: nat, n: nat)
    requires IsRun(states, steps) && k < |states| && Bounded(states[k]) && n < |states[k].hosts|
    ensures Wired(states[k].hosts[n].core)
  {
    RunInvariant(states, steps, k);
    assert IndexesAt(states[k].hosts[n]);
    IndexesWire(states[k].hosts[n]);
  }
}
