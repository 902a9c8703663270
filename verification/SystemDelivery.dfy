/** Fifth layer: how often and in which order accepted messages reach a subscriber. */
module SystemDelivery {
  import opened Basics
  import opened BrokerModel
  import opened BrokerProofs
  import opened NodeModel
  import opened System
  import opened SystemCounters
  import opened SystemRpc
  import opened SystemViews
  import opened SystemData
  import Codec

  // ---- trails --------------------------------------------------------------

  ghost function MsgOrigins(ms: seq<Msg>): (os: seq<Origin>)
    ensures |os| == |ms|
  {
    seq(|ms|, k requires 0 <= k < |ms| => ms[k].origin)
  }

  ghost function FlightOrigins(fs: seq<Flight>): (os: seq<Origin>)
    ensures |os| == |fs|
  {
    seq(|fs|, k requires 0 <= k < |fs| => fs[k].origin)
  }

  /** Origins of everything subscriber `j` of node `n` was handed, has queued or may still get, in this order. */
  ghost function Trail(s: Sys, n: nat, j: nat): seq<Origin>
    requires Shaped(s) && n < |s.hosts| && j < |s.hosts[n].core.subs|
  {
    MsgOrigins(s.hosts[n].handed[j]) + MsgOrigins(s.hosts[n].core.subs[j].queue) + FlightOrigins(s.inbox[n])
  }

  lemma OriginsAppend(a: seq<Msg>, b: seq<Msg>, f: seq<Flight>, g: seq<Flight>)
    ensures MsgOrigins(a + b) == MsgOrigins(a) + MsgOrigins(b)
    ensures FlightOrigins(f + g) == FlightOrigins(f) + FlightOrigins(g)
  {
  }

  lemma OriginsRemove(f: seq<Flight>, k: nat)
    requires k < |f|
    ensures FlightOrigins(RemoveAt(f, k)) == RemoveAt(FlightOrigins(f), k)
  {
  }

  /** `after` is `before`, or `before` without one element. */
  ghost predicate AtMostOneGone(before: seq<Origin>, after: seq<Origin>) {
    after == before || exists x | 0 <= x < |before| :: after == RemoveAt(before, x)
  }

  lemma TakenTrail(head: seq<Origin>, fs: seq<Flight>, k: nat)
    requires k < |fs|
    ensures AtMostOneGone(head + FlightOrigins(fs), head + FlightOrigins(RemoveAt(fs, k)))
  {
    OriginsRemove(fs, k);
    assert head + FlightOrigins(RemoveAt(fs, k)) == RemoveAt(head + FlightOrigins(fs), |head| + k);
  }

  lemma QueuedTrail(handed: seq<Msg>, queue: seq<Msg>, m: Msg, fs: seq<Flight>, k: nat)
    requires k < |fs| && fs[k].origin == m.origin
    ensures var before := MsgOrigins(handed) + MsgOrigins(queue) + FlightOrigins(fs);
            var after := MsgOrigins(handed) + MsgOrigins(queue + [m]) + FlightOrigins(RemoveAt(fs, k));
            multiset(after) == multiset(before) && (k == 0 ==> after == before)
  {
    OriginsAppend(queue, [m], [], []);
    OriginsRemove(fs, k);
    MultisetRemoveAt(FlightOrigins(fs), k);
    assert MsgOrigins([m]) == [m.origin];
  }

  /** If the step takes in a packet at node `n`, it is the first one that the broker sent there. */
  predicate InOrderAt(step: Step, n: nat) {
    step.TakeIn? && step.n == n ==> step.k == 0
  }

  /** A node's step takes at most one element off a trail; in-order receiving keeps the rest in place. */
  lemma HostTrail(s: Sys, step: Step, n: nat, j: nat)
    requires Shaped(s) && Enabled(s, step) && !step.BrokerTurn? && Bounded(s)
    requires ViewsOk(s) && IndexesOk(s) && PublishedOk(s) && IntegrityOk(s)
    requires n < |s.hosts| && j < |s.hosts[n].core.subs|
    requires Shaped(Apply(s, step)) && j < |Apply(s, step).hosts[n].core.subs|
    ensures multiset(Trail(Apply(s, step), n, j)) <= multiset(Trail(s, n, j))
    ensures InOrderAt(step, n) ==> AtMostOneGone(Trail(s, n, j), Trail(Apply(s, step), n, j))
  {
    if n == step.n && step.TakeIn? {
      TakeInTrail(s, step, j);
    } else if n == step.n && step.Callback? && step.j == j {
      CallbackTrail(s, step);
    } else {
      OtherTrail(s, step, n, j);
      GoneIsSubset(Trail(s, n, j), Trail(Apply(s, step), n, j));
    }
  }

  lemma CallbackTrail(s: Sys, step: Step)
    requires Shaped(s) && Enabled(s, step) && step.Callback? && Shaped(Apply(s, step))
    requires step.j < |Apply(s, step).hosts[step.n].core.subs|
    ensures Trail(Apply(s, step), step.n, step.j) == Trail(s, step.n, step.j)
  {
  }

  lemma OtherTrail(s: Sys, step: Step, n: nat, j: nat)
    requires Shaped(s) && Enabled(s, step) && !step.BrokerTurn? && IndexesOk(s)
    requires n < |s.hosts| && j < |s.hosts[n].core.subs|
    requires !(n == step.n && (step.TakeIn? || (step.Callback? && step.j == j)))
    requires Shaped(Apply(s, step)) && j < |Apply(s, step).hosts[n].core.subs|
    ensures AtMostOneGone(Trail(s, n, j), Trail(Apply(s, step), n, j))
  {
    var h := s.hosts[n];
    assert IndexesAt(h);
    SubsFrame(s, step, n, j);
    if n == step.n && Takes(step) {
      TakenTrail(MsgOrigins(h.handed[j]) + MsgOrigins(h.core.subs[j].queue), s.inbox[n], step.k);
    }
  }

  lemma GoneIsSubset(before: seq<Origin>, after: seq<Origin>)
    requires AtMostOneGone(before, after)
    ensures multiset(after) <= multiset(before)
  {
    if after != before {
      var x :| 0 <= x < |before| && after == RemoveAt(before, x);
      MultisetRemoveAt(before, x);
    }
  }

  lemma TakeInTrail(s: Sys, step: Step, j: nat)
    requires Shaped(s) && Enabled(s, step) && step.TakeIn? && Bounded(s)
    requires ViewsOk(s) && IndexesOk(s) && PublishedOk(s) && IntegrityOk(s)
    requires j < |s.hosts[step.n].core.subs|
    requires Shaped(Apply(s, step)) && j < |Apply(s, step).hosts[step.n].core.subs|
    ensures multiset(Trail(Apply(s, step), step.n, j)) <= multiset(Trail(s, step.n, j))
    ensures step.k > 0 || AtMostOneGone(Trail(s, step.n, j), Trail(Apply(s, step), step.n, j))
  {
    var n, k := step.n, step.k;
    var h, f := s.hosts[n], s.inbox[n][step.k];
    TakeInFrame(h, f, step.stale);
    TakeInQueues(s, n, k, step.stale, j);
    var u := h.core.subs[j];
    if Apply(s, step).hosts[n].core.subs[j].queue == u.queue {
      TakenTrail(MsgOrigins(h.handed[j]) + MsgOrigins(u.queue), s.inbox[n], k);
      GoneIsSubset(Trail(s, n, j), Trail(Apply(s, step), n, j));
    } else {
      QueuedTrail(h.handed[j], u.queue, Msg(PayloadOf(s, f.origin), f.origin), s.inbox[n], k);
    }
  }

  // ---- fan-out -------------------------------------------------------------

  /** The addresses a topic's subscriber list resolves to. */
  ghost function Addresses(r: Registry, ids: seq<nat>): (a: seq<nat>)
    ensures |a| == |ids|
  {
    seq(|ids|, k requires 0 <= k < |ids| => AddressOf(r, ids[k]))
  }

  /** How often node `n` is subscribed to topic `t`. */
  ghost function Subscribed(r: Registry, t: nat, n: nat): nat {
    if t < |r.topics| then multiset(Addresses(r, r.topics[t].subscribers))[n] else 0
  }

  lemma SubscribedGrows(r: Registry, r': Registry, t: nat, n: nat)
    requires RegistryOk(r) && Extends(r, r')
    ensures Subscribed(r, t, n) <= Subscribed(r', t, n)
  {
    if t < |r.topics| {
      assert TopicOk(r, r.topics[t]) && TopicExtends(r.topics[t], r'.topics[t]);
      var a, b := r.topics[t].subscribers, r'.topics[t].subscribers;
      assert Addresses(r', b)[..|a|] == Addresses(r, a);
      assert Addresses(r', b) == Addresses(r, a) + Addresses(r', b)[|a|..];
    }
  }

  lemma {:induction false} ArrivingCount(sends: seq<Send>, m: nat, o: Origin, to: seq<nat>)
    requires |to| == |sends| && forall k | 0 <= k < |sends| :: sends[k].to == to[k]
    ensures |Arriving(sends, m, o)| == multiset(to)[m]
  {
    if sends != [] {
      ArrivingCount(sends[1..], m, o, to[1..]);
      assert to == [to[0]] + to[1..];
    }
  }

  lemma {:induction false} AllSame(os: seq<Origin>, o: Origin)
    requires forall k | 0 <= k < |os| :: os[k] == o
    ensures multiset(os)[o] == |os|
    ensures forall x | x != o :: multiset(os)[x] == 0
  {
    if os != [] {
      AllSame(os[1..], o);
      assert os == [os[0]] + os[1..];
    }
  }

  lemma NotThere(os: seq<Origin>, o: Origin)
    requires forall k | 0 <= k < |os| :: os[k] != o
    ensures multiset(os)[o] == 0
  {
  }

  // ---- the invariant on copies ---------------------------------------------

  /** Everything on a trail goes back to an accepted attempt. */
  lemma TrailAccepted(s: Sys, n: nat, j: nat, x: nat)
    requires Shaped(s) && RpcOk(s) && IntegrityOk(s)
    requires n < |s.hosts| && j < |s.hosts[n].core.subs| && x < |Trail(s, n, j)|
    ensures var o := Trail(s, n, j)[x]; o.node < |s.hosts| && o.attempt < |s.accepted[o.node]|
  {
    var h := s.hosts[n];
    var a, b := |h.handed[j]|, |h.core.subs[j].queue|;
    assert MsgsOk(s, n, j);
    if x < a {
      assert MsgOk(s, h.core.subs[j], h.handed[j][x]);
    } else if x < a + b {
      assert MsgOk(s, h.core.subs[j], h.core.subs[j].queue[x - a]);
    } else {
      var f := s.inbox[n][x - a - b];
      assert FlightOk(s, f);
      assert Trail(s, n, j)[x] == f.origin;
      if f.down.Reply? {
        assert RpcAt(s.broker.registry, n, h, s.accepted[n], s.inbox[n]);
      }
    }
  }

  ghost function Copies(s: Sys, n: nat, j: nat, o: Origin): nat
    requires Shaped(s) && n < |s.hosts| && j < |s.hosts[n].core.subs|
  {
    multiset(Trail(s, n, j))[o]
  }

  /** No subscriber sees a message more often than its node is subscribed to the topic. */
  ghost predicate CopiesAt(s: Sys, n: nat, j: nat)
    requires Shaped(s) && n < |s.hosts| && j < |s.hosts[n].core.subs|
  {
    forall o | Traced(s, o) :: Copies(s, n, j, o) <= Subscribed(s.broker.registry, PubOf(s, o).topicId, n)
  }

  ghost predicate CopiesOk(s: Sys)
    requires Shaped(s)
  {
    forall n, j | 0 <= n < |s.hosts| && 0 <= j < |s.hosts[n].core.subs| :: CopiesAt(s, n, j)
  }

  /** Origins traced after a step, other than the one just accepted, were traced before, to the same topic. */
  lemma TracedBefore(s: Sys, step: Step, o: Origin)
    requires Shaped(s) && Enabled(s, step) && CountersOk(s) && PublishedOk(s) && Shaped(Apply(s, step))
    requires Grows(s, Apply(s, step))
    requires Traced(Apply(s, step), o) && o.node < |s.accepted| && o.attempt < |s.accepted[o.node]|
    ensures Traced(s, o) && PubOf(Apply(s, step), o).topicId == PubOf(s, o).topicId
  {
    var t := Apply(s, step);
    var h, g := s.hosts[o.node], t.hosts[o.node];
    assert AcceptedAt(s.broker, o.node, h, s.accepted[o.node], s.inbox[o.node]);
    assert Keeps(h, g);
    assert g.sent[o.attempt] == h.sent[o.attempt];
    assert PublishedAt(h) && CarriesAt(h, o.attempt);
    assert KeepsPub(h, g, h.sent[o.attempt].source.pub);
  }

  lemma HostStepKeepsCopies(s: Sys, step: Step, n: nat, j: nat)
    requires Shaped(s) && Enabled(s, step) && !step.BrokerTurn? && Bounded(s)
    requires CountersOk(s) && ViewsOk(s) && IndexesOk(s) && PublishedOk(s) && IntegrityOk(s)
    requires n < |s.hosts| && j < |s.hosts[n].core.subs| && CopiesAt(s, n, j)
    requires Shaped(Apply(s, step)) && Grows(s, Apply(s, step)) && j < |Apply(s, step).hosts[n].core.subs|
    ensures CopiesAt(Apply(s, step), n, j)
  {
    var t := Apply(s, step);
    HostTrail(s, step, n, j);
    forall o | Traced(t, o) ensures Copies(t, n, j, o) <= Subscribed(t.broker.registry, PubOf(t, o).topicId, n) {
      TracedBefore(s, step, o);
      assert Copies(t, n, j, o) <= Copies(s, n, j, o);
    }
  }

  lemma BrokerTurnTrail(s: Sys, n: nat, i: nat, m: nat, j: nat)
    requires Shaped(s) && Enabled(s, BrokerTurn(n, i)) && m < |s.hosts| && j < |s.hosts[m].core.subs|
    requires Shaped(DoBrokerTurn(s, n, i))
    ensures var more := Arriving(Receive(s.broker, n, s.hosts[n].sent[i].packet).sends, m, Origin(n, i));
            && Trail(DoBrokerTurn(s, n, i), m, j) == Trail(s, m, j) + FlightOrigins(more)
            && forall k | 0 <= k < |more| :: FlightOrigins(more)[k] == Origin(n, i)
  {
    var sends := Receive(s.broker, n, s.hosts[n].sent[i].packet).sends;
    var more := Arriving(sends, m, Origin(n, i));
    ArrivingFrom(sends, m, Origin(n, i));
    OriginsAppend([], [], s.inbox[m], more);
    assert DoBrokerTurn(s, n, i).inbox[m] == s.inbox[m] + more;
  }

  /** Fan-out sends a node one copy per subscription. */
  lemma NewCopies(s: Sys, n: nat, i: nat, m: nat)
    requires Shaped(s) && Enabled(s, BrokerTurn(n, i)) && CountersOk(s) && ViewsOk(s) && PublishedOk(s) && Bounded(s)
    requires AcceptsPacket(s.broker, n, s.hosts[n].sent[i].packet) && s.hosts[n].sent[i].packet.DataPacket?
    requires m < |s.hosts|
    ensures var p := s.hosts[n].sent[i];
            && p.source.FromPub? && p.source.pub < |s.hosts[n].core.pubs|
            && |Arriving(Receive(s.broker, n, p.packet).sends, m, Origin(n, i))|
               == Subscribed(s.broker.registry, s.hosts[n].core.pubs[p.source.pub].topicId, m)
  {
    var h := s.hosts[n];
    var r := s.broker.registry;
    var bytes := h.sent[i].packet.bytes;
    assert PublishedAt(h) && CarriesAt(h, i);
    DataFieldsRead(h, r, n, i, Codec.Blank());
    var t := h.core.pubs[h.sent[i].source.pub].topicId;
    var subs := r.topics[t].subscribers;
    assert Distribute(r, Codec.Blank(), bytes) == FanOut(r, subs, bytes);
    ArrivingCount(FanOut(r, subs, bytes), m, Origin(n, i), Addresses(r, subs));
  }

  /** The attempt just accepted has no copies yet. */
  lemma NoCopiesYet(s: Sys, n: nat, i: nat, m: nat, j: nat)
    requires Shaped(s) && RpcOk(s) && IntegrityOk(s) && n < |s.hosts| && i == |s.accepted[n]|
    requires m < |s.hosts| && j < |s.hosts[m].core.subs|
    ensures Copies(s, m, j, Origin(n, i)) == 0
  {
    forall x | 0 <= x < |Trail(s, m, j)| ensures Trail(s, m, j)[x] != Origin(n, i) {
      TrailAccepted(s, m, j, x);
    }
    NotThere(Trail(s, m, j), Origin(n, i));
  }

  lemma BrokerTurnCopies(s: Sys, n: nat, i: nat, m: nat, j: nat, o: Origin)
    requires Shaped(s) && Enabled(s, BrokerTurn(n, i)) && m < |s.hosts| && j < |s.hosts[m].core.subs|
    requires Shaped(DoBrokerTurn(s, n, i))
    ensures Copies(DoBrokerTurn(s, n, i), m, j, o)
            == Copies(s, m, j, o)
               + if o != Origin(n, i) then 0
                 else |Arriving(Receive(s.broker, n, s.hosts[n].sent[i].packet).sends, m, o)|
  {
    BrokerTurnTrail(s, n, i, m, j);
    var more := Arriving(Receive(s.broker, n, s.hosts[n].sent[i].packet).sends, m, Origin(n, i));
    AllSame(FlightOrigins(more), Origin(n, i));
  }

  lemma BrokerTurnKeepsCopies(s: Sys, n: nat, i: nat, m: nat, j: nat)
    requires Shaped(s) && Enabled(s, BrokerTurn(n, i)) && Bounded(s)
    requires CountersOk(s) && RpcOk(s) && ViewsOk(s) && PublishedOk(s) && IntegrityOk(s)
    requires m < |s.hosts| && j < |s.hosts[m].core.subs| && CopiesAt(s, m, j)
    requires Shaped(DoBrokerTurn(s, n, i)) && Grows(s, DoBrokerTurn(s, n, i))
    ensures CopiesAt(DoBrokerTurn(s, n, i), m, j)
  {
    var t := DoBrokerTurn(s, n, i);
    var p := s.hosts[n].sent[i].packet;
    var r, r' := s.broker.registry, t.broker.registry;
    AcceptsNext(s.broker, n, s.hosts[n], s.accepted[n], s.inbox[n], i);
    ReceiveExtends(s.broker, n, p);
    forall o | Traced(t, o) ensures Copies(t, m, j, o) <= Subscribed(r', PubOf(t, o).topicId, m) {
      BrokerTurnCopies(s, n, i, m, j, o);
      if o == Origin(n, i) && i == |s.accepted[n]| {
        NoCopiesYet(s, n, i, m, j);
        assert PublishedAt(s.hosts[n]) && p.DataPacket?;
        NewCopies(s, n, i, m);
        SubscribedGrows(r, r', PubOf(t, o).topicId, m);
      } else {
        TracedBefore(s, BrokerTurn(n, i), o);
        SubscribedGrows(r, r', PubOf(s, o).topicId, m);
        if o == Origin(n, i) {
          RepliesGoHome(s.broker, n, p, m, o);
        }
      }
    }
  }

  /** Every step keeps the number of copies within the number of subscriptions. */
  lemma StepKeepsCopies(s: Sys, step: Step)
    requires Shaped(s) && Enabled(s, step) && Bounded(s)
    requires CountersOk(s) && RpcOk(s) && ViewsOk(s) && IndexesOk(s) && PublishedOk(s) && IntegrityOk(s) && CopiesOk(s)
    ensures Shaped(Apply(s, step)) && CopiesOk(Apply(s, step))
  {
    StepGrows(s, step);
    var t := Apply(s, step);
    forall n, j | 0 <= n < |t.hosts| && 0 <= j < |t.hosts[n].core.subs| ensures CopiesAt(t, n, j) {
      assert Keeps(s.hosts[n], t.hosts[n]);
      assert CopiesAt(s, n, j);
      if step.BrokerTurn? {
        BrokerTurnKeepsCopies(s, step.n, step.i, n, j);
      } else {
        HostStepKeepsCopies(s, step, n, j);
      }
    }
  }

  // ---- order ---------------------------------------------------------------

  /** Attempts of any one node appear in the order they were made. */
  ghost predicate InSendOrder(trail: seq<Origin>) {
    forall x, y | 0 <= x < y < |trail| && trail[x].node == trail[y].node :: trail[x].attempt <= trail[y].attempt
  }

  ghost predicate OrderAt(s: Sys, n: nat)
    requires Shaped(s) && n < |s.hosts|
  {
    forall j | 0 <= j < |s.hosts[n].core.subs| :: InSendOrder(Trail(s, n, j))
  }

  lemma GoneKeepsOrder(before: seq<Origin>, after: seq<Origin>)
    requires InSendOrder(before) && AtMostOneGone(before, after)
    ensures InSendOrder(after)
  {
  }

  /** Every step with in-order receiving at a node keeps its trails in send order. */
  lemma StepKeepsOrder(s: Sys, step: Step, n: nat)
    requires Shaped(s) && Enabled(s, step) && Bounded(s) && n < |s.hosts| && InOrderAt(step, n) && OrderAt(s, n)
    requires CountersOk(s) && RpcOk(s) && ViewsOk(s) && IndexesOk(s) && PublishedOk(s) && IntegrityOk(s)
    ensures Shaped(Apply(s, step)) && n < |Apply(s, step).hosts| && OrderAt(Apply(s, step), n)
  {
    StepGrows(s, step);
    var t := Apply(s, step);
    assert Keeps(s.hosts[n], t.hosts[n]);
    forall j | 0 <= j < |t.hosts[n].core.subs| ensures InSendOrder(Trail(t, n, j)) {
      if step.BrokerTurn? {
        BrokerTurnKeepsOrder(s, step.n, step.i, n, j);
      } else {
        HostTrail(s, step, n, j);
        GoneKeepsOrder(Trail(s, n, j), Trail(t, n, j));
      }
    }
  }

  lemma BrokerTurnKeepsOrder(s: Sys, n: nat, i: nat, m: nat, j: nat)
    requires Shaped(s) && Enabled(s, BrokerTurn(n, i)) && Bounded(s)
    requires CountersOk(s) && RpcOk(s) && IntegrityOk(s)
    requires m < |s.hosts| && j < |s.hosts[m].core.subs| && InSendOrder(Trail(s, m, j))
    requires Shaped(DoBrokerTurn(s, n, i))
    ensures InSendOrder(Trail(DoBrokerTurn(s, n, i), m, j))
  {
    var p := s.hosts[n].sent[i].packet;
    AcceptsNext(s.broker, n, s.hosts[n], s.accepted[n], s.inbox[n], i);
    BrokerTurnTrail(s, n, i, m, j);
    if i == |s.accepted[n]| {
      forall x | 0 <= x < |Trail(s, m, j)| && Trail(s, m, j)[x].node == n ensures Trail(s, m, j)[x].attempt < i {
        TrailAccepted(s, m, j, x);
      }
    } else {
      RepliesGoHome(s.broker, n, p, m, Origin(n, i));
    }
  }
}
