/** Fourth layer: published payloads are conserved and reach subscribers unaltered. */
module SystemData {
  import opened Basics
  import opened BrokerModel
  import opened BrokerProofs
  import opened NodeModel
  import opened SchedulerProofs
  import opened System
  import opened SystemCounters
  import opened SystemViews
  import Codec
  import Counter

  // ---- at the publishing node ----------------------------------------------

  /** A publisher's queue is the part of its accepted payloads that has not been popped. */
  ghost predicate QueueAt(p: Pub<Bytes>, published: seq<Bytes>) {
    && |p.queue| <= |published|
    && p.queue == published[|published| - |p.queue|..]
    && forall k | 0 <= k < |published| :: |published[k]| == p.size
  }

  ghost predicate QueuesAt(h: Host)
    requires HostShaped(h)
  {
    forall p | 0 <= p < |h.core.pubs| :: QueueAt(h.core.pubs[p], h.published[p])
  }

  /** Attempt `a` carries payload number `index` of publisher `pub` under the IDs that publisher learned. */
  ghost predicate CarriesAt(h: Host, a: nat)
    requires HostShaped(h) && a < |h.sent| && h.sent[a].source.FromPub?
  {
    var x := h.sent[a];
    && x.source.pub < |h.core.pubs| && PubFiled(h.pc, x.source.pub)
    && var p := h.core.pubs[x.source.pub];
       && x.source.index < |h.published[x.source.pub]|
       && x.packet == DataPacket(Codec.EncodeData(Counter.CounterOf(h.start, a), p.topicId, p.typeId,
                                                  h.published[x.source.pub][x.source.index]))
       && (x.ok ==> x.source.index < Popped(h, x.source.pub) && Codec.PAYLOAD + p.size <= BUFFER_SIZE)
  }

  ghost predicate AttemptsAt(h: Host)
    requires HostShaped(h)
  {
    forall a | 0 <= a < |h.sent| ::
      (h.sent[a].packet.DataPacket? <==> h.sent[a].source.FromPub?) && (h.sent[a].source.FromPub? ==> CarriesAt(h, a))
  }

  /** Successful sends of one publisher carry strictly increasing publish indices. */
  ghost predicate IndicesAt(h: Host) {
    forall a, b | 0 <= a < b < |h.sent| && h.sent[a].ok && h.sent[b].ok
                  && h.sent[a].source.FromPub? && h.sent[b].source.FromPub?
                  && h.sent[a].source.pub == h.sent[b].source.pub ::
      h.sent[a].source.index < h.sent[b].source.index
  }

  ghost predicate PublishedAt(h: Host)
    requires HostShaped(h)
  {
    QueuesAt(h) && AttemptsAt(h) && IndicesAt(h)
  }

  /** A filed publisher keeps its IDs; its histories only grow. */
  ghost predicate KeepsPub(h: Host, g: Host, p: nat)
    requires HostShaped(h) && HostShaped(g) && p < |h.core.pubs| && p < |g.core.pubs|
  {
    var u, v := h.core.pubs[p], g.core.pubs[p];
    && h.published[p] <= g.published[p]
    && Popped(h, p) <= Popped(g, p)
    && v.size == u.size && v.topicName == u.topicName && v.typeName == u.typeName
    && (PubFiled(h.pc, p) ==> PubFiled(g.pc, p) && v.topicId == u.topicId && v.typeId == u.typeId)
  }

  ghost predicate KeepsSub(h: Host, g: Host, j: nat)
    requires j < |h.core.subs| && j < |g.core.subs|
  {
    var u, v := h.core.subs[j], g.core.subs[j];
    v.size == u.size && v.topicName == u.topicName && v.typeName == u.typeName
  }

  ghost predicate Keeps(h: Host, g: Host)
    requires HostShaped(h) && HostShaped(g)
  {
    && g.start == h.start && |g.core.pubs| == |h.core.pubs| && |g.core.subs| == |h.core.subs|
    && h.sent <= g.sent
    && (forall p | 0 <= p < |h.core.pubs| :: KeepsPub(h, g, p))
    && (forall j | 0 <= j < |h.core.subs| :: KeepsSub(h, g, j))
  }

  lemma PublishConserves(h: Host, p: nat, data: Bytes)
    requires HostShaped(h) && QueuesAt(h) && p < |h.core.pubs| && |data| == h.core.pubs[p].size
    ensures QueuesAt(DoPublish(h, p, data)) && Keeps(h, DoPublish(h, p, data))
  {
  }

  lemma SendConserves(h: Host, p: nat, ok: bool)
    requires HostShaped(h) && QueuesAt(h) && CanSend(h.core, p)
    ensures QueuesAt(DoSendOut(h, p, ok)) && Keeps(h, DoSendOut(h, p, ok))
    ensures h.core.pubs[p].queue[0] == h.published[p][Popped(h, p)]
  {
  }

  lemma AnswerFrame(h: Host, down: Down)
    requires PcInRange(h.core, h.pc)
    ensures var g := DoAnswer(h, down);
            && g == h.(core := g.core, pc := g.pc, status := g.status)
            && |g.core.pubs| == |h.core.pubs| && |g.core.subs| == |h.core.subs|
  {
  }

  lemma AnswerKeepsPub(h: Host, down: Down, p: nat)
    requires HostShaped(h) && PcInRange(h.core, h.pc) && HostShaped(DoAnswer(h, down))
    requires p < |h.core.pubs| && |DoAnswer(h, down).core.pubs| == |h.core.pubs|
    ensures KeepsPub(h, DoAnswer(h, down), p) && DoAnswer(h, down).core.pubs[p].queue == h.core.pubs[p].queue
  {
  }

  lemma AnswerKeepsSub(h: Host, down: Down, j: nat)
    requires PcInRange(h.core, h.pc) && j < |h.core.subs| && |DoAnswer(h, down).core.subs| == |h.core.subs|
    ensures KeepsSub(h, DoAnswer(h, down), j) && DoAnswer(h, down).core.subs[j].queue == h.core.subs[j].queue
  {
  }

  lemma AnswerConserves(h: Host, down: Down)
    requires HostShaped(h) && PcInRange(h.core, h.pc) && QueuesAt(h)
    ensures HostShaped(DoAnswer(h, down)) && Keeps(h, DoAnswer(h, down)) && QueuesAt(DoAnswer(h, down))
  {
    var g := DoAnswer(h, down);
    AnswerFrame(h, down);
    forall p | 0 <= p < |h.core.pubs| ensures KeepsPub(h, g, p) && QueueAt(g.core.pubs[p], g.published[p]) {
      AnswerKeepsPub(h, down, p);
      assert QueueAt(h.core.pubs[p], h.published[p]);
    }
    forall j | 0 <= j < |h.core.subs| ensures KeepsSub(h, g, j) {
      AnswerKeepsSub(h, down, j);
    }
  }

  /** Attempts already made keep describing what was published. */
  lemma KeepsAttempts(h: Host, g: Host)
    requires HostShaped(h) && HostShaped(g) && Keeps(h, g) && AttemptsAt(h)
    ensures forall a | 0 <= a < |h.sent| ::
              && (g.sent[a].packet.DataPacket? <==> g.sent[a].source.FromPub?)
              && (g.sent[a].source.FromPub? ==> CarriesAt(g, a))
  {
    forall a | 0 <= a < |h.sent|
      ensures g.sent[a].packet.DataPacket? <==> g.sent[a].source.FromPub?
      ensures g.sent[a].source.FromPub? ==> CarriesAt(g, a)
    {
      assert g.sent[a] == h.sent[a];
      if h.sent[a].source.FromPub? {
        assert CarriesAt(h, a);
        assert KeepsPub(h, g, h.sent[a].source.pub);
      }
    }
  }

  lemma SendKeepsPublished(h: Host, p: nat, ok: bool)
    requires HostShaped(h) && PublishedAt(h) && NumberedAt(h) && CanSend(h.core, p) && PubFiled(h.pc, p)
    requires ok ==> Codec.PAYLOAD + |h.core.pubs[p].queue[0]| <= BUFFER_SIZE
    ensures PublishedAt(DoSendOut(h, p, ok))
  {
    var g := DoSendOut(h, p, ok);
    SendConserves(h, p, ok);
    KeepsAttempts(h, g);
    var n := |h.sent|;
    WrapSucc(h.start + n);
    assert QueueAt(h.core.pubs[p], h.published[p]);
    assert CarriesAt(g, n);
    SendKeepsIndices(h, p, ok);
  }

  lemma SendKeepsIndices(h: Host, p: nat, ok: bool)
    requires HostShaped(h) && AttemptsAt(h) && IndicesAt(h) && CanSend(h.core, p)
    ensures IndicesAt(DoSendOut(h, p, ok))
  {
    var g := DoSendOut(h, p, ok);
    forall a, b | 0 <= a < b < |g.sent| && g.sent[a].ok && g.sent[b].ok
                  && g.sent[a].source.FromPub? && g.sent[b].source.FromPub?
                  && g.sent[a].source.pub == g.sent[b].source.pub
      ensures g.sent[a].source.index < g.sent[b].source.index
    {
      if b == |h.sent| {
        assert CarriesAt(h, a);
      }
    }
  }

  lemma SamePublished(h: Host, g: Host)
    requires HostShaped(h) && HostShaped(g) && PublishedAt(h) && Keeps(h, g) && QueuesAt(g)
    requires || g.sent == h.sent
             || (|g.sent| == |h.sent| + 1 && g.sent[|h.sent|].source.Rpc? && g.sent[|h.sent|].packet.ControlPacket?)
    ensures PublishedAt(g)
  {
    KeepsAttempts(h, g);
  }

  lemma VisitFiled(h: Host, p: nat)
    requires ScheduleAt(h) && Visited(h.core, PubVisit(p))
    ensures p < |h.core.pubs| && PubFiled(h.pc, p)
  {
    var stops := Schedule(h.core.levels);
    var k :| 0 <= k < |stops| && stops[k].visit == PubVisit(p);
    assert stops[k] in StopsOf(h);
  }

  /** Every step of a node conserves its payloads. */
  lemma HostStepConserves(s: Sys, step: Step)
    requires Shaped(s) && Enabled(s, step) && !step.BrokerTurn?
    requires PublishedAt(s.hosts[step.n]) && NumberedAt(s.hosts[step.n]) && IndexesAt(s.hosts[step.n])
    ensures HostShaped(HostAfter(s, step)) && PublishedAt(HostAfter(s, step))
    ensures Keeps(s.hosts[step.n], HostAfter(s, step))
  {
    var n := step.n;
    var h, g := s.hosts[n], HostAfter(s, step);
    match step {
      case Answer(_, k) =>
        AnswerConserves(h, s.inbox[n][k].down);
        SamePublished(h, g);
      case AppPublish(_, p, data) =>
        PublishConserves(h, p, data);
        SamePublished(h, g);
      case SendOut(_, p, ok) =>
        VisitFiled(h, p);
        SendConserves(h, p, ok);
        SendKeepsPublished(h, p, ok);
      case _ =>
        OtherStepFrame(s, step);
        SamePubs(h, g);
        SamePublished(h, g);
    }
  }

  lemma OtherStepFrame(s: Sys, step: Step)
    requires Shaped(s) && Enabled(s, step)
    requires step.Call? || step.Abort? || step.TakeIn? || step.Callback? || step.Lose?
    ensures var h, g := s.hosts[step.n], HostAfter(s, step);
            && HostShaped(g) && g.start == h.start && g.pc == h.pc && g.core.pubs == h.core.pubs
            && g.published == h.published
            && |g.core.subs| == |h.core.subs| && (forall j | 0 <= j < |h.core.subs| :: KeepsSub(h, g, j))
            && (|| g.sent == h.sent
                || (h.sent <= g.sent && |g.sent| == |h.sent| + 1 && g.sent[|h.sent|].source.Rpc?
                    && g.sent[|h.sent|].packet.ControlPacket?))
  {
    if step.TakeIn? {
      TakeInFrame(s.hosts[step.n], s.inbox[step.n][step.k], step.stale);
    }
  }

  lemma SamePubs(h: Host, g: Host)
    requires HostShaped(h) && HostShaped(g) && QueuesAt(h)
    requires g.start == h.start && g.pc == h.pc && g.core.pubs == h.core.pubs && g.published == h.published
    requires |g.core.subs| == |h.core.subs| && (forall j | 0 <= j < |h.core.subs| :: KeepsSub(h, g, j))
    requires h.sent <= g.sent
    ensures Keeps(h, g) && QueuesAt(g)
  {
  }

  ghost predicate PublishedOk(s: Sys)
    requires Shaped(s)
  {
    forall n | 0 <= n < |s.hosts| :: PublishedAt(s.hosts[n])
  }

  lemma StepKeepsPublished(s: Sys, step: Step)
    requires Shaped(s) && Enabled(s, step) && CountersOk(s) && IndexesOk(s) && PublishedOk(s)
    ensures Shaped(Apply(s, step)) && PublishedOk(Apply(s, step))
    ensures forall n | 0 <= n < |s.hosts| :: Keeps(s.hosts[n], Apply(s, step).hosts[n])
  {
    ApplyShaped(s, step);
    if !step.BrokerTurn? {
      HostStepConserves(s, step);
    }
    forall n | 0 <= n < |s.hosts|
      ensures PublishedAt(Apply(s, step).hosts[n]) && Keeps(s.hosts[n], Apply(s, step).hosts[n])
    {
      ApplyHost(s, step, n);
      if Apply(s, step).hosts[n] == s.hosts[n] {
        KeepsReflexive(s.hosts[n]);
      }
    }
  }

  lemma KeepsReflexive(h: Host)
    requires HostShaped(h)
    ensures Keeps(h, h)
  {
  }

  // ---- on the way to subscribers -------------------------------------------

  /** `o` is an accepted attempt that carries a published payload. */
  ghost predicate Traced(s: Sys, o: Origin)
    requires Shaped(s)
  {
    && o.node < |s.hosts|
    && o.attempt < |s.accepted[o.node]|
    && o.attempt < |s.hosts[o.node].sent|
    && var x := s.hosts[o.node].sent[o.attempt];
       && x.ok && x.source.FromPub?
       && x.source.pub < |s.hosts[o.node].core.pubs|
       && x.source.index < |s.hosts[o.node].published[x.source.pub]|
  }

  ghost function PubOf(s: Sys, o: Origin): Pub<Bytes>
    requires Shaped(s) && Traced(s, o)
  {
    s.hosts[o.node].core.pubs[s.hosts[o.node].sent[o.attempt].source.pub]
  }

  /** The payload given to `publish`. */
  ghost function PayloadOf(s: Sys, o: Origin): Bytes
    requires Shaped(s) && Traced(s, o)
  {
    var x := s.hosts[o.node].sent[o.attempt].source;
    s.hosts[o.node].published[x.pub][x.index]
  }

  ghost predicate FlightOk(s: Sys, f: Flight)
    requires Shaped(s)
  {
    f.down.Forward? ==>
      && Traced(s, f.origin)
      && s.hosts[f.origin.node].sent[f.origin.attempt].packet == DataPacket(f.down.bytes)
  }

  /** The message is, byte for byte, a payload published on the subscriber's topic with its type and size. */
  ghost predicate MsgOk(s: Sys, u: Sub<Msg>, m: Msg)
    requires Shaped(s)
  {
    && Traced(s, m.origin)
    && m.payload == PayloadOf(s, m.origin)
    && PubOf(s, m.origin).topicName == u.topicName
    && PubOf(s, m.origin).typeName == u.typeName
    && PubOf(s, m.origin).size == u.size
  }

  ghost predicate MsgsOk(s: Sys, n: nat, j: nat)
    requires Shaped(s) && n < |s.hosts| && j < |s.hosts[n].core.subs|
  {
    var u := s.hosts[n].core.subs[j];
    && (forall k | 0 <= k < |u.queue| :: MsgOk(s, u, u.queue[k]))
    && (forall k | 0 <= k < |s.hosts[n].handed[j]| :: MsgOk(s, u, s.hosts[n].handed[j][k]))
  }

  ghost predicate IntegrityOk(s: Sys)
    requires Shaped(s)
  {
    && (forall n, k | 0 <= n < |s.hosts| && 0 <= k < |s.inbox[n]| :: FlightOk(s, s.inbox[n][k]))
    && (forall n, j | 0 <= n < |s.hosts| && 0 <= j < |s.hosts[n].core.subs| :: MsgsOk(s, n, j))
  }

  /** What was true of an origin stays true. */
  ghost predicate Grows(s: Sys, t: Sys)
    requires Shaped(s) && Shaped(t)
  {
    && |t.hosts| == |s.hosts|
    && (forall n | 0 <= n < |s.hosts| :: Keeps(s.hosts[n], t.hosts[n]))
    && (forall n | 0 <= n < |s.hosts| :: s.accepted[n] <= t.accepted[n])
  }

  lemma TracedStable(s: Sys, t: Sys, o: Origin)
    requires Shaped(s) && Shaped(t) && Grows(s, t) && Traced(s, o)
    ensures Traced(t, o) && PayloadOf(t, o) == PayloadOf(s, o)
    ensures t.hosts[o.node].sent[o.attempt] == s.hosts[o.node].sent[o.attempt]
    ensures PubOf(t, o).topicName == PubOf(s, o).topicName && PubOf(t, o).typeName == PubOf(s, o).typeName
    ensures PubOf(t, o).size == PubOf(s, o).size
  {
    assert Keeps(s.hosts[o.node], t.hosts[o.node]);
    var p := s.hosts[o.node].sent[o.attempt].source.pub;
    assert KeepsPub(s.hosts[o.node], t.hosts[o.node], p);
  }

  lemma MsgStable(s: Sys, t: Sys, u: Sub<Msg>, v: Sub<Msg>, m: Msg)
    requires Shaped(s) && Shaped(t) && Grows(s, t) && MsgOk(s, u, m)
    requires v.topicName == u.topicName && v.typeName == u.typeName && v.size == u.size
    ensures MsgOk(t, v, m)
  {
    TracedStable(s, t, m.origin);
  }

  lemma FlightStable(s: Sys, t: Sys, f: Flight)
    requires Shaped(s) && Shaped(t) && Grows(s, t) && FlightOk(s, f)
    ensures FlightOk(t, f)
  {
    if f.down.Forward? {
      TracedStable(s, t, f.origin);
    }
  }

  /** An accepted data packet is traced. */
  lemma AcceptedTraced(s: Sys, n: nat, i: nat)
    requires Shaped(s) && Enabled(s, BrokerTurn(n, i)) && CountersOk(s) && PublishedOk(s) && Bounded(s)
    requires AcceptsPacket(s.broker, n, s.hosts[n].sent[i].packet) && s.hosts[n].sent[i].packet.DataPacket?
    ensures Shaped(DoBrokerTurn(s, n, i)) && Traced(DoBrokerTurn(s, n, i), Origin(n, i))
    ensures i == |s.accepted[n]|
  {
    AcceptsNext(s.broker, n, s.hosts[n], s.accepted[n], s.inbox[n], i);
    assert CarriesAt(s.hosts[n], i);
  }

  lemma BrokerTurnKeepsIntegrity(s: Sys, n: nat, i: nat)
    requires Shaped(s) && Enabled(s, BrokerTurn(n, i)) && CountersOk(s) && PublishedOk(s) && IntegrityOk(s)
    requires Bounded(s)
    requires Shaped(DoBrokerTurn(s, n, i)) && Grows(s, DoBrokerTurn(s, n, i))
    ensures IntegrityOk(DoBrokerTurn(s, n, i))
  {
    var t := DoBrokerTurn(s, n, i);
    var p := s.hosts[n].sent[i].packet;
    var sends := Receive(s.broker, n, p).sends;
    forall m, k | 0 <= m < |t.hosts| && 0 <= k < |t.inbox[m]| ensures FlightOk(t, t.inbox[m][k]) {
      if k < |s.inbox[m]| {
        FlightStable(s, t, s.inbox[m][k]);
      } else {
        RepliesGoHome(s.broker, n, p, m, Origin(n, i));
        assert t.inbox[m][k] == Arriving(sends, m, Origin(n, i))[k - |s.inbox[m]|];
        if p.DataPacket? {
          AcceptedTraced(s, n, i);
        }
      }
    }
    forall m, j | 0 <= m < |t.hosts| && 0 <= j < |t.hosts[m].core.subs| ensures MsgsOk(t, m, j) {
      MsgsStable(s, t, m, j);
    }
  }

  lemma MsgsStable(s: Sys, t: Sys, n: nat, j: nat)
    requires Shaped(s) && Shaped(t) && Grows(s, t) && n < |s.hosts| && j < |s.hosts[n].core.subs|
    requires MsgsOk(s, n, j)
    requires j < |t.hosts[n].core.subs|
    requires t.hosts[n].handed[j] == s.hosts[n].handed[j]
    requires t.hosts[n].core.subs[j].queue == s.hosts[n].core.subs[j].queue
    ensures MsgsOk(t, n, j)
  {
    MsgsGrow(s, t, n, j, []);
  }

  /** IDs below the registry bounds survive the 32-bit header fields. */
  lemma DataFieldsRead(h: Host, r: Registry, n: nat, a: nat, stale: Bytes)
    requires HostShaped(h) && a < |h.sent| && h.sent[a].source.FromPub? && CarriesAt(h, a) && h.sent[a].ok
    requires QueuesAt(h) && ViewAt(r, n, h) && |r.topics| <= WORD && |r.types| <= WORD
    ensures var p := h.core.pubs[h.sent[a].source.pub];
            var payload := h.published[h.sent[a].source.pub][h.sent[a].source.index];
            var bytes := h.sent[a].packet.bytes;
            var buffer := Codec.Overlay(stale, bytes);
            && TopicView(r, p.topicId, p.topicName, p.typeId) && TypeView(r, p.typeId, p.typeName, p.size)
            && |payload| == p.size && |bytes| == Codec.PAYLOAD + p.size <= |buffer|
            && Codec.Decode(buffer, |bytes|) == Codec.Data(Counter.CounterOf(h.start, a), p.topicId, p.typeId, p.size)
            && Codec.CopyOut(buffer, p.size) == payload
  {
    var x := h.sent[a].source;
    var p := h.core.pubs[x.pub];
    assert PubView(r, h.pc, x.pub, p) && QueueAt(p, h.published[x.pub]);
    Codec.DataRoundTrip(stale, Counter.CounterOf(h.start, a), p.topicId, p.typeId, h.published[x.pub][x.index]);
  }

  /** A subscriber filed under the packet's topic ID agrees with the publisher on topic, type and size. */
  lemma SubscriberAgrees(s: Sys, n: nat, j: nat, o: Origin)
    requires Shaped(s) && ViewsOk(s) && IndexesOk(s) && PublishedOk(s) && Traced(s, o)
    requires n < |s.hosts| && j < |s.hosts[n].core.subs| && SubFiled(s.hosts[n].pc, j)
    requires s.hosts[n].core.subs[j].topicId == PubOf(s, o).topicId
    ensures PubOf(s, o).topicName == s.hosts[n].core.subs[j].topicName
    ensures PubOf(s, o).typeName == s.hosts[n].core.subs[j].typeName
    ensures PubOf(s, o).size == s.hosts[n].core.subs[j].size
  {
    var r := s.broker.registry;
    assert SubView(r, s.hosts[n].pc, j, s.hosts[n].core.subs[j]);
    assert CarriesAt(s.hosts[o.node], o.attempt);
    var p := s.hosts[o.node].sent[o.attempt].source.pub;
    assert PubView(r, s.hosts[o.node].pc, p, PubOf(s, o));
  }

  /** Taking in a traced packet delivers its payload under its publisher's topic ID, for every stale buffer content. */
  lemma TakeInDelivers(s: Sys, n: nat, k: nat, stale: Bytes) returns (copy: nat -> Msg)
    requires Shaped(s) && n < |s.hosts| && k < |s.inbox[n]| && |stale| == BUFFER_SIZE
    requires ViewsOk(s) && PublishedOk(s) && IntegrityOk(s) && Bounded(s)
    requires s.inbox[n][k].down.Forward?
    ensures var f := s.inbox[n][k];
            && Traced(s, f.origin)
            && DoTakeIn(s.hosts[n], f, stale).core == Deliver(s.hosts[n].core, PubOf(s, f.origin).topicId, copy)
            && copy(PubOf(s, f.origin).size) == Msg(PayloadOf(s, f.origin), f.origin)
            && forall size: nat :: copy(size).origin == f.origin
  {
    var f := s.inbox[n][k];
    assert FlightOk(s, f);
    var g := s.hosts[f.origin.node];
    assert CarriesAt(g, f.origin.attempt);
    DataFieldsRead(g, s.broker.registry, f.origin.node, f.origin.attempt, stale);
    copy := Copier(Codec.Overlay(stale, f.down.bytes), f.origin);
  }

  /** What `process_incoming_message` does to one subscriber's queue. */
  lemma TakeInQueues(s: Sys, n: nat, k: nat, stale: Bytes, j: nat)
    requires Shaped(s) && n < |s.hosts| && k < |s.inbox[n]| && |stale| == BUFFER_SIZE && j < |s.hosts[n].core.subs|
    requires ViewsOk(s) && IndexesOk(s) && PublishedOk(s) && IntegrityOk(s) && Bounded(s)
    ensures var u := s.hosts[n].core.subs[j];
            var f := s.inbox[n][k];
            var after := DoTakeIn(s.hosts[n], f, stale).core.subs;
            && |after| == |s.hosts[n].core.subs|
            && (|| after[j].queue == u.queue
                || (&& f.down.Forward? && Traced(s, f.origin)
                    && after[j].queue == u.queue + [Msg(PayloadOf(s, f.origin), f.origin)]
                    && MsgOk(s, u, Msg(PayloadOf(s, f.origin), f.origin))))
  {
    var h := s.hosts[n];
    var f := s.inbox[n][k];
    if f.down.Forward? {
      var copy := TakeInDelivers(s, n, k, stale);
      var t := PubOf(s, f.origin).topicId;
      if HasSubscribers(h.core, t) {
        QueueAllAt(h.core, h.core.topics[t].subs, copy);
        if j in h.core.topics[t].subs {
          SubscriberAgrees(s, n, j, f.origin);
        }
      }
    }
  }

  lemma HostStepKeepsFlights(s: Sys, step: Step, m: nat, k: nat)
    requires Shaped(s) && Enabled(s, step) && !step.BrokerTurn? && IntegrityOk(s)
    requires Shaped(Apply(s, step)) && Grows(s, Apply(s, step))
    requires m < |s.hosts| && k < |Apply(s, step).inbox[m]|
    ensures FlightOk(Apply(s, step), Apply(s, step).inbox[m][k])
  {
    var t := Apply(s, step);
    var x := if m == step.n && Takes(step) && k >= step.k then k + 1 else k;
    assert t.inbox[m][k] == s.inbox[m][x];
    assert FlightOk(s, s.inbox[m][x]);
    FlightStable(s, t, s.inbox[m][x]);
  }

  /** Steps other than delivery and callbacks leave subscriber queues and histories alone. */
  lemma SubsFrame(s: Sys, step: Step, m: nat, j: nat)
    requires Shaped(s) && Enabled(s, step) && !step.BrokerTurn? && m < |s.hosts| && j < |s.hosts[m].core.subs|
    requires PcInRange(s.hosts[m].core, s.hosts[m].pc)
    requires !(m == step.n && (step.TakeIn? || (step.Callback? && step.j == j)))
    ensures var g := Apply(s, step).hosts[m];
            && j < |g.core.subs| && j < |g.handed| && j < |s.hosts[m].handed|
            && g.core.subs[j].queue == s.hosts[m].core.subs[j].queue && g.handed[j] == s.hosts[m].handed[j]
  {
    ApplyShaped(s, step);
    ApplyHost(s, step, m);
    if m == step.n && step.Answer? {
      AnswerFrame(s.hosts[m], s.inbox[m][step.k].down);
      AnswerKeepsSub(s.hosts[m], s.inbox[m][step.k].down, j);
    }
  }

  lemma HostStepKeepsIntegrity(s: Sys, step: Step)
    requires Shaped(s) && Enabled(s, step) && !step.BrokerTurn? && Bounded(s)
    requires ViewsOk(s) && IndexesOk(s) && PublishedOk(s) && IntegrityOk(s)
    requires Shaped(Apply(s, step)) && Grows(s, Apply(s, step))
    ensures IntegrityOk(Apply(s, step))
  {
    var t := Apply(s, step);
    var n := step.n;
    forall m, k | 0 <= m < |t.hosts| && 0 <= k < |t.inbox[m]| ensures FlightOk(t, t.inbox[m][k]) {
      HostStepKeepsFlights(s, step, m, k);
    }
    forall m, j | 0 <= m < |t.hosts| && 0 <= j < |t.hosts[m].core.subs| ensures MsgsOk(t, m, j) {
      assert Keeps(s.hosts[m], t.hosts[m]);
      if m == n && step.TakeIn? {
        TakeInKeepsMsgs(s, step, j);
      } else if m == n && step.Callback? && step.j == j {
        CallbackKeepsMsgs(s, step);
      } else {
        SubsFrame(s, step, m, j);
        assert MsgsOk(s, m, j);
        MsgsStable(s, t, m, j);
      }
    }
  }

  lemma TakeInKeepsMsgs(s: Sys, step: Step, j: nat)
    requires Shaped(s) && Enabled(s, step) && step.TakeIn? && Bounded(s)
    requires ViewsOk(s) && IndexesOk(s) && PublishedOk(s) && IntegrityOk(s)
    requires Shaped(Apply(s, step)) && Grows(s, Apply(s, step)) && j < |s.hosts[step.n].core.subs|
    ensures j < |Apply(s, step).hosts[step.n].core.subs| && MsgsOk(Apply(s, step), step.n, j)
  {
    var n, f := step.n, s.inbox[step.n][step.k];
    TakeInFrame(s.hosts[n], f, step.stale);
    TakeInQueues(s, n, step.k, step.stale, j);
    var u, v := s.hosts[n].core.subs[j], DoTakeIn(s.hosts[n], f, step.stale).core.subs[j];
    MsgsGrow(s, Apply(s, step), n, j, if v.queue == u.queue then [] else [Msg(PayloadOf(s, f.origin), f.origin)]);
  }

  /** Messages added to a queue must be published ones; the others stay so. */
  lemma MsgsGrow(s: Sys, t: Sys, n: nat, j: nat, more: seq<Msg>)
    requires Shaped(s) && Shaped(t) && Grows(s, t) && n < |s.hosts| && j < |s.hosts[n].core.subs| && MsgsOk(s, n, j)
    requires j < |t.hosts[n].core.subs| && t.hosts[n].handed[j] == s.hosts[n].handed[j]
    requires t.hosts[n].core.subs[j].queue == s.hosts[n].core.subs[j].queue + more
    requires forall m | m in more :: MsgOk(s, s.hosts[n].core.subs[j], m)
    ensures MsgsOk(t, n, j)
  {
    var u, v := s.hosts[n].core.subs[j], t.hosts[n].core.subs[j];
    assert Keeps(s.hosts[n], t.hosts[n]) && KeepsSub(s.hosts[n], t.hosts[n], j);
    forall k | 0 <= k < |v.queue| ensures MsgOk(t, v, v.queue[k]) {
      assert k >= |u.queue| ==> v.queue[k] in more;
      MsgStable(s, t, u, v, v.queue[k]);
    }
    forall k | 0 <= k < |t.hosts[n].handed[j]| ensures MsgOk(t, v, t.hosts[n].handed[j][k]) {
      MsgStable(s, t, u, v, s.hosts[n].handed[j][k]);
    }
  }

  lemma CallbackKeepsMsgs(s: Sys, step: Step)
    requires Shaped(s) && Enabled(s, step) && step.Callback? && IntegrityOk(s)
    requires Shaped(Apply(s, step)) && Grows(s, Apply(s, step))
    ensures step.j < |Apply(s, step).hosts[step.n].core.subs| && MsgsOk(Apply(s, step), step.n, step.j)
  {
    var t := Apply(s, step);
    var n, j := step.n, step.j;
    var u, v := s.hosts[n].core.subs[j], t.hosts[n].core.subs[j];
    assert MsgsOk(s, n, j);
    forall k | 0 <= k < |v.queue| ensures MsgOk(t, v, v.queue[k]) {
      MsgStable(s, t, u, v, u.queue[k + 1]);
    }
    forall k | 0 <= k < |t.hosts[n].handed[j]| ensures MsgOk(t, v, t.hosts[n].handed[j][k]) {
      MsgStable(s, t, u, v, (s.hosts[n].handed[j] + [u.queue[0]])[k]);
    }
  }

  lemma StepGrows(s: Sys, step: Step)
    requires Shaped(s) && Enabled(s, step) && CountersOk(s) && IndexesOk(s) && PublishedOk(s)
    ensures Shaped(Apply(s, step)) && Grows(s, Apply(s, step))
  {
    StepKeepsPublished(s, step);
  }

  /** Every step keeps delivered messages equal to published ones. */
  lemma StepKeepsIntegrity(s: Sys, step: Step)
    requires Shaped(s) && Enabled(s, step) && Bounded(s)
    requires CountersOk(s) && ViewsOk(s) && IndexesOk(s) && PublishedOk(s) && IntegrityOk(s)
    ensures Shaped(Apply(s, step)) && IntegrityOk(Apply(s, step))
  {
    StepGrows(s, step);
    if step.BrokerTurn? {
      BrokerTurnKeepsIntegrity(s, step.n, step.i);
    } else {
      HostStepKeepsIntegrity(s, step);
    }
  }
}
