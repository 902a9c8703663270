/** Framing of steps, and the first layer of invariants: counters and prefix acceptance. */
module SystemCounters {
  import opened Basics
  import opened BrokerModel
  import opened NodeModel
  import opened System
  import BrokerProofs
  import SchedulerProofs
  import Codec
  import Counter

  // ---- framing -------------------------------------------------------------

  /** What delivery leaves alone. */
  lemma TakeInFrame(h: Host, f: Flight, stale: Bytes)
    requires |stale| == BUFFER_SIZE
    ensures var g := DoTakeIn(h, f, stale);
            && g == h.(core := g.core) && g.core == h.core.(subs := g.core.subs) && |g.core.subs| == |h.core.subs|
            && forall j | 0 <= j < |h.core.subs| :: g.core.subs[j] == h.core.subs[j].(queue := g.core.subs[j].queue)
  {
    var inc := Carried(f, stale);
    if Deliverable(h.core, inc) {
      SchedulerProofs.QueueAllAt(h.core, h.core.topics[inc.topicId].subs, inc.copy);
    }
  }

  /** Every step keeps the state well shaped, so runs exist for every choice of enabled steps. */
  lemma ApplyShaped(s: Sys, step: Step)
    requires Shaped(s) && Enabled(s, step)
    ensures Shaped(Apply(s, step)) && |Apply(s, step).hosts| == |s.hosts|
  {
    if step.TakeIn? {
      TakeInFrame(s.hosts[step.n], s.inbox[step.n][step.k], step.stale);
    }
  }

  /** A step changes one node at most. */
  lemma ApplyHost(s: Sys, step: Step, m: nat)
    requires Shaped(s) && Enabled(s, step) && m < |s.hosts|
    ensures |Apply(s, step).hosts| == |s.hosts|
    ensures Apply(s, step).hosts[m]
            == if step.BrokerTurn? || m != step.n then s.hosts[m] else HostAfter(s, step)
  {
  }

  /** Steps other than a call's touch only queues, counters and histories, and only data packets are sent. */
  lemma OtherStep(s: Sys, step: Step)
    requires Shaped(s) && Enabled(s, step) && !step.BrokerTurn? && !step.Call? && !step.Answer? && !step.Abort?
    ensures var h, g := s.hosts[step.n], HostAfter(s, step);
            && SchedulerProofs.SameShape(h.core, g.core) && g.pc == h.pc && g.status == h.status
            && h.sent <= g.sent && |g.sent| <= |h.sent| + 1
            && (|g.sent| > |h.sent| ==> g.sent[|h.sent|].packet.DataPacket?)
            && (h.status.Connecting? || h.status.Waiting? ==> g.sent == h.sent && g.core.counter == h.core.counter)
  {
    if step.TakeIn? {
      TakeInFrame(s.hosts[step.n], s.inbox[step.n][step.k], step.stale);
    }
  }

  /** Two consecutive states of a path. */
  lemma LastLink(states: seq<Sys>, steps: seq<Step>, k: nat)
    requires IsPath(states, steps) && 0 < k < |states|
    ensures Enabled(states[k - 1], steps[k - 1]) && states[k] == Apply(states[k - 1], steps[k - 1])
    ensures |states[k].hosts| == |states[k - 1].hosts|
  {
    assert Link(states, steps, k - 1);
    ApplyShaped(states[k - 1], steps[k - 1]);
  }

  lemma ReceiveExtends(b: Broker, client: Address, p: Packet)
    ensures BrokerProofs.Extends(b.registry, Receive(b, client, p).broker.registry)
  {
    if p.ControlPacket? {
      BrokerProofs.ProcessExtends(b.registry, client, p.rpcId, p.request);
    }
  }

  /** What a node has sent only grows, and so do the broker's tables. */
  lemma ApplyGrows(s: Sys, step: Step)
    requires Shaped(s) && Enabled(s, step)
    ensures var t := Apply(s, step);
            && BrokerProofs.Extends(s.broker.registry, t.broker.registry)
            && |t.hosts| == |s.hosts|
            && forall n | 0 <= n < |s.hosts| :: s.hosts[n].sent <= t.hosts[n].sent
  {
    if step.BrokerTurn? {
      ReceiveExtends(s.broker, step.n, s.hosts[step.n].sent[step.i].packet);
    } else if step.TakeIn? {
      TakeInFrame(s.hosts[step.n], s.inbox[step.n][step.k], step.stale);
    }
  }

  lemma BoundedBefore(s: Sys, step: Step)
    requires Shaped(s) && Enabled(s, step) && Bounded(Apply(s, step))
    ensures Bounded(s)
  {
    ApplyGrows(s, step);
    forall n | 0 <= n < |s.hosts| ensures |s.hosts[n].sent| < WORD {
      assert s.hosts[n].sent <= Apply(s, step).hosts[n].sent;
    }
  }

  lemma {:induction false} ArrivingFrom(sends: seq<Send>, m: nat, origin: Origin)
    ensures forall k | 0 <= k < |Arriving(sends, m, origin)| ::
              Arriving(sends, m, origin)[k].origin == origin
              && exists x | 0 <= x < |sends| :: sends[x] == Send(m, Arriving(sends, m, origin)[k].down)
  {
    if sends != [] {
      ArrivingFrom(sends[1..], m, origin);
      var rest := Arriving(sends[1..], m, origin);
      var all := Arriving(sends, m, origin);
      forall k | 0 <= k < |all|
        ensures all[k].origin == origin && exists x | 0 <= x < |sends| :: sends[x] == Send(m, all[k].down)
      {
        if sends[0].to == m && k == 0 {
          assert sends[0] == Send(m, all[0].down);
        } else {
          var r := if sends[0].to == m then k - 1 else k;
          assert all[k] == rest[r];
          var x :| 0 <= x < |sends[1..]| && sends[1..][x] == Send(m, rest[r].down);
          assert sends[x + 1] == Send(m, all[k].down);
        }
      }
    }
  }

  /** A reply goes to the client whose accepted request it answers, alone. */
  lemma RepliesGoHome(b: Broker, n: nat, p: Packet, m: nat, origin: Origin)
    ensures var sends := Receive(b, n, p).sends;
            && (!AcceptsPacket(b, n, p) || (p.ControlPacket? && m != n) ==> Arriving(sends, m, origin) == [])
            && (AcceptsPacket(b, n, p) && p.ControlPacket? && m == n ==>
                  Arriving(sends, m, origin)
                  == [Flight(Reply(p.counter, Process(b.registry, n, p.rpcId, p.request).1), origin)])
            && (p.DataPacket? ==> forall k | 0 <= k < |Arriving(sends, m, origin)| ::
                  Arriving(sends, m, origin)[k] == Flight(Forward(p.bytes), origin))
  {
    var sends := Receive(b, n, p).sends;
    if AcceptsPacket(b, n, p) && p.ControlPacket? {
      assert sends[1..] == [];
    }
    if p.DataPacket? {
      ArrivingFrom(sends, m, origin);
      forall k | 0 <= k < |Arriving(sends, m, origin)|
        ensures Arriving(sends, m, origin)[k] == Flight(Forward(p.bytes), origin)
      {
        var x :| 0 <= x < |sends| && sends[x] == Send(m, Arriving(sends, m, origin)[k].down);
      }
    }
  }

  /** The counter of an encoded data packet is read back, however long the payload. */
  lemma EncodedCounter(counter: uint32, topicId: nat, typeId: nat, payload: Bytes)
    ensures PacketCounter(DataPacket(Codec.EncodeData(counter, topicId, typeId, payload))) == counter
  {
    var p := Codec.EncodeData(counter, topicId, typeId, payload);
    var buf := Codec.Overlay(Codec.Blank(), p);
    assert buf[..Codec.PAYLOAD] == buf[..|p|][..Codec.PAYLOAD] == Codec.DataHeader(counter, topicId, typeId, |payload|);
    Codec.DataHeaderFields(buf, counter, topicId, typeId, |payload|);
  }

  // ---- the invariant -------------------------------------------------------

  ghost predicate HasReply(inbox: seq<Flight>) {
    exists k | 0 <= k < |inbox| :: inbox[k].down.Reply?
  }

  /** A node that has not heard from the broker has sent at most its first request. */
  ghost predicate OpeningAt(h: Host) {
    h.pc == AtNode ==> h.core.levels == [] && |h.sent| <= 1 && (h.status.Connecting? ==> h.sent == [])
  }

  ghost predicate NumberedAt(h: Host) {
    && h.core.counter == Wrap(h.start + |h.sent|)
    && forall i | 0 <= i < |h.sent| :: PacketCounter(h.sent[i].packet) == Counter.CounterOf(h.start, i)
  }

  ghost predicate AcceptedAt(b: Broker, n: nat, h: Host, acc: seq<nat>, inbox: seq<Flight>) {
    && |acc| <= |h.sent|
    && acc == Counter.Iota(|acc|)
    && (forall k | 0 <= k < |acc| :: h.sent[k].ok)
    && StoredCounter(b, n) == (if acc == [] then None else Some(Wrap(h.start + |acc|)))
    && (acc == [] ==> h.pc == AtNode && !HasReply(inbox))
  }

  ghost predicate CountersOk(s: Sys)
    requires Shaped(s)
  {
    forall n | 0 <= n < |s.hosts| ::
      && OpeningAt(s.hosts[n])
      && NumberedAt(s.hosts[n])
      && AcceptedAt(s.broker, n, s.hosts[n], s.accepted[n], s.inbox[n])
  }

  /** The broker accepts an arriving packet exactly if it is the next one. */
  lemma AcceptsNext(b: Broker, n: nat, h: Host, acc: seq<nat>, inbox: seq<Flight>, i: nat)
    requires NumberedAt(h) && OpeningAt(h) && AcceptedAt(b, n, h, acc, inbox)
    requires |h.sent| < WORD && i < |h.sent|
    ensures AcceptsPacket(b, n, h.sent[i].packet) <==> i == |acc|
  {
    if acc != [] {
      WrapSucc(h.start + |acc|);
      if Wrap(h.start + 1 + |acc|) == Wrap(h.start + 1 + i) {
        WrapInjective(h.start + 1, |acc|, i);
      }
    }
  }

  lemma BrokerTurnKeepsCounters(s: Sys, n: nat, i: nat)
    requires Shaped(s) && Enabled(s, BrokerTurn(n, i)) && CountersOk(s) && Bounded(s)
    ensures Shaped(DoBrokerTurn(s, n, i)) && CountersOk(DoBrokerTurn(s, n, i))
  {
    var t := DoBrokerTurn(s, n, i);
    forall m | 0 <= m < |s.hosts| ensures AcceptedAt(t.broker, m, t.hosts[m], t.accepted[m], t.inbox[m]) {
      TurnKeepsAccepted(s, n, i, m);
    }
  }

  lemma TurnKeepsAccepted(s: Sys, n: nat, i: nat, m: nat)
    requires Shaped(s) && Enabled(s, BrokerTurn(n, i)) && CountersOk(s) && |s.hosts[n].sent| < WORD && m < |s.hosts|
    ensures var t := DoBrokerTurn(s, n, i);
            |t.accepted| == |t.inbox| == |s.hosts| && AcceptedAt(t.broker, m, s.hosts[m], t.accepted[m], t.inbox[m])
  {
    AcceptsNext(s.broker, n, s.hosts[n], s.accepted[n], s.inbox[n], i);
    var p := s.hosts[n].sent[i].packet;
    var more := Arriving(Receive(s.broker, n, p).sends, m, Origin(n, i));
    if m == n && i == |s.accepted[n]| {
      AcceptKeepsAccepted(s.broker, n, s.hosts[n], s.accepted[n], s.inbox[n], s.inbox[n] + more);
    } else {
      RepliesGoHome(s.broker, n, p, m, Origin(n, i));
      NoReplyAdded(s.inbox[m], more);
    }
  }

  lemma AcceptKeepsAccepted(b: Broker, n: nat, h: Host, acc: seq<nat>, inbox: seq<Flight>, inbox': seq<Flight>)
    requires NumberedAt(h) && AcceptedAt(b, n, h, acc, inbox) && |acc| < |h.sent| && h.sent[|acc|].ok
    requires AcceptsPacket(b, n, h.sent[|acc|].packet)
    ensures AcceptedAt(Receive(b, n, h.sent[|acc|].packet).broker, n, h, acc + [|acc|], inbox')
  {
    assert acc + [|acc|] == Counter.Iota(|acc| + 1);
    assert PacketCounter(h.sent[|acc|].packet) == Counter.CounterOf(h.start, |acc|);
  }

  lemma NoReplyAdded(inbox: seq<Flight>, more: seq<Flight>)
    requires forall k | 0 <= k < |more| :: !more[k].down.Reply?
    ensures HasReply(inbox + more) <==> HasReply(inbox)
  {
    if k :| 0 <= k < |inbox| && inbox[k].down.Reply? {
      assert (inbox + more)[k].down.Reply?;
    }
  }

  /** Sending appends the next counter. */
  lemma SendKeepsNumbers(h: Host, g: Host, a: Attempt)
    requires NumberedAt(h) && g.start == h.start && g.sent == h.sent + [a]
    requires g.core.counter == Wrap(h.core.counter + 1) == PacketCounter(a.packet)
    ensures NumberedAt(g)
  {
    WrapSucc(h.start + |h.sent|);
  }

  lemma NoLevelsNoVisit<P, S>(d: Node<P, S>, v: Visit)
    requires d.levels == []
    ensures !Visited(d, v)
  {
  }

  /** Counters are attached to attempts in sequence by every step of a node. */
  lemma HostStepKeepsNumbers(s: Sys, step: Step)
    requires Shaped(s) && Enabled(s, step) && !step.BrokerTurn? && NumberedAt(s.hosts[step.n])
    ensures NumberedAt(HostAfter(s, step))
  {
    var h := s.hosts[step.n];
    if step.Call? {
      SendKeepsNumbers(h, HostAfter(s, step), HostAfter(s, step).sent[|h.sent|]);
    } else if step.SendOut? {
      SendOutKeepsNumbers(h, step.p, step.ok);
    } else if step.TakeIn? {
      TakeInFrame(h, s.inbox[step.n][step.k], step.stale);
    }
  }

  lemma SendOutKeepsNumbers(h: Host, p: nat, ok: bool)
    requires HostShaped(h) && CanSend(h.core, p) && NumberedAt(h)
    ensures NumberedAt(DoSendOut(h, p, ok))
  {
    var g := DoSendOut(h, p, ok);
    var u := h.core.pubs[p];
    EncodedCounter(g.core.counter, u.topicId, u.typeId, u.queue[0]);
    SendKeepsNumbers(h, g, g.sent[|h.sent|]);
  }

  lemma HostStepKeepsOpening(s: Sys, step: Step)
    requires Shaped(s) && Enabled(s, step) && !step.BrokerTurn? && OpeningAt(s.hosts[step.n])
    ensures OpeningAt(HostAfter(s, step))
    ensures s.hosts[step.n].sent <= HostAfter(s, step).sent && HostAfter(s, step).start == s.hosts[step.n].start
    ensures HostAfter(s, step).pc == s.hosts[step.n].pc || (step.Answer? && s.inbox[step.n][step.k].down.Reply?)
  {
    var h := s.hosts[step.n];
    match step {
      case TakeIn(n, k, stale) =>
        TakeInFrame(h, s.inbox[n][k], stale);
      case SendOut(_, p, ok) =>
        if h.pc == AtNode {
          NoLevelsNoVisit(h.core, PubVisit(p));
        }
      case _ =>
    }
  }

  lemma HostStepKeepsAccepted(s: Sys, step: Step)
    requires Shaped(s) && Enabled(s, step) && !step.BrokerTurn?
    requires OpeningAt(s.hosts[step.n])
    requires AcceptedAt(s.broker, step.n, s.hosts[step.n], s.accepted[step.n], s.inbox[step.n])
    ensures |Apply(s, step).inbox| == |s.inbox|
    ensures AcceptedAt(s.broker, step.n, HostAfter(s, step), s.accepted[step.n], Apply(s, step).inbox[step.n])
  {
    HostStepKeepsOpening(s, step);
    var n := step.n;
    assert HasReply(Apply(s, step).inbox[n]) ==> HasReply(s.inbox[n]);
    if step.Answer? && s.inbox[n][step.k].down.Reply? {
      assert HasReply(s.inbox[n]);
    }
  }

  lemma HostStepKeepsCounters(s: Sys, step: Step)
    requires Shaped(s) && Enabled(s, step) && !step.BrokerTurn? && CountersOk(s)
    ensures Shaped(Apply(s, step)) && CountersOk(Apply(s, step))
  {
    ApplyShaped(s, step);
    HostStepKeepsNumbers(s, step);
    HostStepKeepsOpening(s, step);
    HostStepKeepsAccepted(s, step);
    var t := Apply(s, step);
    forall m | 0 <= m < |s.hosts|
      ensures OpeningAt(t.hosts[m]) && NumberedAt(t.hosts[m])
      ensures AcceptedAt(t.broker, m, t.hosts[m], t.accepted[m], t.inbox[m])
    {
      assert t.hosts[m] == if m == step.n then HostAfter(s, step) else s.hosts[m];
    }
  }

  /** Every step keeps counters and acceptance in line. */
  lemma StepKeepsCounters(s: Sys, step: Step)
    requires Shaped(s) && Enabled(s, step) && CountersOk(s) && Bounded(s)
    ensures Shaped(Apply(s, step)) && CountersOk(Apply(s, step))
  {
    if step.BrokerTurn? {
      BrokerTurnKeepsCounters(s, step.n, step.i);
    } else {
      HostStepKeepsCounters(s, step);
    }
  }
}
