/** Second layer: requests and responses are paired although the node never compares RPC IDs. */
module SystemRpc {
  import opened Basics
  import opened BrokerModel
  import opened BrokerProofs
  import opened NodeModel
  import opened System
  import opened SystemCounters

  /** Attempt `a` is a request that the broker has not accepted. */
  ghost predicate Pending(h: Host, acc: seq<nat>, a: int) {
    |acc| <= a < |h.sent| && h.sent[a].packet.ControlPacket?
  }

  /** Request and response taken together, at most one is outstanding. */
  ghost predicate OneOutstanding(h: Host, acc: seq<nat>, inbox: seq<Flight>) {
    && (forall k, l | 0 <= k < l < |inbox| :: !(inbox[k].down.Reply? && inbox[l].down.Reply?))
    && (forall a, b | Pending(h, acc, a) && Pending(h, acc, b) :: a == b)
    && (forall a | Pending(h, acc, a) :: !HasReply(inbox))
  }

  ghost predicate NoneOutstanding(h: Host, acc: seq<nat>, inbox: seq<Flight>) {
    !HasReply(inbox) && forall a :: !Pending(h, acc, a)
  }

  /** `f` is the broker's response to the accepted request `a`, and still true of the registry. */
  ghost predicate ReplyTo(r: Registry, n: nat, h: Host, f: Flight, a: nat)
    requires f.down.Reply?
  {
    && f.origin == Origin(n, a)
    && a < |h.sent| && h.sent[a].packet.ControlPacket?
    && var p := h.sent[a].packet;
       && f.down.counter == p.counter
       && Echoes(f.down.response, p.rpcId)
       && Answers(r, n, p.request, f.down.response)
  }

  ghost predicate RepliesAt(r: Registry, n: nat, h: Host, acc: seq<nat>, inbox: seq<Flight>) {
    forall k | 0 <= k < |inbox| && inbox[k].down.Reply? ::
      inbox[k].origin.attempt < |acc| && ReplyTo(r, n, h, inbox[k], inbox[k].origin.attempt)
  }

  /** A waiting node's last attempt is the request of the current call, and whatever is outstanding belongs to it. */
  ghost predicate WaitingAt(h: Host, acc: seq<nat>, inbox: seq<Flight>) {
    && h.sent != []
    && var last := |h.sent| - 1;
       && h.sent[last].packet.ControlPacket?
       && h.sent[last].packet.request == RequestAt(h.core, h.pc)
       && (forall a | Pending(h, acc, a) :: a == last)
       && forall k | 0 <= k < |inbox| && inbox[k].down.Reply? :: inbox[k].origin.attempt == last
  }

  ghost predicate RpcIdsAt(h: Host) {
    forall a | 0 <= a < |h.sent| && h.sent[a].packet.ControlPacket? :: h.sent[a].packet.rpcId == Wrap(h.start + a)
  }

  ghost predicate RpcAt(r: Registry, n: nat, h: Host, acc: seq<nat>, inbox: seq<Flight>) {
    && RpcIdsAt(h)
    && OneOutstanding(h, acc, inbox)
    && RepliesAt(r, n, h, acc, inbox)
    && (h.status.Waiting? ==> WaitingAt(h, acc, inbox))
    && (h.status.Connecting? || h.status.Connected? ==> NoneOutstanding(h, acc, inbox))
  }

  ghost predicate RpcOk(s: Sys)
    requires Shaped(s)
  {
    forall n | 0 <= n < |s.hosts| :: RpcAt(s.broker.registry, n, s.hosts[n], s.accepted[n], s.inbox[n])
  }

  lemma RepliesStable(r: Registry, r': Registry, n: nat, h: Host, h': Host, acc: seq<nat>, inbox: seq<Flight>)
    requires Extends(r, r') && RepliesAt(r, n, h, acc, inbox) && h.sent <= h'.sent
    ensures RepliesAt(r', n, h', acc, inbox)
  {
  }

  /** Accepting a request turns it into the one outstanding response. */
  lemma AcceptRequest(s: Sys, n: nat, i: nat)
    requires Shaped(s) && Enabled(s, BrokerTurn(n, i)) && CountersOk(s) && RpcOk(s) && Bounded(s)
    requires i == |s.accepted[n]| && s.hosts[n].sent[i].packet.ControlPacket?
    ensures var t := DoBrokerTurn(s, n, i);
            Shaped(t) && RpcAt(t.broker.registry, n, t.hosts[n], t.accepted[n], t.inbox[n])
  {
    var t := DoBrokerTurn(s, n, i);
    var h := s.hosts[n];
    var p := h.sent[i].packet;
    var r, r' := s.broker.registry, t.broker.registry;
    AcceptsNext(s.broker, n, h, s.accepted[n], s.inbox[n], i);
    RepliesGoHome(s.broker, n, p, n, Origin(n, i));
    ProcessAnswers(r, n, p.rpcId, p.request);
    ReceiveExtends(s.broker, n, p);
    RepliesStable(r, r', n, h, h, s.accepted[n], s.inbox[n]);
    var inbox := s.inbox[n];
    assert Pending(h, s.accepted[n], i);
    assert !HasReply(inbox);
    var f := Flight(Reply(p.counter, Process(r, n, p.rpcId, p.request).1), Origin(n, i));
    assert t.inbox[n] == inbox + [f];
    assert ReplyTo(r', n, h, f, i);
    assert forall a | Pending(h, t.accepted[n], a) :: Pending(h, s.accepted[n], a);
    assert forall k | 0 <= k < |t.inbox[n]| && t.inbox[n][k].down.Reply? :: k == |inbox|;
  }

  lemma BrokerTurnKeepsRpc(s: Sys, n: nat, i: nat)
    requires Shaped(s) && Enabled(s, BrokerTurn(n, i)) && CountersOk(s) && RpcOk(s) && Bounded(s)
    ensures Shaped(DoBrokerTurn(s, n, i)) && RpcOk(DoBrokerTurn(s, n, i))
  {
    var t := DoBrokerTurn(s, n, i);
    var p := s.hosts[n].sent[i].packet;
    AcceptsNext(s.broker, n, s.hosts[n], s.accepted[n], s.inbox[n], i);
    ReceiveExtends(s.broker, n, p);
    forall m | 0 <= m < |s.hosts| ensures RpcAt(t.broker.registry, m, t.hosts[m], t.accepted[m], t.inbox[m]) {
      var h := s.hosts[m];
      if m == n && i == |s.accepted[n]| && p.ControlPacket? {
        AcceptRequest(s, n, i);
      } else {
        RepliesGoHome(s.broker, n, p, m, Origin(n, i));
        assert forall a | Pending(h, t.accepted[m], a) :: Pending(h, s.accepted[m], a);
        var more := Arriving(Receive(s.broker, n, p).sends, m, Origin(n, i));
        ForwardsKeepRpc(s.broker.registry, t.broker.registry, m, h, s.accepted[m], t.accepted[m], s.inbox[m], more);
      }
    }
  }

  lemma ForwardsKeepRpc(r: Registry, r': Registry, n: nat, h: Host, acc: seq<nat>, acc': seq<nat>,
                        inbox: seq<Flight>, more: seq<Flight>)
    requires RpcAt(r, n, h, acc, inbox) && Extends(r, r') && |acc| <= |acc'|
    requires forall k | 0 <= k < |more| :: more[k].down.Forward?
    requires forall a | Pending(h, acc', a) :: Pending(h, acc, a)
    ensures RpcAt(r', n, h, acc', inbox + more)
  {
  }

  /** Taking one packet out of the inbox. */
  lemma TakeKeepsRpc(r: Registry, n: nat, h: Host, acc: seq<nat>, inbox: seq<Flight>, k: nat)
    requires RpcAt(r, n, h, acc, inbox) && k < |inbox|
    ensures RpcAt(r, n, h, acc, RemoveAt(inbox, k))
    ensures inbox[k].down.Reply? ==> !HasReply(RemoveAt(inbox, k))
  {
  }

  lemma CallKeepsRpc(r: Registry, n: nat, h: Host, acc: seq<nat>, inbox: seq<Flight>, ok: bool)
    requires RpcAt(r, n, h, acc, inbox) && h.status.Connecting? && NumberedAt(h) && |acc| <= |h.sent|
    ensures RpcAt(r, n, DoCall(h, ok), acc, inbox)
  {
    var g := DoCall(h, ok);
    assert forall a | Pending(g, acc, a) :: a == |h.sent| || Pending(h, acc, a);
    RepliesStable(r, r, n, h, g, acc, inbox);
  }

  /** A data send is neither a request nor a response. */
  lemma SendKeepsRpc(r: Registry, n: nat, h: Host, g: Host, acc: seq<nat>, inbox: seq<Flight>, a: Attempt)
    requires RpcAt(r, n, h, acc, inbox) && !h.status.Waiting? && g.status == h.status && g.start == h.start
    requires g.sent == h.sent + [a] && a.packet.DataPacket?
    ensures RpcAt(r, n, g, acc, inbox)
  {
    assert forall b | Pending(g, acc, b) :: Pending(h, acc, b);
    RepliesStable(r, r, n, h, g, acc, inbox);
  }

  /** The call that takes a response has nothing outstanding afterwards. */
  lemma AnswerKeepsRpc(r: Registry, n: nat, h: Host, acc: seq<nat>, inbox: seq<Flight>, k: nat)
    requires RpcAt(r, n, h, acc, inbox) && h.status.Waiting? && k < |inbox| && |acc| <= |h.sent|
    ensures RpcAt(r, n, DoAnswer(h, inbox[k].down), acc, RemoveAt(inbox, k))
  {
    var g := DoAnswer(h, inbox[k].down);
    TakeKeepsRpc(r, n, h, acc, inbox, k);
    assert g.sent == h.sent && g.start == h.start;
    RepliesStable(r, r, n, h, g, acc, RemoveAt(inbox, k)) by { ExtendsReflexive(r); }
    assert forall a :: Pending(g, acc, a) <==> Pending(h, acc, a);
    if inbox[k].down.Reply? {
      assert inbox[k].origin.attempt == |h.sent| - 1 < |acc|;
    }
  }

  lemma ExtendsReflexive(r: Registry)
    ensures Extends(r, r)
  {
  }

  lemma HostStepKeepsRpc(s: Sys, step: Step)
    requires Shaped(s) && Enabled(s, step) && !step.BrokerTurn? && CountersOk(s) && RpcOk(s)
    ensures Shaped(Apply(s, step)) && RpcOk(Apply(s, step))
  {
    ApplyShaped(s, step);
    var n := step.n;
    var t := Apply(s, step);
    var r := s.broker.registry;
    var h, g := s.hosts[n], t.hosts[n];
    match step {
      case Call(_, ok) =>
        CallKeepsRpc(r, n, h, s.accepted[n], s.inbox[n], ok);
      case Answer(_, k) =>
        AnswerKeepsRpc(r, n, h, s.accepted[n], s.inbox[n], k);
      case TakeIn(_, k, stale) =>
        TakeInFrame(h, s.inbox[n][k], stale);
        TakeKeepsRpc(r, n, h, s.accepted[n], s.inbox[n], k);
        SameRpc(r, n, h, g, t.accepted[n], t.inbox[n]);
      case SendOut(_, p, ok) =>
        SendKeepsRpc(r, n, h, g, s.accepted[n], s.inbox[n], g.sent[|h.sent|]);
      case Lose(_, k) =>
        TakeKeepsRpc(r, n, h, s.accepted[n], s.inbox[n], k);
      case AppPublish(_, p, data) =>
        if h.status.Waiting? {
          PublishKeepsRequest(h, p, data);
        }
        SameRpc(r, n, h, g, t.accepted[n], t.inbox[n]);
      case Abort(_) =>
        SameRpc(r, n, h, g, t.accepted[n], t.inbox[n]);
      case Callback(_, j) =>
        SameRpc(r, n, h, g, t.accepted[n], t.inbox[n]);
    }
  }

  lemma PublishKeepsRequest(h: Host, p: nat, data: Bytes)
    requires HostShaped(h) && p < |h.core.pubs|
    ensures RequestAt(DoPublish(h, p, data).core, h.pc) == RequestAt(h.core, h.pc)
  {
  }

  lemma SameRpc(r: Registry, n: nat, h: Host, g: Host, acc: seq<nat>, inbox: seq<Flight>)
    requires RpcAt(r, n, h, acc, inbox) && g.sent == h.sent && g.start == h.start && g.pc == h.pc
    requires g.status == h.status || g.status.Failed?
    requires g.status.Waiting? ==> RequestAt(g.core, g.pc) == RequestAt(h.core, h.pc)
    ensures RpcAt(r, n, g, acc, inbox)
  {
    assert forall a :: Pending(g, acc, a) <==> Pending(h, acc, a);
    RepliesStable(r, r, n, h, g, acc, inbox) by { ExtendsReflexive(r); }
  }

  /** Every step keeps requests and responses paired. */
  lemma StepKeepsRpc(s: Sys, step: Step)
    requires Shaped(s) && Enabled(s, step) && CountersOk(s) && RpcOk(s) && Bounded(s)
    ensures Shaped(Apply(s, step)) && RpcOk(Apply(s, step))
  {
    if step.BrokerTurn? {
      BrokerTurnKeepsRpc(s, step.n, step.i);
    } else {
      HostStepKeepsRpc(s, step);
    }
  }
}
