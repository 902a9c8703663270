/** In every run, what a node does until it is connected or has failed is one `connect`. */
module ConnectRuns {
  import opened Basics
  import opened BrokerModel
  import opened NodeModel
  import opened SchedulerProofs
  import opened System
  import opened SystemCounters
  import opened Dialling
  import Sessions
  import Theorems

  /** How far `connect` has come after some calls. */
  datatype Stand<P, S> = Stand(node: Node<P, S>, pc: Pc, sent: seq<Packet>, ok: bool)

  /** One call more. */
  function Next<P, S>(p: Stand<P, S>, r: Reaction): Stand<P, S> {
    var x := Dialling.Call(p.node, p.pc, r);
    Stand(x.node, if x.ok then NextPc(p.node, p.pc) else p.pc, p.sent + [x.packet], x.ok)
  }

  /** `connect` from its beginning through calls that met `met`. */
  function Replay<P, S>(d: Node<P, S>, met: seq<Reaction>): (p: Stand<P, S>)
    ensures |p.sent| == |met|
  {
    if met == [] then Stand(d, AtNode, [], true) else Next(Replay(d, met[..|met| - 1]), met[|met| - 1])
  }

  /** The calls were made one after the other: each before the last succeeded, and was not the last to make. */
  ghost predicate OnTheWay<P, S>(d: Node<P, S>, met: seq<Reaction>) {
    forall k | 0 <= k < |met| :: Replay(d, met[..k]).ok && Replay(d, met[..k]).pc != AtEnd
  }

  lemma ReplayNext<P, S>(d: Node<P, S>, met: seq<Reaction>, r: Reaction)
    ensures Replay(d, met + [r]) == Next(Replay(d, met), r)
    ensures OnTheWay(d, met) && Replay(d, met).ok && Replay(d, met).pc != AtEnd ==> OnTheWay(d, met + [r])
  {
    assert (met + [r])[..|met|] == met;
    forall k | 0 <= k < |met| ensures (met + [r])[..k] == met[..k] {
    }
  }

  /** After a stand, the rest of `connect` is still to come, or `connect` has failed. */
  ghost predicate Continues<P, S>(p: Stand<P, S>, whole: Connection<P, S>, world: nat -> Reaction) {
    if p.ok then OnCall(whole, p.sent, p.node, p.pc, world) else whole == Connection(p.node, p.sent, false)
  }

  lemma NextContinues<P, S>(p: Stand<P, S>, whole: Connection<P, S>, world: nat -> Reaction)
    requires Continues(p, whole, world) && p.ok && p.pc != AtEnd
    ensures Continues(Next(p, world(|p.sent|)), whole, world)
  {
    CallAdvances(whole, p.sent, p.node, p.pc, world);
  }

  lemma OnTheWayBefore<P, S>(d: Node<P, S>, met: seq<Reaction>, n: nat)
    requires OnTheWay(d, met) && n <= |met|
    ensures OnTheWay(d, met[..n])
  {
    assert forall k | 0 <= k < n :: met[..n][..k] == met[..k];
  }

  lemma {:induction false} ReplayIsConnect<P, S>(d: Node<P, S>, met: seq<Reaction>, world: nat -> Reaction)
    requires OnTheWay(d, met) && Sessions.Brings(world, 0, met)
    ensures Continues(Replay(d, met), Connect(d, AtNode, world, 0), world)
  {
    if met == [] {
      CallStarts(d, AtNode, world);
    } else {
      var n := |met| - 1;
      OnTheWayBefore(d, met, n);
      ReplayIsConnect(d, met[..n], world);
      assert world(n) == met[n];
      NextContinues(Replay(d, met[..n]), Connect(d, AtNode, world, 0), world);
    }
  }

  // ---- nodes in runs -------------------------------------------------------

  ghost predicate Prefix(packets: seq<Packet>, sent: seq<Attempt>) {
    |packets| <= |sent| && forall i | 0 <= i < |packets| :: sent[i].packet == packets[i]
  }

  /** Node `h` is where `connect` stands, up to queues and, once `connect` has ended, counters. */
  ghost predicate StandsAt(p: Stand<Bytes, Msg>, h: Host) {
    && SameShape(p.node, h.core) && Prefix(p.sent, h.sent)
    && match h.status
       case Connecting => p.ok && p.pc == h.pc != AtEnd && p.node.counter == h.core.counter && |h.sent| == |p.sent|
       case Waiting =>
         && p.ok && p.pc == h.pc != AtEnd && Wrap(p.node.counter + 1) == h.core.counter && |h.sent| == |p.sent| + 1
         && h.sent[|p.sent|].packet == ControlPacket(h.core.counter, p.node.counter, RequestAt(p.node, p.pc))
       case Connected => p.ok && p.pc == AtEnd
       case Failed => !p.ok
  }

  ghost predicate Follows(d: Node<Bytes, Msg>, h: Host, met: seq<Reaction>) {
    OnTheWay(d, met) && StandsAt(Replay(d, met), h)
  }

  lemma SameRequest<P, S>(d: Node<P, S>, e: Node<P, S>, pc: Pc)
    requires SameShape(d, e)
    ensures RequestAt(d, pc) == RequestAt(e, pc) && NextPc(d, pc) == NextPc(e, pc)
  {
  }

  lemma SameLearning<P, S>(d: Node<P, S>, e: Node<P, S>, pc: Pc, a: Response)
    requires SameShape(d, e)
    ensures var x, y := Learn(d, pc, a), Learn(e, pc, a);
            && (x.Some? <==> y.Some?)
            && (x.Some? ==> SameShape(x.value, y.value) && x.value.counter == d.counter && y.value.counter == e.counter)
  {
  }

  /** A call that was sent waits for its answer; one that could not be sent ends `connect`. */
  lemma StandsCall(p: Stand<Bytes, Msg>, h: Host)
    requires StandsAt(p, h) && h.status.Connecting?
    ensures StandsAt(p, DoCall(h, true)) && StandsAt(Next(p, SendFails), DoCall(h, false))
  {
    SameRequest(p.node, h.core, h.pc);
  }

  lemma StandsAbort(p: Stand<Bytes, Msg>, h: Host)
    requires StandsAt(p, h) && h.status.Waiting?
    ensures StandsAt(Next(p, ReceiveFails), h.(status := Failed))
  {
  }

  lemma StandsAnswer(p: Stand<Bytes, Msg>, h: Host, down: Down)
    requires StandsAt(p, h) && h.status.Waiting?
    ensures StandsAt(Next(p, Got(down)), DoAnswer(h, down))
  {
    SameRequest(p.node, h.core, h.pc);
    if down.Reply? {
      SameLearning(p.node.(counter := Wrap(p.node.counter + 1)), h.core, h.pc, down.response);
    }
  }

  /** Steps that leave a node's calls alone. */
  lemma StandsStill(p: Stand<Bytes, Msg>, h: Host, g: Host)
    requires StandsAt(p, h) && SameShape(h.core, g.core) && g.pc == h.pc && g.status == h.status && h.sent <= g.sent
    requires h.status.Connecting? || h.status.Waiting? ==> g.sent == h.sent && g.core.counter == h.core.counter
    ensures StandsAt(p, g)
  {
    Theorems.SameShapeTransitive(p.node, h.core, g.core);
  }

  /** What a step of a node brings to its `connect`. */
  function Brought(s: Sys, step: Step): seq<Reaction>
    requires Shaped(s) && Enabled(s, step)
  {
    match step
    case Call(_, ok) => if ok then [] else [SendFails]
    case Answer(n, k) => [Got(s.inbox[n][k].down)]
    case Abort(_) => [ReceiveFails]
    case _ => []
  }

  lemma HostFollows(s: Sys, step: Step, d: Node<Bytes, Msg>, met: seq<Reaction>)
    requires Shaped(s) && Enabled(s, step) && !step.BrokerTurn? && Follows(d, s.hosts[step.n], met)
    ensures Follows(d, HostAfter(s, step), met + Brought(s, step))
  {
    var h := s.hosts[step.n];
    var p, more := Replay(d, met), Brought(s, step);
    if more == [] {
      assert met + more == met;
    } else {
      ReplayNext(d, met, more[0]);
    }
    if step.Call? {
      StandsCall(p, h);
    } else if step.Answer? {
      StandsAnswer(p, h, s.inbox[step.n][step.k].down);
    } else if step.Abort? {
      StandsAbort(p, h);
    } else {
      OtherStep(s, step);
      StandsStill(p, h, HostAfter(s, step));
    }
  }

  /** What node `n` has met in the first `k` steps of a path. */
  ghost function MetIn(states: seq<Sys>, steps: seq<Step>, k: nat, n: nat): seq<Reaction>
    requires IsPath(states, steps) && k < |states|
  {
    if k == 0 then []
    else
      assert Link(states, steps, k - 1);
      MetIn(states, steps, k - 1, n) + if steps[k - 1].n == n then Brought(states[k - 1], steps[k - 1]) else []
  }

  lemma StepFollows(s: Sys, step: Step, n: nat, d: Node<Bytes, Msg>, met: seq<Reaction>)
    requires Shaped(s) && Enabled(s, step) && n < |s.hosts| && Follows(d, s.hosts[n], met)
    ensures n < |Apply(s, step).hosts|
    ensures Follows(d, Apply(s, step).hosts[n], met + if step.n == n then Brought(s, step) else [])
  {
    ApplyHost(s, step, n);
    if step.n == n && !step.BrokerTurn? {
      HostFollows(s, step, d, met);
    } else {
      assert met + [] == met;
    }
  }

  lemma FreshFollows(h: Host)
    requires FreshHost(h)
    ensures Follows(h.core, h, [])
  {
  }

  lemma FollowsLink(states: seq<Sys>, steps: seq<Step>, k: nat, n: nat, d: Node<Bytes, Msg>)
    requires IsPath(states, steps) && 0 < k < |states| && n < |states[k - 1].hosts|
    requires Follows(d, states[k - 1].hosts[n], MetIn(states, steps, k - 1, n))
    ensures n < |states[k].hosts| && Follows(d, states[k].hosts[n], MetIn(states, steps, k, n))
  {
    LastLink(states, steps, k);
    StepFollows(states[k - 1], steps[k - 1], n, d, MetIn(states, steps, k - 1, n));
  }

  lemma {:induction false} PathFollows(states: seq<Sys>, steps: seq<Step>, k: nat, n: nat)
    requires IsPath(states, steps) && k < |states| && n < |states[k].hosts|
    requires n < |states[0].hosts| ==> FreshHost(states[0].hosts[n])
    ensures n < |states[0].hosts|
    ensures Follows(states[0].hosts[n].core, states[k].hosts[n], MetIn(states, steps, k, n))
  {
    if k == 0 {
      FreshFollows(states[0].hosts[n]);
    } else {
      LastLink(states, steps, k);
      PathFollows(states, steps, k - 1, n);
      FollowsLink(states, steps, k, n, states[0].hosts[n].core);
    }
  }

  /**
   * In every run, a node is connected only after a `connect` that succeeded,
   * and has failed only after one that failed: in every world that brings what
   * the node has met, `Connect` computes its IDs, names and indexes, and its
   * first packets are the requests of that `connect`.
   */
  lemma ConnectedByConnect(states: seq<Sys>, steps: seq<Step>, k: nat, n: nat, world: nat -> Reaction)
    requires IsRun(states, steps) && k < |states| && n < |states[k].hosts|
    requires states[k].hosts[n].status.Connected? || states[k].hosts[n].status.Failed?
    requires Sessions.Brings(world, 0, MetIn(states, steps, k, n))
    ensures n < |states[0].hosts|
    ensures var h := states[k].hosts[n];
            var c := Connect(states[0].hosts[n].core, AtNode, world, 0);
            (c.ok <==> h.status.Connected?) && SameShape(c.node, h.core) && Prefix(c.sent, h.sent)
  {
    PathFollows(states, steps, k, n);
    ConnectOutcome(states[0].hosts[n].core, states[k].hosts[n], MetIn(states, steps, k, n), world);
  }

  lemma ConnectOutcome(d: Node<Bytes, Msg>, h: Host, met: seq<Reaction>, world: nat -> Reaction)
    requires Follows(d, h, met) && Sessions.Brings(world, 0, met) && (h.status.Connected? || h.status.Failed?)
    ensures var c := Connect(d, AtNode, world, 0);
            (c.ok <==> h.status.Connected?) && SameShape(c.node, h.core) && Prefix(c.sent, h.sent)
  {
    ReplayIsConnect(d, met, world);
    var p := Replay(d, met);
    if p.ok {
      CallEnds(Connect(d, AtNode, world, 0), p.sent, p.node, world);
    }
  }
}
