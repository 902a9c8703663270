/** `spin_once` is made of system steps, so every result about runs covers every schedule of passes. */
module SpinPaths {
  import opened Basics
  import opened BrokerModel
  import opened NodeModel
  import opened SchedulerProofs
  import opened System
  import opened SystemCounters
  import Codec

  ghost predicate Links(s: Sys, states: seq<Sys>, steps: seq<Step>, t: Sys) {
    IsPath(states, steps) && states[0] == s && states[|steps|] == t
  }

  lemma Join(s: Sys, a: seq<Sys>, x: seq<Step>, m: Sys, b: seq<Sys>, y: seq<Step>, t: Sys)
    requires Links(s, a, x, m) && Links(m, b, y, t)
    ensures Links(s, a + b[1..], x + y, t)
  {
    var c, z := a + b[1..], x + y;
    assert forall k | 0 <= k < |a| :: c[k] == a[k];
    assert forall k | |x| <= k < |c| :: c[k] == b[k - |x|];
    forall k | 0 <= k < |z| ensures Link(c, z, k) {
      if k < |x| {
        assert Link(a, x, k);
      } else {
        assert Link(b, y, k - |x|);
      }
    }
  }

  lemma OneStep(s: Sys, step: Step)
    requires Shaped(s) && Enabled(s, step)
    ensures Links(s, [s, Apply(s, step)], [step], Apply(s, step))
  {
    ApplyShaped(s, step);
  }

  /** A path goes on with any enabled step. */
  lemma Snoc(s: Sys, states: seq<Sys>, steps: seq<Step>, m: Sys, step: Step)
    requires Links(s, states, steps, m) && Shaped(m) && Enabled(m, step)
    ensures Links(s, states + [Apply(m, step)], steps + [step], Apply(m, step))
  {
    OneStep(m, step);
    Join(s, states, steps, m, [m, Apply(m, step)], [step], Apply(m, step));
    assert [m, Apply(m, step)][1..] == [Apply(m, step)];
  }

  // ---- histories follow the events of a pass --------------------------------

  /** A send attempt as the events of a pass tell it. */
  datatype Shipment<P> = Shipment(ok: bool, pub: nat, message: P, counter: uint32)

  function ShipmentIn<P, S>(e: Event<P, S>): seq<Shipment<P>> {
    if e.Sent? || e.SendFailed? then [Shipment(e.Sent?, e.pub, e.message, e.counter)] else []
  }

  function Shipments<P, S>(events: seq<Event<P, S>>): seq<Shipment<P>> {
    if events == [] then [] else ShipmentIn(events[0]) + Shipments(events[1..])
  }

  lemma ShipmentsFirst<P, S>(e: Event<P, S>, rest: seq<Event<P, S>>)
    ensures Shipments([e] + rest) == ShipmentIn(e) + Shipments(rest)
  {
    assert ([e] + rest)[1..] == rest;
  }

  lemma {:induction false} ShipmentsAppend<P, S>(a: seq<Event<P, S>>, b: seq<Event<P, S>>)
    ensures Shipments(a + b) == Shipments(a) + Shipments(b)
    decreases |a|
  {
    if a == [] {
      assert a + b == b;
    } else {
      var e, rest := a[0], a[1..];
      assert a == [e] + rest && a + b == [e] + (rest + b);
      ShipmentsFirst(e, rest);
      ShipmentsFirst(e, rest + b);
      ShipmentsAppend(rest, b);
    }
  }

  /** The attempt carries the message under the IDs of its publisher. */
  ghost predicate IsShipment(d: Node<Bytes, Msg>, a: Attempt, x: Shipment<Bytes>) {
    && x.pub < |d.pubs| && a.ok == x.ok && a.source.FromPub? && a.source.pub == x.pub
    && a.packet == DataPacket(Codec.EncodeData(x.counter, d.pubs[x.pub].topicId, d.pubs[x.pub].typeId, x.message))
  }

  /** The attempts of `g` are those of `h` followed by the given shipments. */
  ghost predicate Shipped(h: Host, g: Host, xs: seq<Shipment<Bytes>>) {
    && |g.sent| == |h.sent| + |xs| && h.sent <= g.sent
    && forall k | 0 <= k < |xs| :: IsShipment(h.core, g.sent[|h.sent| + k], xs[k])
  }

  /** From `h` to `g`, deliveries, accepted messages and send attempts are exactly those the events tell. */
  ghost predicate Tells(h: Host, events: seq<Event<Bytes, Msg>>, g: Host) {
    && HostShaped(h) && HostShaped(g) && SameShape(h.core, g.core) && g.start == h.start
    && (forall j | 0 <= j < |h.handed| :: g.handed[j] == h.handed[j] + HandedBy(events, j))
    && (forall p | 0 <= p < |h.published| :: g.published[p] == h.published[p] + AcceptedBy(events, p))
    && Shipped(h, g, Shipments(events))
  }

  lemma TellsNothing(h: Host)
    requires HostShaped(h)
    ensures Tells(h, [], h)
  {
  }

  lemma ShippedCompose(a: Host, xs: seq<Shipment<Bytes>>, b: Host, ys: seq<Shipment<Bytes>>, c: Host)
    requires Shipped(a, b, xs) && Shipped(b, c, ys) && SameShape(a.core, b.core)
    ensures Shipped(a, c, xs + ys)
  {
    forall k | 0 <= k < |xs + ys| ensures IsShipment(a.core, c.sent[|a.sent| + k], (xs + ys)[k]) {
      if k >= |xs| {
        assert IsShipment(b.core, c.sent[|b.sent| + (k - |xs|)], ys[k - |xs|]);
      } else {
        assert c.sent[|a.sent| + k] == b.sent[|a.sent| + k];
      }
    }
  }

  lemma TellsCompose(a: Host, x: seq<Event<Bytes, Msg>>, b: Host, y: seq<Event<Bytes, Msg>>, c: Host)
    requires Tells(a, x, b) && Tells(b, y, c)
    ensures Tells(a, x + y, c)
  {
    ShipmentsAppend(x, y);
    ShippedCompose(a, Shipments(x), b, Shipments(y), c);
    forall j | 0 <= j < |a.handed| ensures c.handed[j] == a.handed[j] + HandedBy(x + y, j) {
      HandedAppend(x, y, j);
    }
    forall p | 0 <= p < |a.published| ensures c.published[p] == a.published[p] + AcceptedBy(x + y, p) {
      AcceptedAppend(x, y, p);
    }
  }

  lemma PublishTells(h: Host, c: PublishCall<Bytes>)
    requires HostShaped(h) && c.pub < |h.core.pubs|
    ensures Tells(h, PublishOne(h.core, c).events, DoPublish(h, c.pub, c.message))
  {
    assert PublishOne(h.core, c).events[1..] == [];
  }

  lemma SendTells(h: Host, v: Visit, e: Env<Bytes>)
    requires HostShaped(h) && v.PubVisit? && CanSend(h.core, v.i)
    ensures Tells(h, VisitOne(h.core, v, e).events, DoSendOut(h, v.i, e.sendOk))
  {
    SendShips(h, v.i, e.sendOk);
    OneAttempt(VisitOne(h.core, v, e).events[0]);
  }

  lemma OneAttempt<P, S>(e: Event<P, S>)
    requires e.Sent? || e.SendFailed?
    ensures Shipments([e]) == ShipmentIn(e)
    ensures forall j :: HandedBy([e], j) == []
    ensures forall p :: AcceptedBy([e], p) == []
  {
    assert [e][1..] == [];
  }

  lemma SendShips(h: Host, p: nat, ok: bool)
    requires HostShaped(h) && CanSend(h.core, p)
    ensures var g := DoSendOut(h, p, ok);
            Shipped(h, g, [Shipment(ok, p, h.core.pubs[p].queue[0], g.core.counter)])
  {
  }

  lemma CallbackTells(h: Host, j: nat)
    requires HostShaped(h) && CanRun(h.core, j)
    ensures Tells(h, [Handed(j, h.core.subs[j].queue[0])], DoCallback(h, j))
  {
    var events: seq<Event<Bytes, Msg>> := [Handed(j, h.core.subs[j].queue[0])];
    assert events[1..] == [];
  }

  /** From `s` to `t`, only node `n` has moved, and it may go on spinning. */
  ghost predicate OnlyNode(s: Sys, t: Sys, n: nat) {
    && |t.hosts| == |s.hosts| && t.broker == s.broker && t.accepted == s.accepted && t.inbox == s.inbox
    && n < |s.hosts| && t.hosts[n].status == s.hosts[n].status && t.hosts[n].pc == s.hosts[n].pc
    && SameShape(s.hosts[n].core, t.hosts[n].core)
    && forall m | 0 <= m < |s.hosts| && m != n :: t.hosts[m] == s.hosts[m]
  }

  lemma OnlyNodeTransitive(a: Sys, b: Sys, c: Sys, n: nat)
    requires OnlyNode(a, b, n) && OnlyNode(b, c, n)
    ensures OnlyNode(a, c, n)
  {
  }

  /** Callbacks pass `publish` buffers of the right size. */
  ghost predicate CallsFit<P, S>(d: Node<P, S>, calls: seq<PublishCall<Bytes>>) {
    forall k | 0 <= k < |calls| :: calls[k].pub < |d.pubs| && |calls[k].message| == d.pubs[calls[k].pub].size
  }

  lemma {:induction false} PublishPath(s: Sys, n: nat, calls: seq<PublishCall<Bytes>>)
    returns (states: seq<Sys>, steps: seq<Step>, t: Sys)
    requires Shaped(s) && n < |s.hosts| && CallsFit(s.hosts[n].core, calls)
    ensures Links(s, states, steps, t) && OnlyNode(s, t, n)
    ensures t.hosts[n].core == PublishAll(s.hosts[n].core, calls).node
    ensures Tells(s.hosts[n], PublishAll(s.hosts[n].core, calls).events, t.hosts[n])
    decreases |calls|
  {
    if calls == [] {
      states, steps, t := [s], [], s;
      TellsNothing(s.hosts[n]);
    } else {
      var step := AppPublish(n, calls[0].pub, calls[0].message);
      OneStep(s, step);
      var m := Apply(s, step);
      assert OnlyNode(s, m, n);
      states, steps, t := PublishPath(m, n, calls[1..]);
      Join(s, [s, m], [step], m, states, steps, t);
      OnlyNodeTransitive(s, m, t, n);
      PublishTells(s.hosts[n], calls[0]);
      TellsCompose(s.hosts[n], PublishOne(s.hosts[n].core, calls[0]).events, m.hosts[n],
                   PublishAll(m.hosts[n].core, calls[1..]).events, t.hosts[n]);
      states, steps := [s, m] + states[1..], [step] + steps;
    }
  }

  lemma {:induction false} PublishCommutes<P, S>(d: Node<P, S>, calls: seq<PublishCall<P>>, j: nat)
    requires CanRun(d, j)
    ensures CanRun(PublishAll(d, calls).node, j)
    ensures DropFrontSub(PublishAll(d, calls).node, j) == PublishAll(DropFrontSub(d, j), calls).node
    decreases |calls|
  {
    if calls != [] {
      var e := PublishOne(d, calls[0]).node;
      PublishCommutes(e, calls[1..], j);
      assert DropFrontSub(e, j) == PublishOne(DropFrontSub(d, j), calls[0]).node;
    }
  }

  /** What `publish` accepts does not depend on subscriber queues. */
  lemma {:induction false} PublishEventsCommute<P, S>(d: Node<P, S>, calls: seq<PublishCall<P>>, j: nat)
    requires CanRun(d, j)
    ensures PublishAll(DropFrontSub(d, j), calls).events == PublishAll(d, calls).events
    decreases |calls|
  {
    if calls != [] {
      var e := PublishOne(d, calls[0]).node;
      PublishEventsCommute(e, calls[1..], j);
      assert DropFrontSub(e, j) == PublishOne(DropFrontSub(d, j), calls[0]).node;
    }
  }

  /** The environment keeps to the buffer sizes. */
  ghost predicate EnvFits(d: Node<Bytes, Msg>, v: Visit, e: Env<Bytes>) {
    && CallsFit(d, e.publishes)
    && (v.PubVisit? && e.sendOk && CanSend(d, v.i) ==> Codec.PAYLOAD + |d.pubs[v.i].queue[0]| <= BUFFER_SIZE)
  }

  lemma VisitPath(s: Sys, n: nat, v: Visit, e: Env<Bytes>) returns (states: seq<Sys>, steps: seq<Step>, t: Sys)
    requires Shaped(s) && n < |s.hosts| && MaySpin(s.hosts[n]) && Visited(s.hosts[n].core, v)
    requires EnvFits(s.hosts[n].core, v, e)
    ensures Links(s, states, steps, t) && OnlyNode(s, t, n)
    ensures t.hosts[n].core == VisitOne(s.hosts[n].core, v, e).node
    ensures Tells(s.hosts[n], VisitOne(s.hosts[n].core, v, e).events, t.hosts[n])
  {
    states, steps, t := [s], [], s;
    TellsNothing(s.hosts[n]);
    if v.PubVisit? && CanSend(s.hosts[n].core, v.i) {
      var step := SendOut(n, v.i, e.sendOk);
      OneStep(s, step);
      t := Apply(s, step);
      SendTells(s.hosts[n], v, e);
      states, steps := [s, t], [step];
    } else if v.SubVisit? && CanRun(s.hosts[n].core, v.j) {
      states, steps, t := CallbackPath(s, n, v.j, e);
    }
  }

  lemma CallbackPath(s: Sys, n: nat, j: nat, e: Env<Bytes>) returns (states: seq<Sys>, steps: seq<Step>, t: Sys)
    requires Shaped(s) && n < |s.hosts| && MaySpin(s.hosts[n]) && Visited(s.hosts[n].core, SubVisit(j))
    requires CanRun(s.hosts[n].core, j) && CallsFit(s.hosts[n].core, e.publishes)
    ensures Links(s, states, steps, t) && OnlyNode(s, t, n)
    ensures t.hosts[n].core == VisitOne(s.hosts[n].core, SubVisit(j), e).node
    ensures Tells(s.hosts[n], VisitOne(s.hosts[n].core, SubVisit(j), e).events, t.hosts[n])
  {
    var step := Callback(n, j);
    OneStep(s, step);
    var m := Apply(s, step);
    assert OnlyNode(s, m, n);
    states, steps, t := PublishPath(m, n, e.publishes);
    Join(s, [s, m], [step], m, states, steps, t);
    PublishCommutes(s.hosts[n].core, e.publishes, j);
    PublishEventsCommute(s.hosts[n].core, e.publishes, j);
    OnlyNodeTransitive(s, m, t, n);
    CallbackTells(s.hosts[n], j);
    TellsCompose(s.hosts[n], [Handed(j, s.hosts[n].core.subs[j].queue[0])], m.hosts[n],
                 PublishAll(m.hosts[n].core, e.publishes).events, t.hosts[n]);
    states, steps := [s, m] + states[1..], [step] + steps;
  }

  /** Environments that keep to the buffer sizes throughout a pass. */
  ghost predicate EnvsFit(d: Node<Bytes, Msg>, stops: seq<Stop>, envs: seq<Env<Bytes>>)
    requires |envs| == |stops|
    decreases |stops|
  {
    stops != [] ==>
      && EnvFits(d, stops[0].visit, envs[0])
      && EnvsFit(VisitOne(d, stops[0].visit, envs[0]).node, stops[1..], envs[1..])
  }

  lemma {:induction false} PassPath(s: Sys, n: nat, stops: seq<Stop>, envs: seq<Env<Bytes>>)
    returns (states: seq<Sys>, steps: seq<Step>, t: Sys)
    requires Shaped(s) && n < |s.hosts| && MaySpin(s.hosts[n]) && |envs| == |stops|
    requires EnvsFit(s.hosts[n].core, stops, envs)
    requires forall x | 0 <= x < |stops| :: Visited(s.hosts[n].core, stops[x].visit)
    ensures Links(s, states, steps, t) && OnlyNode(s, t, n)
    ensures t.hosts[n].core == Pass(s.hosts[n].core, stops, envs).node
    ensures Tells(s.hosts[n], Pass(s.hosts[n].core, stops, envs).events, t.hosts[n])
    decreases |stops|
  {
    if stops == [] {
      states, steps, t := [s], [], s;
      TellsNothing(s.hosts[n]);
    } else {
      var d := s.hosts[n].core;
      states, steps, t := VisitPath(s, n, stops[0].visit, envs[0]);
      if VisitOne(d, stops[0].visit, envs[0]).ok {
        forall x | 0 <= x < |stops[1..]| ensures Visited(t.hosts[n].core, stops[1..][x].visit) {
          assert Visited(d, stops[x + 1].visit);
        }
        assert Shaped(t);
        var states', steps', t' := PassPath(t, n, stops[1..], envs[1..]);
        Join(s, states, steps, t, states', steps', t');
        OnlyNodeTransitive(s, t, t', n);
        TellsCompose(s.hosts[n], VisitOne(d, stops[0].visit, envs[0]).events, t.hosts[n],
                     Pass(t.hosts[n].core, stops[1..], envs[1..]).events, t'.hosts[n]);
        states, steps, t := states + states'[1..], steps + steps', t';
      }
    }
  }

  /** The packet `spin_once` finds: the `k`-th in the inbox, or none. */
  ghost function Found(s: Sys, n: nat, k: Option<nat>, stale: Bytes): Incoming<Msg>
    requires Shaped(s) && n < |s.hosts| && (k.Some? ==> k.value < |s.inbox[n]|) && |stale| == BUFFER_SIZE
  {
    if k.Some? then Carried(s.inbox[n][k.value], stale) else Nothing
  }

  /** `s` after node `n` has taken its `k`-th packet, if any, out of its inbox. */
  ghost function InboxAfter(s: Sys, n: nat, k: Option<nat>): seq<seq<Flight>>
    requires Shaped(s) && n < |s.hosts| && (k.Some? ==> k.value < |s.inbox[n]|)
  {
    if k.Some? then s.inbox[n := RemoveAt(s.inbox[n], k.value)] else s.inbox
  }

  lemma TakeInPath(s: Sys, n: nat, k: Option<nat>, stale: Bytes) returns (states: seq<Sys>, steps: seq<Step>, t: Sys)
    requires Shaped(s) && n < |s.hosts| && MaySpin(s.hosts[n]) && |stale| == BUFFER_SIZE
    requires k.Some? ==> k.value < |s.inbox[n]|
    ensures Links(s, states, steps, t) && OnlyNode(s, t.(inbox := s.inbox), n) && t.inbox == InboxAfter(s, n, k)
    ensures t.hosts[n] == s.hosts[n].(core := ProcessIncoming(s.hosts[n].core, Found(s, n, k, stale)))
    ensures Tells(s.hosts[n], [], t.hosts[n])
  {
    states, steps, t := [s], [], s;
    TellsNothing(s.hosts[n]);
    if k.Some? {
      var step := TakeIn(n, k.value, stale);
      OneStep(s, step);
      t := Apply(s, step);
      TakeInFrame(s.hosts[n], s.inbox[n][k.value], stale);
      states, steps := [s, t], [step];
    }
  }

  /**
   * A whole `spin_once`, with or without an incoming packet, whatever callbacks
   * publish and whichever sends fail, is a path of system steps to the state
   * that `SpinOnce` computes. Deliveries, accepted messages and send attempts
   * of the node grow by exactly what the events of `SpinOnce` tell, and nothing
   * else in the system changes but the packet taken in.
   */
  lemma SpinIsPath(s: Sys, n: nat, k: Option<nat>, stale: Bytes, envs: seq<Env<Bytes>>)
    returns (states: seq<Sys>, steps: seq<Step>, t: Sys)
    requires Shaped(s) && n < |s.hosts| && MaySpin(s.hosts[n]) && |stale| == BUFFER_SIZE
    requires k.Some? ==> k.value < |s.inbox[n]|
    requires |envs| == |Schedule(s.hosts[n].core.levels)|
    requires EnvsFit(ProcessIncoming(s.hosts[n].core, Found(s, n, k, stale)), Schedule(s.hosts[n].core.levels), envs)
    ensures Links(s, states, steps, t) && OnlyNode(s, t.(inbox := s.inbox), n) && t.inbox == InboxAfter(s, n, k)
    ensures var spin := SpinOnce(s.hosts[n].core, Found(s, n, k, stale), envs);
            t.hosts[n].core == spin.node && Tells(s.hosts[n], spin.events, t.hosts[n])
  {
    var stops := Schedule(s.hosts[n].core.levels);
    var states1, steps1, m := TakeInPath(s, n, k, stale);
    assert Shaped(m);
    forall x | 0 <= x < |stops| ensures Visited(m.hosts[n].core, stops[x].visit) {
    }
    var states2, steps2, m' := PassPath(m, n, stops, envs);
    Join(s, states1, steps1, m, states2, steps2, m');
    states, steps, t := states1 + states2[1..], steps1 + steps2, m';
    var events := Pass(m.hosts[n].core, stops, envs).events;
    TellsCompose(s.hosts[n], [], m.hosts[n], events, t.hosts[n]);
    assert [] + events == events;
    OnlyNodeTransitive(s, m.(inbox := s.inbox), t.(inbox := s.inbox), n);
  }
}
