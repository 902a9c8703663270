/** `connect` against a broker that nobody else talks to meanwhile: which steps it takes, and when it succeeds. */
module Sessions {
  import opened Basics
  import opened BrokerModel
  import opened BrokerProofs
  import opened NodeModel
  import opened System
  import opened SystemCounters
  import opened SystemViews
  import opened Theorems
  import opened SpinPaths
  import Dialling
  import Progress

  // ---- a session as a function ---------------------------------------------

  /** What may go wrong with a call: `sendto` or the receive fails. */
  datatype Fault = Fine | SendFault | ReceiveFault

  /** What a call meets and what it makes of the broker's tables. */
  function Meets<P, S>(r: Registry, client: Address, d: Node<P, S>, pc: Pc, fault: Fault)
    : (Registry, Dialling.Reaction)
  {
    match fault
    case SendFault => (r, Dialling.SendFails)
    case ReceiveFault => (r, Dialling.ReceiveFails)
    case Fine =>
      var (r', a) := Process(r, client, d.counter, RequestAt(d, pc));
      (r', Dialling.Got(Reply(Wrap(d.counter + 1), a)))
  }

  datatype Session<P, S> =
    Session(registry: Registry, connection: Dialling.Connection<P, S>, met: seq<Dialling.Reaction>)

  /** The rest of a session from `pc`; call number `k` has fault `faults(k)`. */
  function Hold<P, S>(r: Registry, client: Address, d: Node<P, S>, pc: Pc, faults: nat -> Fault, k: nat): Session<P, S>
    decreases Dialling.CallsLeft(d, pc)
  {
    if pc.AtEnd? then Session(r, Dialling.Connection(d, [], true), [])
    else
      var (r', met) := Meets(r, client, d, pc, faults(k));
      var x := Dialling.Call(d, pc, met);
      if !x.ok then Session(r', Dialling.Connection(x.node, [x.packet], false), [met])
      else
        Dialling.CallCounts(d, pc, met);
        var rest := Hold(r', client, x.node, NextPc(d, pc), faults, k + 1);
        var c := rest.connection;
        Session(rest.registry, Dialling.Connection(c.node, [x.packet] + c.sent, c.ok), [met] + rest.met)
  }

  /** The calls from number `k` on meet what `met` lists. */
  ghost predicate Brings(world: nat -> Dialling.Reaction, k: nat, met: seq<Dialling.Reaction>) {
    forall i | k <= i < k + |met| :: world(i) == met[i - k]
  }

  lemma BringsNext(world: nat -> Dialling.Reaction, k: nat, first: Dialling.Reaction, rest: seq<Dialling.Reaction>)
    requires Brings(world, k, [first] + rest)
    ensures world(k) == first && Brings(world, k + 1, rest)
  {
    var all := [first] + rest;
    assert forall i | k + 1 <= i < k + 1 + |rest| :: world(i) == all[i - k] == rest[i - (k + 1)];
  }

  /** A session is a `connect`. */
  lemma {:induction false} SessionIsConnect<P, S>(r: Registry, client: Address, d: Node<P, S>, pc: Pc,
                                                  faults: nat -> Fault, k: nat,
                                                  world: nat -> Dialling.Reaction)
    requires Brings(world, k, Hold(r, client, d, pc, faults, k).met)
    ensures Dialling.Connect(d, pc, world, k) == Hold(r, client, d, pc, faults, k).connection
    decreases Dialling.CallsLeft(d, pc)
  {
    if !pc.AtEnd? {
      var (r', met) := Meets(r, client, d, pc, faults(k));
      var x := Dialling.Call(d, pc, met);
      if x.ok {
        Dialling.CallCounts(d, pc, met);
        BringsNext(world, k, met, Hold(r', client, x.node, NextPc(d, pc), faults, k + 1).met);
        SessionIsConnect(r', client, x.node, NextPc(d, pc), faults, k + 1, world);
      } else {
        BringsNext(world, k, met, []);
      }
    }
  }

  // ---- a session is a path -------------------------------------------------

  /** Node `n` may go on connecting: its packets have all arrived, and there is room for all its calls. */
  ghost predicate Ready(s: Sys, n: nat) {
    && Shaped(s) && n < |s.hosts|
    && var h := s.hosts[n];
       && h.status.Connecting? && h.pc != AtEnd && PcInRange(h.core, h.pc) && |s.accepted[n]| == |h.sent|
       && Room(s, |h.sent|, Dialling.CallsLeft(h.core, h.pc))
  }

  ghost predicate Room(s: Sys, sent: nat, calls: nat) {
    && sent + calls < WORD
    && |s.broker.registry.topics| + calls <= WORD
    && |s.broker.registry.types| + calls <= WORD
  }

  /** One request adds at most one entry to each table. */
  lemma ProcessGrowth(r: Registry, client: Address, rpcId: uint32, q: Request)
    ensures var s := Process(r, client, rpcId, q).0;
            |s.topics| <= |r.topics| + 1 && |s.types| <= |r.types| + 1
  {
  }

  /**
   * One blocking call in the system: a node that may call can take the request
   * step; a failed send ends `connect` there; otherwise a failed receive, or the
   * receipt of any packet that has got into its inbox meanwhile, leaves the node
   * as `Call` says.
   */
  lemma CallIsEnabled(s: Sys, n: nat, u: Sys, k: nat)
    requires Shaped(s) && n < |s.hosts| && s.hosts[n].status.Connecting? && s.hosts[n].pc != AtEnd
    requires Shaped(u) && n < |u.hosts| && u.hosts[n] == DoCall(s.hosts[n], true) && k < |u.inbox[n]|
    ensures var h := s.hosts[n];
            var down := u.inbox[n][k].down;
            && Enabled(s, Step.Call(n, false)) && Enabled(s, Step.Call(n, true))
            && Enabled(u, Abort(n)) && Enabled(u, Answer(n, k))
            && CallLeaves(h, Dialling.SendFails, Apply(s, Step.Call(n, false)), n)
            && CallLeaves(h, Dialling.ReceiveFails, Apply(u, Abort(n)), n)
            && CallLeaves(h, Dialling.Got(down), Apply(u, Answer(n, k)), n)
            && Apply(s, Step.Call(n, true)).hosts == s.hosts[n := DoCall(h, true)]
            && Apply(u, Answer(n, k)).inbox == u.inbox[n := RemoveAt(u.inbox[n], k)]
  {
    Dialling.CallIsSteps(s.hosts[n], Dialling.SendFails);
    Dialling.CallIsSteps(s.hosts[n], Dialling.ReceiveFails);
    Dialling.CallIsSteps(s.hosts[n], Dialling.Got(u.inbox[n][k].down));
  }

  /** Node `n` of `t` is what one call makes of `h`. */
  ghost predicate CallLeaves(h: Host, r: Dialling.Reaction, t: Sys, n: nat) {
    && n < |t.hosts|
    && var g, x := t.hosts[n], Dialling.Call(h.core, h.pc, r);
       && g.core == x.node && g.sent == h.sent + [Attempt(!r.SendFails?, x.packet, Rpc)]
       && (x.ok <==> !g.status.Failed?)
       && (x.ok ==> g.pc == NextPc(h.core, h.pc) && g.status == if g.pc.AtEnd? then Connected else Connecting)
  }

  lemma FaultyCall(s: Sys, n: nat, fault: Fault) returns (states: seq<Sys>, steps: seq<Step>, t: Sys)
    requires Shaped(s) && n < |s.hosts| && Enabled(s, Step.Call(n, true)) && fault != Fine
    ensures Links(s, states, steps, t) && t.broker == s.broker
    ensures var r := if fault.SendFault? then Dialling.SendFails else Dialling.ReceiveFails;
            t.hosts == s.hosts[n := Dialling.HostAfterCall(s.hosts[n], r)]
  {
    var call := Step.Call(n, fault.ReceiveFault?);
    OneStep(s, call);
    t := Apply(s, call);
    states, steps := [s, t], [call];
    if fault.ReceiveFault? {
      Snoc(s, states, steps, t, Abort(n));
      states, steps, t := states + [Apply(t, Abort(n))], steps + [Abort(n)], Apply(t, Abort(n));
    }
  }

  /** The path of one call. */
  lemma CallPath(s: Sys, n: nat, fault: Fault) returns (states: seq<Sys>, steps: seq<Step>, t: Sys)
    requires Ready(s, n) && CountersOk(s) && ViewsOk(s)
    ensures Links(s, states, steps, t) && Moves(s, n, fault, t)
    ensures fault == Fine ==> n < |t.accepted| && |t.accepted[n]| == |s.hosts[n].sent| + 1
  {
    if fault == Fine {
      states, steps, t := Progress.CallCompletes(s, n);
    } else {
      states, steps, t := FaultyCall(s, n, fault);
    }
  }

  /** A call keeps the bounds, and the room for the calls after it. */
  lemma CallKeepsRoom(s: Sys, n: nat, fault: Fault, t: Sys)
    requires Ready(s, n) && Bounded(s) && Shaped(t) && Moves(s, n, fault, t)
    requires fault == Fine ==> |t.accepted[n]| == |s.hosts[n].sent| + 1
    ensures Bounded(t)
    ensures var h := s.hosts[n];
            var x := Dialling.Call(h.core, h.pc, Meets(s.broker.registry, n, h.core, h.pc, fault).1);
            && |t.hosts| == |s.hosts|
            && (x.ok && NextPc(h.core, h.pc) != AtEnd ==>
                  Ready(t, n) && Dialling.CallsLeft(t.hosts[n].core, t.hosts[n].pc) < Dialling.CallsLeft(h.core, h.pc))
  {
    var h := s.hosts[n];
    var (r, met) := Meets(s.broker.registry, n, h.core, h.pc, fault);
    ProcessGrowth(s.broker.registry, n, h.core.counter, RequestAt(h.core, h.pc));
    Dialling.CallIsSteps(h, met);
    if Dialling.Call(h.core, h.pc, met).ok {
      Dialling.CallCounts(h.core, h.pc, met);
    }
  }

  /** One call of a session: a path that leaves the node ready for the next call, or done. */
  lemma OneCall(s: Sys, n: nat, fault: Fault) returns (states: seq<Sys>, steps: seq<Step>, t: Sys, goesOn: bool)
    requires Ready(s, n) && Bounded(s) && Invariant(s)
    ensures Links(s, states, steps, t) && Bounded(t) && Invariant(t) && Moves(s, n, fault, t)
    ensures var h := s.hosts[n];
            var x := Dialling.Call(h.core, h.pc, Meets(s.broker.registry, n, h.core, h.pc, fault).1);
            && (goesOn <==> x.ok && NextPc(h.core, h.pc) != AtEnd)
            && (goesOn ==>
                  && Ready(t, n)
                  && Dialling.CallsLeft(t.hosts[n].core, t.hosts[n].pc) < Dialling.CallsLeft(h.core, h.pc))
  {
    states, steps, t := CallPath(s, n, fault);
    CallKeepsRoom(s, n, fault, t);
    PathKeeps(s, states, steps, t);
    var h := s.hosts[n];
    goesOn := Dialling.Call(h.core, h.pc, Meets(s.broker.registry, n, h.core, h.pc, fault).1).ok
        && NextPc(h.core, h.pc) != AtEnd;
  }

  lemma PathKeeps(s: Sys, states: seq<Sys>, steps: seq<Step>, t: Sys)
    requires Links(s, states, steps, t) && Invariant(s) && Bounded(t)
    ensures Invariant(t)
  {
    PathInvariant(states, steps, |steps|);
  }

  /** The attempts of `g` are those of `h` followed by the given requests. */
  ghost predicate Requested(h: Host, g: Host, packets: seq<Packet>) {
    && |g.sent| == |h.sent| + |packets| && h.sent <= g.sent
    && forall i | 0 <= i < |packets| :: g.sent[|h.sent| + i].packet == packets[i] && g.sent[|h.sent| + i].source == Rpc
  }

  lemma RequestedNext(h: Host, m: Host, g: Host, first: Packet, rest: seq<Packet>)
    requires Requested(h, m, [first]) && Requested(m, g, rest)
    ensures Requested(h, g, [first] + rest)
  {
    var all := [first] + rest;
    forall i | 0 <= i < |all| ensures g.sent[|h.sent| + i].packet == all[i] && g.sent[|h.sent| + i].source == Rpc {
      if i > 0 {
        assert g.sent[|m.sent| + (i - 1)].packet == rest[i - 1];
      } else {
        assert g.sent[|h.sent|] == m.sent[|h.sent| + 0];
      }
    }
  }

  /** Nothing but node `n` has moved from `s` to `t`, and it has ended as the session says. */
  ghost predicate Ends(s: Sys, n: nat, z: Session<Bytes, Msg>, t: Sys)
    requires n < |s.hosts|
  {
    && t.broker.registry == z.registry && |t.hosts| == |s.hosts|
    && (forall m | 0 <= m < |s.hosts| && m != n :: t.hosts[m] == s.hosts[m])
    && t.hosts[n].core == z.connection.node
    && t.hosts[n].status == (if z.connection.ok then Connected else Failed)
    && Requested(s.hosts[n], t.hosts[n], z.connection.sent)
  }

  /** One call has moved node `n` from `s` to `m`. */
  ghost predicate Moves(s: Sys, n: nat, fault: Fault, m: Sys)
    requires n < |s.hosts|
  {
    var h := s.hosts[n];
    var (r, met) := Meets(s.broker.registry, n, h.core, h.pc, fault);
    m.broker.registry == r && m.hosts == s.hosts[n := Dialling.HostAfterCall(h, met)]
  }

  /** After the last call, the session has ended. */
  lemma EndsHere(s: Sys, n: nat, faults: nat -> Fault, k: nat, m: Sys)
    requires n < |s.hosts| && s.hosts[n].pc != AtEnd && Moves(s, n, faults(k), m)
    requires var h := s.hosts[n];
             var x := Dialling.Call(h.core, h.pc, Meets(s.broker.registry, n, h.core, h.pc, faults(k)).1);
             !x.ok || NextPc(h.core, h.pc) == AtEnd
    ensures Ends(s, n, Hold(s.broker.registry, n, s.hosts[n].core, s.hosts[n].pc, faults, k), m)
  {
    var h := s.hosts[n];
    var (r, met) := Meets(s.broker.registry, n, h.core, h.pc, faults(k));
    Dialling.CallIsSteps(h, met);
    var x := Dialling.Call(h.core, h.pc, met);
    assert Requested(h, m.hosts[n], [x.packet]);
    assert [x.packet] + [] == [x.packet];
  }

  /** Otherwise it ends where the rest of it ends. */
  lemma EndsLater(s: Sys, n: nat, faults: nat -> Fault, k: nat, m: Sys, t: Sys)
    requires n < |s.hosts| && s.hosts[n].pc != AtEnd && Moves(s, n, faults(k), m)
    requires var h := s.hosts[n];
             Dialling.Call(h.core, h.pc, Meets(s.broker.registry, n, h.core, h.pc, faults(k)).1).ok
    requires Ends(m, n, Hold(m.broker.registry, n, m.hosts[n].core, m.hosts[n].pc, faults, k + 1), t)
    ensures Ends(s, n, Hold(s.broker.registry, n, s.hosts[n].core, s.hosts[n].pc, faults, k), t)
  {
    var h := s.hosts[n];
    var (r, met) := Meets(s.broker.registry, n, h.core, h.pc, faults(k));
    Dialling.CallIsSteps(h, met);
    Dialling.CallCounts(h.core, h.pc, met);
    var x := Dialling.Call(h.core, h.pc, met);
    assert Requested(h, m.hosts[n], [x.packet]);
    RequestedNext(h, m.hosts[n], t.hosts[n], x.packet,
                  Hold(r, n, x.node, NextPc(h.core, h.pc), faults, k + 1).connection.sent);
  }

  /**
   * A whole `connect` is a path of system steps: from every state of the
   * invariant in which the node may go on connecting, for any failing sends and
   * receives, there are enabled steps of node and broker to the state that
   * `Connect` computes from the broker's answers (see `SessionIsConnect`).
   */
  lemma {:induction false} ConnectIsPath(s: Sys, n: nat, faults: nat -> Fault, k: nat)
    returns (states: seq<Sys>, steps: seq<Step>, t: Sys)
    requires Ready(s, n) && Bounded(s) && Invariant(s)
    ensures Links(s, states, steps, t)
    ensures Ends(s, n, Hold(s.broker.registry, n, s.hosts[n].core, s.hosts[n].pc, faults, k), t)
    decreases Dialling.CallsLeft(s.hosts[n].core, s.hosts[n].pc)
  {
    var goesOn;
    states, steps, t, goesOn := OneCall(s, n, faults(k));
    if goesOn {
      var states', steps', t' := ConnectIsPath(t, n, faults, k + 1);
      Join(s, states, steps, t, states', steps', t');
      EndsLater(s, n, faults, k, t, t');
      states, steps, t := states + states'[1..], steps + steps', t';
    } else {
      EndsHere(s, n, faults, k, t);
    }
  }
}
