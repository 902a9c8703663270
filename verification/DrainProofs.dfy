/** `spin_while_work`: why it stops and what it leaves behind. */
module DrainProofs {
  import opened Basics
  import opened NodeModel
  import opened SchedulerProofs

  /** Number of messages queued at publishers. */
  function Total<P>(pubs: seq<Pub<P>>): nat {
    if pubs == [] then 0 else |pubs[0].queue| + Total(pubs[1..])
  }

  /** Callbacks that publish nothing; `ok` decides about the send at each stop of each pass. */
  function Silent<P>(ok: (nat, nat) -> bool, pass: nat, n: nat): (envs: seq<Env<P>>)
    ensures |envs| == n
    ensures forall k | 0 <= k < n :: envs[k] == Env([], ok(pass, k))
  {
    seq(n, k requires 0 <= k < n => Env([], ok(pass, k)))
  }

  lemma {:induction false} TotalUpdate<P>(pubs: seq<Pub<P>>, i: nat, p: Pub<P>)
    requires i < |pubs|
    ensures Total(pubs[i := p]) + |pubs[i].queue| == Total(pubs) + |p.queue|
    decreases |pubs|
  {
    if i > 0 {
      TotalUpdate(pubs[1..], i - 1, p);
      assert pubs[i := p][1..] == pubs[1..][i - 1 := p];
    } else {
      assert pubs[i := p][1..] == pubs[1..];
    }
  }

  lemma AnySentAppend<P, S>(a: seq<Event<P, S>>, b: seq<Event<P, S>>)
    ensures AnySent(a + b) <==> AnySent(a) || AnySent(b)
  {
    if k :| 0 <= k < |a| && a[k].Sent? {
      assert (a + b)[k].Sent?;
    }
    if k :| 0 <= k < |b| && b[k].Sent? {
      assert (a + b)[|a| + k].Sent?;
    }
  }

  /** Without publishing callbacks a pass never adds a message, and each send removes one. */
  lemma {:induction false} PassShrinks<P, S>(d: Node<P, S>, stops: seq<Stop>, envs: seq<Env<P>>)
    requires |envs| == |stops| && forall k | 0 <= k < |envs| :: envs[k].publishes == []
    ensures var r := Pass(d, stops, envs);
            Total(r.node.pubs) <= Total(d.pubs) && (AnySent(r.events) ==> Total(r.node.pubs) < Total(d.pubs))
    decreases |stops|
  {
    if stops != [] {
      var v := VisitOne(d, stops[0].visit, envs[0]);
      match stops[0].visit {
        case PubVisit(i) =>
          if CanSend(d, i) {
            TotalUpdate(d.pubs, i, v.node.pubs[i]);
          }
        case SubVisit(_) =>
          assert v.node.pubs == d.pubs;
      }
      if v.ok {
        PassShrinks(v.node, stops[1..], envs[1..]);
        AnySentAppend(v.events, Pass(v.node, stops[1..], envs[1..]).events);
      }
    }
  }

  lemma SpinShrinks<P, S>(d: Node<P, S>, inc: Incoming<S>, envs: seq<Env<P>>)
    requires Wired(d) && |envs| == |Schedule(d.levels)| && forall k | 0 <= k < |envs| :: envs[k].publishes == []
    ensures var s := SpinOnce(d, inc, envs);
            && Wired(s.node) && SameShape(d, s.node)
            && Total(s.node.pubs) <= Total(d.pubs)
            && (AnySent(s.events) ==> Total(s.node.pubs) < Total(d.pubs))
  {
    ActFrame(d, ActSpin(inc, envs));
    if Deliverable(d, inc) {
      QueueAllAt(d, d.topics[inc.topicId].subs, inc.copy);
    }
    PassShrinks(ProcessIncoming(d, inc), Schedule(d.levels), envs);
  }

  datatype Work<P, S> = Work(node: Node<P, S>, backlog: seq<Incoming<S>>, good: bool)

  function Next<S>(backlog: seq<Incoming<S>>): Incoming<S> {
    if backlog == [] then Nothing else backlog[0]
  }

  function Rest<S>(backlog: seq<Incoming<S>>): seq<Incoming<S>> {
    if backlog == [] then [] else backlog[1..]
  }

  /**
   * `spin_while_work` on a backlog to which nothing is added. It terminates
   * because backlog plus queued messages falls with every `Success`.
   */
  ghost function WhileWork<P, S>(d: Node<P, S>, backlog: seq<Incoming<S>>, ok: (nat, nat) -> bool, pass: nat)
    : Work<P, S>
    requires Wired(d)
    decreases |backlog| + Total(d.pubs)
  {
    var envs := Silent(ok, pass, |Schedule(d.levels)|);
    var s := SpinOnce(d, Next(backlog), envs);
    SpinShrinks(d, Next(backlog), envs);
    if s.result == Success then WhileWork(s.node, Rest(backlog), ok, pass + 1)
    else Work(s.node, Rest(backlog), s.result == NoWork)
  }

  ghost predicate AllVisited<P, S>(d: Node<P, S>) {
    forall i | 0 <= i < |d.pubs| :: Visited(d, PubVisit(i))
  }

  lemma SentIsWork<P, S>(events: seq<Event<P, S>>, i: nat)
    requires SentBy(events, i) != []
    ensures AnySent(events)
    decreases |events|
  {
  }

  lemma {:induction false} PassAcceptsNothing<P, S>(d: Node<P, S>, stops: seq<Stop>, envs: seq<Env<P>>, i: nat)
    requires |envs| == |stops| && forall k | 0 <= k < |envs| :: envs[k].publishes == []
    ensures AcceptedBy(Pass(d, stops, envs).events, i) == []
    decreases |stops|
  {
    if stops != [] {
      var v := VisitOne(d, stops[0].visit, envs[0]);
      if v.events != [] {
        assert v.events[1..] == [];
      }
      assert AcceptedBy(v.events, i) == [];
      if v.ok {
        PassAcceptsNothing(v.node, stops[1..], envs[1..], i);
        AcceptedAppend(v.events, Pass(v.node, stops[1..], envs[1..]).events, i);
      }
    }
  }

  /** When `spin_while_work` returns true, every publisher and subscriber queue is empty. */
  lemma {:induction false} WhileWorkDrains<P, S>(d: Node<P, S>, backlog: seq<Incoming<S>>, ok: (nat, nat) -> bool,
                                                 pass: nat)
    requires Wired(d) && Quiet(d) && AllVisited(d)
    ensures var w := WhileWork(d, backlog, ok, pass);
            w.good ==> Quiet(w.node) && forall i | 0 <= i < |w.node.pubs| :: w.node.pubs[i].queue == []
    decreases |backlog| + Total(d.pubs)
  {
    var envs := Silent(ok, pass, |Schedule(d.levels)|);
    var inc := Next(backlog);
    var s := SpinOnce(d, inc, envs);
    SpinShrinks(d, inc, envs);
    if s.result != Error {
      SpinStaysQuiet(d, inc, envs);
    }
    if s.result == Success {
      forall i | 0 <= i < |s.node.pubs| ensures Visited(s.node, PubVisit(i)) {
        assert Visited(d, PubVisit(i));
      }
      WhileWorkDrains(s.node, Rest(backlog), ok, pass + 1);
    } else if s.result == NoWork {
      forall i | 0 <= i < |s.node.pubs| ensures s.node.pubs[i].queue == [] {
        ActConserves(d, ActSpin(inc, envs), i);
        PassAcceptsNothing(ProcessIncoming(d, inc), Schedule(d.levels), envs, i);
        assert Visited(d, PubVisit(i));
        if SentBy(s.events, i) != [] {
          SentIsWork(s.events, i);
        }
      }
    }
  }

  // ---- the backlog ---------------------------------------------------------

  /** No publisher has more than `n` messages queued. */
  ghost predicate AtMost<P, S>(d: Node<P, S>, n: nat) {
    forall i | 0 <= i < |d.pubs| :: |d.pubs[i].queue| <= n
  }

  ghost predicate OncePerPass<P, S>(d: Node<P, S>) {
    forall x, y | 0 <= x < y < |Schedule(d.levels)| :: Schedule(d.levels)[x].visit != Schedule(d.levels)[y].visit
  }

  /** An error-free pass pops one message from each publisher it visits. */
  lemma {:induction false} PassPops<P, S>(d: Node<P, S>, stops: seq<Stop>, envs: seq<Env<P>>, i: nat)
    requires |envs| == |stops| && i < |d.pubs|
    requires forall k | 0 <= k < |envs| :: envs[k].publishes == []
    requires forall x, y | 0 <= x < y < |stops| :: stops[x].visit != stops[y].visit
    requires Pass(d, stops, envs).ok
    ensures var r := Pass(d, stops, envs);
            && |r.node.pubs| == |d.pubs|
            && r.node.pubs[i].queue
               == if d.pubs[i].queue != [] && (exists k | 0 <= k < |stops| :: stops[k].visit == PubVisit(i))
                  then d.pubs[i].queue[1..] else d.pubs[i].queue
    decreases |stops|
  {
    if stops != [] {
      VisitFrame(d, stops[0].visit, envs[0]);
      var v := VisitOne(d, stops[0].visit, envs[0]);
      PassPops(v.node, stops[1..], envs[1..], i);
      if k :| 0 <= k < |stops| && stops[k].visit == PubVisit(i) {
        assert k > 0 ==> stops[1..][k - 1].visit == PubVisit(i);
        if l :| 0 <= l < |stops[1..]| && stops[1..][l].visit == PubVisit(i) {
          assert stops[l + 1].visit == PubVisit(i);
        }
      }
    }
  }

  lemma SpinPops<P, S>(d: Node<P, S>, inc: Incoming<S>, envs: seq<Env<P>>)
    requires Wired(d) && OncePerPass(d) && AllVisited(d) && |envs| == |Schedule(d.levels)|
    requires (forall k | 0 <= k < |envs| :: envs[k].publishes == []) && SpinOnce(d, inc, envs).result != Error
    ensures var s := SpinOnce(d, inc, envs);
            && SameShape(d, s.node) && Wired(s.node) && OncePerPass(s.node) && AllVisited(s.node)
            && (forall i | 0 <= i < |d.pubs| ::
                  s.node.pubs[i].queue == if d.pubs[i].queue != [] then d.pubs[i].queue[1..] else [])
            && (AnySent(s.events) <==> !AtMost(d, 0))
  {
    ActFrame(d, ActSpin(inc, envs));
    var d1 := ProcessIncoming(d, inc);
    if Deliverable(d, inc) {
      QueueAllAt(d, d.topics[inc.topicId].subs, inc.copy);
    }
    var s := SpinOnce(d, inc, envs);
    PassShrinks(d1, Schedule(d.levels), envs);
    forall i | 0 <= i < |d.pubs|
      ensures s.node.pubs[i].queue == if d.pubs[i].queue != [] then d.pubs[i].queue[1..] else []
      ensures Visited(s.node, PubVisit(i)) && (d.pubs[i].queue != [] ==> AnySent(s.events))
    {
      assert Visited(d, PubVisit(i));
      PassPops(d1, Schedule(d.levels), envs, i);
      ActConserves(d, ActSpin(inc, envs), i);
      if d.pubs[i].queue != [] {
        SentIsWork(s.events, i);
      }
    }
    if AtMost(d, 0) {
      TotalZero(d.pubs);
    }
  }

  lemma {:induction false} PassAlwaysOk<P, S>(d: Node<P, S>, stops: seq<Stop>, envs: seq<Env<P>>)
    requires |envs| == |stops| && forall k | 0 <= k < |envs| :: envs[k].sendOk
    ensures Pass(d, stops, envs).ok
    decreases |stops|
  {
    if stops != [] {
      VisitFrame(d, stops[0].visit, envs[0]);
      PassAlwaysOk(VisitOne(d, stops[0].visit, envs[0]).node, stops[1..], envs[1..]);
    }
  }

  lemma {:induction false} TotalZero<P>(pubs: seq<Pub<P>>)
    requires forall i | 0 <= i < |pubs| :: |pubs[i].queue| == 0
    ensures Total(pubs) == 0
  {
    if pubs != [] {
      TotalZero(pubs[1..]);
    }
  }

  /** An undeliverable packet is never met, except last, at a time when all publishers have run dry. */
  ghost predicate NoEarlyStop<P, S>(d: Node<P, S>, backlog: seq<Incoming<S>>) {
    forall n | 0 <= n < |backlog| - 1 && AtMost(d, n) :: Deliverable(d, backlog[n])
  }

  /**
   * An undeliverable packet is not counted as work: when `spin_while_work`
   * returns true, it has consumed the whole backlog exactly if no undeliverable
   * packet makes it stop early. It returns true whenever no send fails.
   */
  lemma {:induction false} BacklogConsumedIff<P, S>(d: Node<P, S>, backlog: seq<Incoming<S>>, ok: (nat, nat) -> bool,
                                                    pass: nat)
    requires Wired(d) && OncePerPass(d) && AllVisited(d)
    ensures var w := WhileWork(d, backlog, ok, pass);
            && (w.good ==> (w.backlog == [] <==> NoEarlyStop(d, backlog)))
            && ((forall p, k :: ok(p, k)) ==> w.good)
    decreases |backlog| + Total(d.pubs)
  {
    var envs := Silent(ok, pass, |Schedule(d.levels)|);
    var inc := Next(backlog);
    var s := SpinOnce(d, inc, envs);
    SpinShrinks(d, inc, envs);
    if forall p, k :: ok(p, k) {
      PassAlwaysOk(ProcessIncoming(d, inc), Schedule(d.levels), envs);
    }
    if s.result != Error {
      SpinPops(d, inc, envs);
      if s.result == Success {
        BacklogConsumedIff(s.node, Rest(backlog), ok, pass + 1);
        EarlyStopLater(d, backlog, s.node);
      } else {
        assert AtMost(d, 0);
      }
    }
  }

  /** A pass that does work brings every undeliverable packet and every publisher one step nearer. */
  lemma EarlyStopLater<P, S>(d: Node<P, S>, backlog: seq<Incoming<S>>, e: Node<P, S>)
    requires SameShape(d, e)
    requires forall i | 0 <= i < |d.pubs| ::
               e.pubs[i].queue == if d.pubs[i].queue != [] then d.pubs[i].queue[1..] else []
    requires Deliverable(d, Next(backlog)) || !AtMost(d, 0)
    ensures NoEarlyStop(e, Rest(backlog)) <==> NoEarlyStop(d, backlog)
  {
    var rest := Rest(backlog);
    assert forall n: nat :: AtMost(e, n) <==> AtMost(d, n + 1);
    assert forall n | 0 <= n < |rest| ::
        rest[n] == backlog[n + 1] && (Deliverable(e, rest[n]) <==> Deliverable(d, backlog[n + 1]));
    if NoEarlyStop(e, rest) {
      forall n | 0 <= n < |backlog| - 1 && AtMost(d, n) ensures Deliverable(d, backlog[n]) {
        if n > 0 {
          assert AtMost(e, n - 1);
        }
      }
    }
  }

  /** A node without subscribers stops at the first of two undeliverable packets and leaves the second. */
  lemma EarlyStopExample(ok: (nat, nat) -> bool)
    ensures var d := Node<Bytes, Bytes>.Node("n", 0, 0, [], [], map[], []);
            WhileWork(d, [Undecodable, Undecodable], ok, 0) == Work(d, [Undecodable], true)
  {
  }

  // ---- loops with arrivals and publishing callbacks ------------------------

  /** What the outside world does in one pass: the packet that has arrived, and what happens at each stop. */
  datatype Round<P, S> = Round(inc: Incoming<S>, envs: seq<Env<P>>)

  ghost predicate FitRounds<P, S>(d: Node<P, S>, rounds: seq<Round<P, S>>) {
    forall k | 0 <= k < |rounds| :: |rounds[k].envs| == |Schedule(d.levels)|
  }

  /** A loop so far: its node and events, the number of passes, and the result that ended it, if any. */
  datatype Looped<P, S> = Looped(node: Node<P, S>, events: seq<Event<P, S>>, passes: nat, ended: Option<SpinResult>)

  /** `spin` goes on when there was no work; `spin_while_work` does not. */
  predicate GoesOn(result: SpinResult, idle: bool) {
    result == Success || (idle && result == NoWork)
  }

  /** The loop of `spin` or `spin_while_work` as far as `rounds` says what happens. */
  ghost function Loop<P, S>(d: Node<P, S>, rounds: seq<Round<P, S>>, idle: bool): Looped<P, S>
    requires Wired(d) && FitRounds(d, rounds)
    decreases |rounds|
  {
    if rounds == [] then Looped(d, [], 0, None)
    else
      var s := SpinOnce(d, rounds[0].inc, rounds[0].envs);
      ActFrame(d, ActSpin(rounds[0].inc, rounds[0].envs));
      if !GoesOn(s.result, idle) then Looped(s.node, s.events, 1, Some(s.result))
      else
        var rest := Loop(s.node, rounds[1..], idle);
        Looped(rest.node, s.events + rest.events, 1 + rest.passes, rest.ended)
  }

  function Spins<P, S>(rounds: seq<Round<P, S>>): (actions: seq<Action<P, S>>)
    ensures |actions| == |rounds|
    ensures forall k | 0 <= k < |rounds| :: actions[k] == ActSpin(rounds[k].inc, rounds[k].envs)
  {
    seq(|rounds|, k requires 0 <= k < |rounds| => ActSpin(rounds[k].inc, rounds[k].envs))
  }

  lemma RunFirst<P, S>(d: Node<P, S>, a: Action<P, S>, rest: seq<Action<P, S>>)
    requires Wired(d) && (a.ActSpin? ==> |a.envs| == |Schedule(d.levels)|)
    requires Wired(Act(d, a).node) && Fits(Act(d, a).node, rest) && Act(d, a).node.levels == d.levels
    ensures var s := Act(d, a);
            var h := Run(s.node, rest);
            && Fits(d, [a] + rest)
            && Run(d, [a] + rest) == History(h.node, s.events + h.events, (if a.ActSpin? then 1 else 0) + h.passes,
                                             s.result == Error || h.errors)
  {
    assert ([a] + rest)[1..] == rest;
  }

  /** The results of the passes if all rounds were run, one after the other. */
  ghost function Results<P, S>(d: Node<P, S>, rounds: seq<Round<P, S>>): (r: seq<SpinResult>)
    requires Wired(d) && FitRounds(d, rounds)
    ensures |r| == |rounds|
    decreases |rounds|
  {
    if rounds == [] then []
    else
      var s := SpinOnce(d, rounds[0].inc, rounds[0].envs);
      ActFrame(d, ActSpin(rounds[0].inc, rounds[0].envs));
      [s.result] + Results(s.node, rounds[1..])
  }

  /**
   * After `passes` of the results `r`: all but the last were `Success` or, for
   * `spin`, at least not `Error`; the loop has ended exactly if the last was not,
   * and otherwise it has used up all results.
   */
  ghost predicate EndsAt(r: seq<SpinResult>, idle: bool, passes: nat, ended: Option<SpinResult>) {
    && passes <= |r| && (r != [] ==> passes > 0)
    && (forall k | 0 <= k < passes - 1 :: r[k] == Success || (idle && r[k] == NoWork))
    && (ended.Some? <==> passes > 0 && (r[passes - 1] == Error || (r[passes - 1] == NoWork && !idle)))
    && (if ended.Some? then ended.value == r[passes - 1] else passes == |r|)
  }

  lemma EndsAtNext(first: SpinResult, r: seq<SpinResult>, idle: bool, passes: nat, ended: Option<SpinResult>)
    requires EndsAt(r, idle, passes, ended) && (first == Success || (idle && first == NoWork))
    ensures EndsAt([first] + r, idle, 1 + passes, ended)
  {
    var all := [first] + r;
    assert forall k | 1 <= k < |all| :: all[k] == r[k - 1];
  }

  /** Where the loops of `spin` and `spin_while_work` end, in terms of what their passes return. */
  lemma {:induction false} LoopEnds<P, S>(d: Node<P, S>, rounds: seq<Round<P, S>>, idle: bool)
    requires Wired(d) && FitRounds(d, rounds)
    ensures EndsAt(Results(d, rounds), idle, Loop(d, rounds, idle).passes, Loop(d, rounds, idle).ended)
    decreases |rounds|
  {
    if rounds != [] {
      ActFrame(d, ActSpin(rounds[0].inc, rounds[0].envs));
      var s := SpinOnce(d, rounds[0].inc, rounds[0].envs);
      if GoesOn(s.result, idle) {
        LoopEnds(s.node, rounds[1..], idle);
        var rest := Loop(s.node, rounds[1..], idle);
        EndsAtNext(s.result, Results(s.node, rounds[1..]), idle, rest.passes, rest.ended);
      }
    }
  }

  /** `actions` lead from `d` to where the loop is. */
  ghost predicate RunsAs<P, S>(d: Node<P, S>, actions: seq<Action<P, S>>, l: Looped<P, S>) {
    && Wired(d) && Fits(d, actions)
    && Run(d, actions) == History(l.node, l.events, l.passes, l.ended == Some(Error))
  }

  lemma RunsAsNext<P, S>(d: Node<P, S>, a: Action<P, S>, rest: seq<Action<P, S>>, l: Looped<P, S>)
    requires Wired(d) && a.ActSpin? && |a.envs| == |Schedule(d.levels)|
    requires Act(d, a).node.levels == d.levels && Act(d, a).result != Error && RunsAs(Act(d, a).node, rest, l)
    ensures RunsAs(d, [a] + rest, Looped(l.node, Act(d, a).events + l.events, 1 + l.passes, l.ended))
  {
    RunFirst(d, a, rest);
  }

  lemma LoopStops<P, S>(d: Node<P, S>, rounds: seq<Round<P, S>>, idle: bool)
    requires Wired(d) && FitRounds(d, rounds) && rounds != []
    requires !GoesOn(SpinOnce(d, rounds[0].inc, rounds[0].envs).result, idle)
    ensures RunsAs(d, Spins(rounds)[..1], Loop(d, rounds, idle))
  {
    var a := ActSpin(rounds[0].inc, rounds[0].envs);
    ActFrame(d, a);
    assert Spins(rounds)[..1] == [a] + [];
    RunFirst(d, a, []);
    assert Act(d, a).events + [] == Act(d, a).events;
  }

  lemma LoopNext<P, S>(d: Node<P, S>, rounds: seq<Round<P, S>>, idle: bool, s: Spin<P, S>, l: Looped<P, S>)
    requires Wired(d) && FitRounds(d, rounds) && rounds != []
    requires s == SpinOnce(d, rounds[0].inc, rounds[0].envs) && GoesOn(s.result, idle)
    requires l.passes < |rounds| && RunsAs(s.node, Spins(rounds[1..])[..l.passes], l)
    ensures RunsAs(d, Spins(rounds)[..1 + l.passes], Looped(l.node, s.events + l.events, 1 + l.passes, l.ended))
  {
    var a := ActSpin(rounds[0].inc, rounds[0].envs);
    ActFrame(d, a);
    assert Spins(rounds)[..1 + l.passes] == [a] + Spins(rounds[1..])[..l.passes];
    RunsAsNext(d, a, Spins(rounds[1..])[..l.passes], l);
  }

  /**
   * A loop is a run of passes, whatever arrives and whatever callbacks publish,
   * so what is proved of every run holds of it.
   */
  lemma {:induction false} LoopIsRun<P, S>(d: Node<P, S>, rounds: seq<Round<P, S>>, idle: bool)
    requires Wired(d) && FitRounds(d, rounds)
    ensures var l := Loop(d, rounds, idle);
            l.passes <= |rounds| && RunsAs(d, Spins(rounds)[..l.passes], l)
    decreases |rounds|
  {
    if rounds != [] {
      var s := SpinOnce(d, rounds[0].inc, rounds[0].envs);
      if GoesOn(s.result, idle) {
        ActFrame(d, ActSpin(rounds[0].inc, rounds[0].envs));
        LoopIsRun(s.node, rounds[1..], idle);
        LoopNext(d, rounds, idle, s, Loop(s.node, rounds[1..], idle));
      } else {
        LoopStops(d, rounds, idle);
      }
    }
  }
}
