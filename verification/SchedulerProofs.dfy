/** Properties of `spin_once` over every pass and every run of passes. */
module SchedulerProofs {
  import opened Basics
  import opened NodeModel

  // ---- frames --------------------------------------------------------------

  /** Nothing but queues and the counter differs. */
  ghost predicate SameShape<P, S>(d: Node<P, S>, e: Node<P, S>) {
    && d.name == e.name && d.nodeId == e.nodeId && d.topics == e.topics && d.levels == e.levels
    && |d.pubs| == |e.pubs| && |d.subs| == |e.subs|
    && (forall i | 0 <= i < |d.pubs| :: e.pubs[i] == d.pubs[i].(queue := e.pubs[i].queue))
    && (forall j | 0 <= j < |d.subs| :: e.subs[j] == d.subs[j].(queue := e.subs[j].queue))
  }

  /** Closed form of the delivery loop; it changes nothing but subscriber queues. */
  lemma {:induction false} QueueAllAt<P, S>(d: Node<P, S>, list: seq<nat>, copy: nat -> S)
    ensures var e := QueueAll(d, list, copy);
            && e == d.(subs := e.subs) && |e.subs| == |d.subs|
            && (forall j | 0 <= j < |d.subs| :: e.subs[j] == d.subs[j].(queue := e.subs[j].queue))
            && (Distinct(list) ==> forall j | 0 <= j < |d.subs| ::
                  e.subs[j].queue
                  == if j in list then Enqueue(d.subs[j].queue, copy(d.subs[j].size)) else d.subs[j].queue)
    decreases |list|
  {
    if list != [] {
      var j := list[0];
      var d' := if j < |d.subs|
                then d.(subs := d.subs[j := d.subs[j].(queue := Enqueue(d.subs[j].queue, copy(d.subs[j].size)))])
                else d;
      QueueAllAt(d', list[1..], copy);
      assert forall k | 0 <= k < |d.subs| :: k in list <==> k == j || k in list[1..];
      assert Distinct(list) ==> Distinct(list[1..]) && j !in list[1..];
    }
  }

  lemma {:induction false} PublishAllFrame<P, S>(d: Node<P, S>, calls: seq<PublishCall<P>>)
    ensures var r := PublishAll(d, calls);
            SameShape(d, r.node) && r.node.subs == d.subs && r.node.counter == d.counter
    decreases |calls|
  {
    if calls != [] {
      PublishAllFrame(PublishOne(d, calls[0]).node, calls[1..]);
    }
  }

  /** A visit touches only its own subscriber's queue, and a callback visit always succeeds. */
  lemma VisitFrame<P, S>(d: Node<P, S>, v: Visit, e: Env<P>)
    ensures var r := VisitOne(d, v, e);
            && SameShape(d, r.node)
            && (v.SubVisit? ==> r.ok)
            && forall j | 0 <= j < |d.subs| ::
                 r.node.subs[j].queue
                 == if v == SubVisit(j) && d.subs[j].queue != [] then d.subs[j].queue[1..] else d.subs[j].queue
  {
    if v.SubVisit? {
      PublishAllFrame(d, e.publishes);
    }
  }

  lemma {:induction false} PassFrame<P, S>(d: Node<P, S>, stops: seq<Stop>, envs: seq<Env<P>>)
    requires |envs| == |stops|
    ensures SameShape(d, Pass(d, stops, envs).node)
    decreases |stops|
  {
    if stops != [] {
      VisitFrame(d, stops[0].visit, envs[0]);
      var r := VisitOne(d, stops[0].visit, envs[0]);
      if r.ok {
        PassFrame(r.node, stops[1..], envs[1..]);
      }
    }
  }

  // ---- order of visits -----------------------------------------------------

  ghost predicate Descending(levels: seq<Level>) {
    forall a, b | 0 <= a < b < |levels| :: levels[a].priority > levels[b].priority
  }

  /** `x` may precede `y`: higher priority first, and subscribers before publishers at equal priority. */
  ghost predicate InOrder(x: Stop, y: Stop) {
    x.priority > y.priority || (x.priority == y.priority && (x.visit.SubVisit? || y.visit.PubVisit?))
  }

  lemma {:induction false} ScheduleElement(levels: seq<Level>, x: nat) returns (a: nat)
    requires x < |Schedule(levels)|
    ensures a < |levels| && Schedule(levels)[x] in LevelStops(levels[a])
    decreases |levels|
  {
    var first := LevelStops(levels[0]);
    if x < |first| {
      a := 0;
    } else {
      var a' := ScheduleElement(levels[1..], x - |first|);
      a := a' + 1;
    }
  }

  /** Every pass goes through priorities in non-increasing order, subscribers first. */
  lemma {:induction false} ScheduleInOrder(levels: seq<Level>, x: nat, y: nat)
    requires Descending(levels) && x < y < |Schedule(levels)|
    ensures InOrder(Schedule(levels)[x], Schedule(levels)[y])
    decreases |levels|
  {
    var first := LevelStops(levels[0]);
    if x >= |first| {
      ScheduleInOrder(levels[1..], x - |first|, y - |first|);
    } else if y >= |first| {
      var a := ScheduleElement(levels[1..], y - |first|);
    }
  }

  lemma InsertFirst(levels: seq<Level>, priority: int, more: TopicInfo)
    ensures var l := Insert(levels, priority, more);
            && l != []
            && l[0].priority == if levels == [] || levels[0].priority < priority then priority else levels[0].priority
  {
  }

  lemma DescendingFrom(l: Level, rest: seq<Level>)
    requires Descending(rest) && (rest != [] ==> l.priority > rest[0].priority)
    ensures Descending([l] + rest)
  {
  }

  lemma {:induction false} InsertKeepsOrder(levels: seq<Level>, priority: int, more: TopicInfo)
    requires Descending(levels)
    ensures Descending(Insert(levels, priority, more))
    decreases |levels|
  {
    if levels == [] || levels[0].priority < priority {
      DescendingFrom(Level(priority, more), levels);
    } else if levels[0].priority == priority {
      DescendingFrom(Insert(levels, priority, more)[0], levels[1..]);
    } else {
      InsertKeepsOrder(levels[1..], priority, more);
      InsertFirst(levels[1..], priority, more);
      DescendingFrom(levels[0], Insert(levels[1..], priority, more));
    }
  }

  /** Filing brings no priority into the index but the given one. */
  lemma {:induction false} InsertPriorities(levels: seq<Level>, priority: int, more: TopicInfo)
    ensures forall l | l in Insert(levels, priority, more) ::
              l.priority == priority || exists k | 0 <= k < |levels| :: levels[k].priority == l.priority
    decreases |levels|
  {
    if levels != [] && levels[0].priority > priority {
      InsertPriorities(levels[1..], priority, more);
    }
  }

  lemma StopsAppend(priority: int, a: seq<nat>, b: seq<nat>)
    ensures SubStops(priority, a + b) == SubStops(priority, a) + SubStops(priority, b)
    ensures PubStops(priority, a + b) == PubStops(priority, a) + PubStops(priority, b)
  {
  }

  /** Filing adds exactly the given stops to a pass. */
  lemma {:induction false} InsertAddsStops(levels: seq<Level>, priority: int, more: TopicInfo)
    ensures multiset(Schedule(Insert(levels, priority, more)))
            == multiset(Schedule(levels)) + multiset(LevelStops(Level(priority, more)))
    decreases |levels|
  {
    if levels == [] || levels[0].priority < priority {
      assert ([Level(priority, more)] + levels)[1..] == levels;
    } else if levels[0].priority == priority {
      var l := levels[0].info;
      StopsAppend(priority, l.pubs, more.pubs);
      StopsAppend(priority, l.subs, more.subs);
      var merged := Level(priority, TopicInfo(l.pubs + more.pubs, l.subs + more.subs));
      assert ([merged] + levels[1..])[1..] == levels[1..];
    } else {
      InsertAddsStops(levels[1..], priority, more);
      assert ([levels[0]] + Insert(levels[1..], priority, more))[1..] == Insert(levels[1..], priority, more);
    }
  }

  // ---- where filing puts a stop --------------------------------------------

  function Index(v: Visit): nat {
    match v
    case SubVisit(j) => j
    case PubVisit(i) => i
  }

  /** `x` comes before `y`: by priority, then subscribers before publishers, then in the order of creation. */
  ghost predicate Precedes(x: Stop, y: Stop) {
    || x.priority > y.priority
    || (&& x.priority == y.priority
        && if x.visit.SubVisit? <==> y.visit.SubVisit? then Index(x.visit) < Index(y.visit) else x.visit.SubVisit?)
  }

  ghost predicate Sorted(stops: seq<Stop>) {
    forall x, y | 0 <= x < y < |stops| :: Precedes(stops[x], stops[y])
  }

  /** What is filed for one publisher or subscriber. */
  function Only(v: Visit): TopicInfo {
    match v
    case SubVisit(j) => TopicInfo([], [j])
    case PubVisit(i) => TopicInfo([i], [])
  }

  lemma ScheduleBelow(levels: seq<Level>, priority: int)
    requires Descending(levels) && (levels != [] ==> levels[0].priority < priority)
    ensures forall x | 0 <= x < |Schedule(levels)| :: Schedule(levels)[x].priority < priority
  {
    forall x | 0 <= x < |Schedule(levels)| ensures Schedule(levels)[x].priority < priority {
      var a := ScheduleElement(levels, x);
    }
  }

  /** A level with one more entry. */
  lemma LevelGrows(l: Level, v: Visit)
    ensures var grown := Level(l.priority, TopicInfo(l.info.pubs + Only(v).pubs, l.info.subs + Only(v).subs));
            var added := [Stop(l.priority, v)];
            LevelStops(grown)
            == if v.PubVisit? then LevelStops(l) + added
               else SubStops(l.priority, l.info.subs) + added + PubStops(l.priority, l.info.pubs)
  {
    StopsAppend(l.priority, l.info.pubs, Only(v).pubs);
    StopsAppend(l.priority, l.info.subs, Only(v).subs);
  }

  /** `t` is `s` with one stop put in at position `m`, where it belongs. */
  ghost predicate PutIn(s: seq<Stop>, t: seq<Stop>, m: nat, stop: Stop) {
    && m <= |s| && t == s[..m] + [stop] + s[m..]
    && (forall x | 0 <= x < m :: InOrder(s[x], stop))
    && (forall x | m <= x < |s| :: !InOrder(s[x], stop))
  }

  lemma PutInFront(s: seq<Stop>, stop: Stop)
    requires forall x | 0 <= x < |s| :: s[x].priority < stop.priority
    ensures PutIn(s, [stop] + s, 0, stop)
  {
  }

  lemma PutInLater(first: seq<Stop>, s: seq<Stop>, t: seq<Stop>, m: nat, stop: Stop)
    requires PutIn(s, t, m, stop) && forall x | 0 <= x < |first| :: InOrder(first[x], stop)
    ensures PutIn(first + s, first + t, |first| + m, stop)
  {
    assert (first + s)[..|first| + m] == first + s[..m] && (first + s)[|first| + m..] == s[m..];
    assert first + (s[..m] + [stop] + s[m..]) == (first + s[..m]) + [stop] + s[m..];
  }

  lemma PutInBetween(subs: seq<Stop>, later: seq<Stop>, stop: Stop)
    requires forall x | 0 <= x < |subs| :: InOrder(subs[x], stop)
    requires forall x | 0 <= x < |later| :: !InOrder(later[x], stop)
    ensures PutIn(subs + later, subs + ([stop] + later), |subs|, stop)
  {
    assert PutIn(later, [stop] + later, 0, stop);
    PutInLater(subs, later, [stop] + later, 0, stop);
  }

  lemma PutInLevel(l: Level, rest: seq<Stop>, v: Visit)
    requires forall x | 0 <= x < |rest| :: rest[x].priority < l.priority
    ensures var grown := Level(l.priority, TopicInfo(l.info.pubs + Only(v).pubs, l.info.subs + Only(v).subs));
            PutIn(LevelStops(l) + rest, LevelStops(grown) + rest,
                  if v.PubVisit? then |LevelStops(l)| else |l.info.subs|, Stop(l.priority, v))
  {
    LevelGrows(l, v);
    var stop := Stop(l.priority, v);
    var subs, pubs := SubStops(l.priority, l.info.subs), PubStops(l.priority, l.info.pubs);
    if v.PubVisit? {
      PutInBetween(LevelStops(l), rest, stop);
      Reassociate(LevelStops(l), [stop], rest);
    } else {
      PutInBetween(subs, pubs + rest, stop);
      Reassociate(subs, pubs, rest);
      Reassociate(subs, [stop], pubs + rest);
      Reassociate(subs + [stop], pubs, rest);
    }
  }

  lemma Reassociate<T>(a: seq<T>, b: seq<T>, c: seq<T>)
    ensures a + (b + c) == (a + b) + c
  {
  }

  /**
   * Filing puts the new stop at one position of the schedule and leaves all
   * others where they are: after everything of its own priority and kind, and
   * before everything that has to come later.
   */
  lemma {:induction false} InsertPosition(levels: seq<Level>, priority: int, v: Visit) returns (m: nat)
    requires Descending(levels)
    ensures PutIn(Schedule(levels), Schedule(Insert(levels, priority, Only(v))), m, Stop(priority, v))
    decreases |levels|
  {
    var t := Insert(levels, priority, Only(v));
    if levels == [] || levels[0].priority < priority {
      m := 0;
      ScheduleBelow(levels, priority);
      PutInFront(Schedule(levels), Stop(priority, v));
      assert t[1..] == levels && LevelStops(t[0]) == [Stop(priority, v)];
    } else if levels[0].priority == priority {
      m := if v.PubVisit? then |LevelStops(levels[0])| else |levels[0].info.subs|;
      ScheduleBelow(levels[1..], priority);
      PutInLevel(levels[0], Schedule(levels[1..]), v);
      assert t[1..] == levels[1..];
    } else {
      var first := LevelStops(levels[0]);
      m := InsertPosition(levels[1..], priority, v);
      assert t[0] == levels[0] && t[1..] == Insert(levels[1..], priority, Only(v));
      PutInLater(first, Schedule(levels[1..]), Schedule(t[1..]), m, Stop(priority, v));
      m := |first| + m;
    }
  }

  /** The new stop's place is behind everything of its own kind that was created before it. */
  ghost predicate Newest(s: seq<Stop>, v: Visit) {
    forall x | 0 <= x < |s| && (s[x].visit.SubVisit? <==> v.SubVisit?) :: Index(s[x].visit) < Index(v)
  }

  lemma PutInSorted(s: seq<Stop>, t: seq<Stop>, m: nat, stop: Stop)
    requires PutIn(s, t, m, stop) && Sorted(s) && Newest(s, stop.visit)
    ensures Sorted(t)
  {
    forall x, y | 0 <= x < y < |t| ensures Precedes(t[x], t[y]) {
      if y == m {
        assert t[x] == s[x] && InOrder(s[x], stop);
      } else if x == m {
        assert t[y] == s[y - 1] && !InOrder(s[y - 1], stop);
      } else {
        assert t[x] == s[if x < m then x else x - 1] && t[y] == s[if y < m then y else y - 1];
      }
    }
  }

  /** Filing in order of creation keeps the schedule sorted. */
  lemma InsertSorted(levels: seq<Level>, priority: int, v: Visit)
    requires Descending(levels) && Sorted(Schedule(levels)) && Newest(Schedule(levels), v)
    ensures Sorted(Schedule(Insert(levels, priority, Only(v))))
  {
    var m := InsertPosition(levels, priority, v);
    PutInSorted(Schedule(levels), Schedule(Insert(levels, priority, Only(v))), m, Stop(priority, v));
  }

  // ---- subscriber queues never overflow ------------------------------------

  /** The indexes are consistent: a topic lists a subscriber at most once, and only subscribers that passes visit. */
  ghost predicate Wired<P, S>(d: Node<P, S>) {
    forall t | t in d.topics ::
      && Distinct(d.topics[t].subs)
      && forall j | j in d.topics[t].subs :: j < |d.subs| && Visited(d, SubVisit(j))
  }

  ghost predicate Quiet<P, S>(d: Node<P, S>) {
    forall j | 0 <= j < |d.subs| :: d.subs[j].queue == []
  }

  lemma {:induction false} PassSubQueue<P, S>(d: Node<P, S>, stops: seq<Stop>, envs: seq<Env<P>>, j: nat)
    requires |envs| == |stops| && j < |d.subs|
    ensures var r := Pass(d, stops, envs);
            && |r.node.subs| == |d.subs|
            && |r.node.subs[j].queue| <= |d.subs[j].queue|
            && (r.ok && |d.subs[j].queue| <= 1 && (exists k | 0 <= k < |stops| :: stops[k].visit == SubVisit(j))
                ==> r.node.subs[j].queue == [])
    decreases |stops|
  {
    if stops != [] {
      VisitFrame(d, stops[0].visit, envs[0]);
      var r := VisitOne(d, stops[0].visit, envs[0]);
      if r.ok {
        PassSubQueue(r.node, stops[1..], envs[1..], j);
        if k :| 0 <= k < |stops| && stops[k].visit == SubVisit(j) {
          assert k > 0 ==> stops[1..][k - 1].visit == SubVisit(j);
        }
      }
    }
  }

  /** What a packet puts into empty subscriber queues: one copy at each subscriber of its topic. */
  lemma DeliveredOnce<P, S>(d: Node<P, S>, inc: Incoming<S>, j: nat)
    requires Wired(d) && Quiet(d) && j < |d.subs|
    ensures var d1 := ProcessIncoming(d, inc);
            && SameShape(d, d1)
            && d1.subs[j].queue == Delivered(d, inc, j)
  {
    if Deliverable(d, inc) {
      QueueAllAt(d, d.topics[inc.topicId].subs, inc.copy);
    }
  }

  function Delivered<P, S>(d: Node<P, S>, inc: Incoming<S>, j: nat): seq<S>
    requires j < |d.subs|
  {
    if Deliverable(d, inc) && j in d.topics[inc.topicId].subs then [inc.copy(d.subs[j].size)] else []
  }

  /** Delivery drops nothing, and no queue holds more than one message at any time during the pass. */
  lemma SpinOccupancy<P, S>(d: Node<P, S>, inc: Incoming<S>, envs: seq<Env<P>>, k: nat, j: nat)
    requires Wired(d) && Quiet(d) && |envs| == |Schedule(d.levels)| && k <= |envs| && j < |d.subs|
    ensures var d1 := ProcessIncoming(d, inc);
            && |d1.subs| == |d.subs| && d1.subs[j].queue == Delivered(d, inc, j)
            && var r := Pass(d1, Schedule(d.levels)[..k], envs[..k]);
               |r.node.subs| == |d.subs| && |r.node.subs[j].queue| <= 1
  {
    DeliveredOnce(d, inc, j);
    PassSubQueue(ProcessIncoming(d, inc), Schedule(d.levels)[..k], envs[..k], j);
  }

  /** An error-free pass from empty subscriber queues leaves them empty again. */
  lemma SpinStaysQuiet<P, S>(d: Node<P, S>, inc: Incoming<S>, envs: seq<Env<P>>)
    requires Wired(d) && Quiet(d) && |envs| == |Schedule(d.levels)|
    requires SpinOnce(d, inc, envs).result != Error
    ensures Quiet(SpinOnce(d, inc, envs).node)
  {
    var e := SpinOnce(d, inc, envs).node;
    forall j | 0 <= j < |e.subs| ensures e.subs[j].queue == [] {
      SpinEmpties(d, inc, envs, j);
    }
  }

  lemma SpinEmpties<P, S>(d: Node<P, S>, inc: Incoming<S>, envs: seq<Env<P>>, j: nat)
    requires Wired(d) && Quiet(d) && |envs| == |Schedule(d.levels)| && j < |SpinOnce(d, inc, envs).node.subs|
    requires SpinOnce(d, inc, envs).result != Error
    ensures j < |d.subs| && SpinOnce(d, inc, envs).node.subs[j].queue == []
  {
    ActFrame(d, ActSpin(inc, envs));
    DeliveredOnce(d, inc, j);
    PassSubQueue(ProcessIncoming(d, inc), Schedule(d.levels), envs, j);
    if Delivered(d, inc, j) != [] {
      assert Visited(d, SubVisit(j));
    }
  }

  // ---- where a pass ends ---------------------------------------------------

  /**
   * A pass goes from stop to stop and ends at the first that fails: a failed
   * beginning is the whole pass, and a good one is followed by the rest.
   */
  lemma {:induction false} PassSplits<P, S>(d: Node<P, S>, stops: seq<Stop>, envs: seq<Env<P>>, k: nat)
    requires |envs| == |stops| && k <= |stops|
    ensures var r := Pass(d, stops[..k], envs[..k]);
            && (!r.ok ==> Pass(d, stops, envs) == r)
            && (r.ok ==>
                  var rest := Pass(r.node, stops[k..], envs[k..]);
                  Pass(d, stops, envs) == Result(rest.node, r.events + rest.events, rest.ok))
    decreases |stops|
  {
    if k == 0 {
      assert stops[0..] == stops && envs[0..] == envs;
      assert [] + Pass(d, stops, envs).events == Pass(d, stops, envs).events;
    } else {
      var v := VisitOne(d, stops[0].visit, envs[0]);
      assert stops[..k][1..] == stops[1..][..k - 1] && envs[..k][1..] == envs[1..][..k - 1];
      if v.ok {
        PassSplits(v.node, stops[1..], envs[1..], k - 1);
        var r := Pass(v.node, stops[1..][..k - 1], envs[1..][..k - 1]);
        if r.ok {
          assert stops[1..][k - 1..] == stops[k..] && envs[1..][k - 1..] == envs[k..];
          Reassociate(v.events, r.events, Pass(r.node, stops[k..], envs[k..]).events);
        }
      }
    }
  }

  /** A failed send is the last event of its pass. */
  ghost predicate FailsLast<P, S>(events: seq<Event<P, S>>, ok: bool) {
    && (forall k | 0 <= k < |events| - 1 :: !events[k].SendFailed?)
    && (ok <==> events == [] || !events[|events| - 1].SendFailed?)
  }

  lemma {:induction false} PublishNeverFails<P, S>(d: Node<P, S>, calls: seq<PublishCall<P>>)
    ensures forall k | 0 <= k < |PublishAll(d, calls).events| :: PublishAll(d, calls).events[k].Published?
    decreases |calls|
  {
    if calls != [] {
      PublishNeverFails(PublishOne(d, calls[0]).node, calls[1..]);
    }
  }

  lemma VisitFailsLast<P, S>(d: Node<P, S>, v: Visit, e: Env<P>)
    ensures FailsLast(VisitOne(d, v, e).events, VisitOne(d, v, e).ok)
  {
    PublishNeverFails(d, e.publishes);
    if v.SubVisit? && CanRun(d, v.j) {
      CallbackVisit(d, v.j, e);
    }
  }

  lemma FailsLastAppend<P, S>(a: seq<Event<P, S>>, b: seq<Event<P, S>>, ok: bool)
    requires FailsLast(a, true) && FailsLast(b, ok)
    ensures FailsLast(a + b, ok)
  {
    forall k | 0 <= k < |a + b| - 1 ensures !(a + b)[k].SendFailed? {
      if k < |a| {
        assert (a + b)[k] == a[k];
      }
    }
  }

  /** A pass fails exactly if a send fails, and that is the last thing it does. */
  lemma {:induction false} PassFailsLast<P, S>(d: Node<P, S>, stops: seq<Stop>, envs: seq<Env<P>>)
    requires |envs| == |stops|
    ensures FailsLast(Pass(d, stops, envs).events, Pass(d, stops, envs).ok)
    decreases |stops|
  {
    if stops != [] {
      var v := VisitOne(d, stops[0].visit, envs[0]);
      VisitFailsLast(d, stops[0].visit, envs[0]);
      if v.ok {
        PassFailsLast(v.node, stops[1..], envs[1..]);
        var rest := Pass(v.node, stops[1..], envs[1..]);
        FailsLastAppend(v.events, rest.events, rest.ok);
      }
    }
  }

  /**
   * The result of `spin_once`, read off what happened: an error exactly if a send
   * failed, otherwise success exactly if a packet was queued at a subscriber or a
   * message was sent. Callbacks do not count.
   */
  lemma SpinResults<P, S>(d: Node<P, S>, inc: Incoming<S>, envs: seq<Env<P>>)
    requires |envs| == |Schedule(d.levels)|
    ensures var s := SpinOnce(d, inc, envs);
            var failed := exists k | 0 <= k < |s.events| :: s.events[k].SendFailed?;
            var sent := exists k | 0 <= k < |s.events| :: s.events[k].Sent?;
            var queued := inc.Message? && inc.topicId in d.topics && |d.topics[inc.topicId].subs| > 0;
            && (s.result == Error <==> failed)
            && (s.result == Success <==> !failed && (queued || sent))
            && (s.result == NoWork <==> !failed && !queued && !sent)
  {
    PassFailsLast(ProcessIncoming(d, inc), Schedule(d.levels), envs);
    var s := SpinOnce(d, inc, envs);
    if s.result == Error {
      assert s.events[|s.events| - 1].SendFailed?;
    }
  }

  // ---- capacity ------------------------------------------------------------

  function PublishCalls<P>(i: nat, messages: seq<P>): (calls: seq<PublishCall<P>>)
    ensures |calls| == |messages|
  {
    seq(|messages|, k requires 0 <= k < |messages| => PublishCall(i, messages[k]))
  }

  lemma OneAccepted<P, S>(d: Node<P, S>, i: nat, m: P)
    requires i < |d.pubs|
    ensures var r := PublishOne(d, PublishCall(i, m));
            && |r.node.pubs| == |d.pubs|
            && |r.node.pubs[i].queue| == |d.pubs[i].queue| + (if |d.pubs[i].queue| < 10 then 1 else 0)
            && AcceptedBy(r.events, i) == if |d.pubs[i].queue| < 10 then [m] else []
  {
    assert PublishOne(d, PublishCall(i, m)).events[1..] == [];
  }

  /** The first `room` messages, or all if there are fewer. */
  function Fitting<P>(messages: seq<P>, room: nat): seq<P> {
    if |messages| <= room then messages else messages[..room]
  }

  lemma FittingFirst<P>(messages: seq<P>, room: nat)
    requires messages != []
    ensures Fitting(messages, room) == if room == 0 then [] else [messages[0]] + Fitting(messages[1..], room - 1)
  {
  }

  /** An idle publisher accepts ten messages, and not the eleventh. */
  lemma {:induction false} TenAccepted<P, S>(d: Node<P, S>, i: nat, messages: seq<P>)
    requires i < |d.pubs| && |d.pubs[i].queue| <= 10
    ensures AcceptedBy(PublishAll(d, PublishCalls(i, messages)).events, i)
            == Fitting(messages, 10 - |d.pubs[i].queue|)
    decreases |messages|
  {
    if messages != [] {
      var m, rest := messages[0], messages[1..];
      var r := PublishOne(d, PublishCall(i, m));
      assert PublishCalls(i, messages)[1..] == PublishCalls(i, rest);
      OneAccepted(d, i, m);
      TenAccepted(r.node, i, rest);
      AcceptedAppend(r.events, PublishAll(r.node, PublishCalls(i, rest)).events, i);
      FittingFirst(messages, 10 - |d.pubs[i].queue|);
    }
  }

  // ---- what callbacks are handed -------------------------------------------

  function HandedIn<P, S>(e: Event<P, S>, j: nat): seq<S> {
    if e.Handed? && e.sub == j then [e.delivered] else []
  }

  /** Messages given to the callback of subscriber `j` in a list of events. */
  function HandedBy<P, S>(events: seq<Event<P, S>>, j: nat): seq<S> {
    if events == [] then [] else HandedIn(events[0], j) + HandedBy(events[1..], j)
  }

  lemma HandedFirst<P, S>(e: Event<P, S>, rest: seq<Event<P, S>>, j: nat)
    ensures HandedBy([e] + rest, j) == HandedIn(e, j) + HandedBy(rest, j)
  {
    assert ([e] + rest)[1..] == rest;
  }

  lemma {:induction false} HandedAppend<P, S>(a: seq<Event<P, S>>, b: seq<Event<P, S>>, j: nat)
    ensures HandedBy(a + b, j) == HandedBy(a, j) + HandedBy(b, j)
    decreases |a|
  {
    if a == [] {
      assert a + b == b;
    } else {
      var e, rest := a[0], a[1..];
      assert a == [e] + rest && a + b == [e] + (rest + b);
      HandedFirst(e, rest, j);
      HandedFirst(e, rest + b, j);
      HandedAppend(rest, b, j);
    }
  }

  lemma {:induction false} PublishHandsNothing<P, S>(d: Node<P, S>, calls: seq<PublishCall<P>>, j: nat)
    ensures HandedBy(PublishAll(d, calls).events, j) == []
    decreases |calls|
  {
    if calls != [] {
      var r := PublishOne(d, calls[0]);
      assert r.events[1..] == [];
      PublishHandsNothing(r.node, calls[1..], j);
      HandedAppend(r.events, PublishAll(r.node, calls[1..]).events, j);
    }
  }

  /** A visit takes from a subscriber's queue exactly what it hands to the callback. */
  lemma VisitHands<P, S>(d: Node<P, S>, v: Visit, e: Env<P>, j: nat)
    requires j < |d.subs|
    ensures var r := VisitOne(d, v, e);
            |r.node.subs| == |d.subs| && HandedBy(r.events, j) + r.node.subs[j].queue == d.subs[j].queue
  {
    VisitFrame(d, v, e);
    var r := VisitOne(d, v, e);
    if v.SubVisit? && CanRun(d, v.j) {
      PublishHandsNothing(d, e.publishes, j);
      assert r.events == [Handed(v.j, d.subs[v.j].queue[0])] + PublishAll(d, e.publishes).events;
      assert r.events[1..] == PublishAll(d, e.publishes).events;
    } else if v.PubVisit? && CanSend(d, v.i) {
      assert r.events[1..] == [] && !r.events[0].Handed?;
    }
  }

  /** Subscriber conservation: what a pass hands over followed by what stays queued is what was queued, in order. */
  lemma {:induction false} PassHands<P, S>(d: Node<P, S>, stops: seq<Stop>, envs: seq<Env<P>>, j: nat)
    requires |envs| == |stops| && j < |d.subs|
    ensures var r := Pass(d, stops, envs);
            |r.node.subs| == |d.subs| && HandedBy(r.events, j) + r.node.subs[j].queue == d.subs[j].queue
    decreases |stops|
  {
    if stops != [] {
      VisitHands(d, stops[0].visit, envs[0], j);
      var v := VisitOne(d, stops[0].visit, envs[0]);
      if v.ok {
        PassHands(v.node, stops[1..], envs[1..], j);
        HandedAppend(v.events, Pass(v.node, stops[1..], envs[1..]).events, j);
      }
    }
  }

  /** An error-free pass hands a delivered message to each subscriber of its topic, once, and nothing else to anyone. */
  lemma SpinHandsOver<P, S>(d: Node<P, S>, inc: Incoming<S>, envs: seq<Env<P>>, j: nat)
    requires Wired(d) && Quiet(d) && |envs| == |Schedule(d.levels)| && j < |d.subs|
    requires SpinOnce(d, inc, envs).result != Error
    ensures HandedBy(SpinOnce(d, inc, envs).events, j) == Delivered(d, inc, j)
  {
    DeliveredOnce(d, inc, j);
    PassHands(ProcessIncoming(d, inc), Schedule(d.levels), envs, j);
    SpinEmpties(d, inc, envs, j);
  }

  // ---- runs ----------------------------------------------------------------

  /** What the application does with a connected node: publish, or call `spin_once`. */
  datatype Action<P, S> = ActPublish(call: PublishCall<P>) | ActSpin(inc: Incoming<S>, envs: seq<Env<P>>)

  ghost predicate Fits<P, S>(d: Node<P, S>, actions: seq<Action<P, S>>) {
    forall k | 0 <= k < |actions| :: actions[k].ActSpin? ==> |actions[k].envs| == |Schedule(d.levels)|
  }

  function Act<P, S>(d: Node<P, S>, a: Action<P, S>): Spin<P, S>
    requires a.ActSpin? ==> |a.envs| == |Schedule(d.levels)|
  {
    match a
    case ActPublish(call) => var r := PublishOne(d, call); Spin(r.node, r.events, NoWork)
    case ActSpin(inc, envs) => SpinOnce(d, inc, envs)
  }

  /** One action changes queues and counter only, whatever the state of the indexes. */
  lemma ActFrame<P, S>(d: Node<P, S>, a: Action<P, S>)
    requires Wired(d) && (a.ActSpin? ==> |a.envs| == |Schedule(d.levels)|)
    ensures SameShape(d, Act(d, a).node) && Wired(Act(d, a).node)
  {
    if a.ActSpin? {
      if Deliverable(d, a.inc) {
        QueueAllAt(d, d.topics[a.inc.topicId].subs, a.inc.copy);
      }
      PassFrame(ProcessIncoming(d, a.inc), Schedule(d.levels), a.envs);
    }
    var e := Act(d, a).node;
    assert forall v :: Visited(d, v) <==> Visited(e, v);
  }

  /** The outcome of a run: final node, all events in order, number of passes, and whether any pass failed. */
  datatype History<P, S> = History(node: Node<P, S>, events: seq<Event<P, S>>, passes: nat, errors: bool)

  ghost function Run<P, S>(d: Node<P, S>, actions: seq<Action<P, S>>): (h: History<P, S>)
    requires Wired(d) && Fits(d, actions)
    ensures SameShape(d, h.node) && Wired(h.node)
    decreases |actions|
  {
    if actions == [] then History(d, [], 0, false)
    else
      ActFrame(d, actions[0]);
      var s := Act(d, actions[0]);
      assert Fits(s.node, actions[1..]);
      var h := Run(s.node, actions[1..]);
      History(h.node, s.events + h.events, (if actions[0].ActSpin? then 1 else 0) + h.passes,
              s.result == Error || h.errors)
  }

  /** Subscriber queues never overflow: they are empty after every error-free run. */
  lemma {:induction false} RunStaysQuiet<P, S>(d: Node<P, S>, actions: seq<Action<P, S>>)
    requires Wired(d) && Fits(d, actions) && Quiet(d)
    ensures !Run(d, actions).errors ==> Quiet(Run(d, actions).node)
    decreases |actions|
  {
    if actions != [] {
      var a := actions[0];
      ActFrame(d, a);
      var s := Act(d, a);
      assert Fits(s.node, actions[1..]);
      if s.result != Error {
        if a.ActSpin? {
          SpinStaysQuiet(d, a.inc, a.envs);
        }
        RunStaysQuiet(s.node, actions[1..]);
      }
    }
  }

  // ---- conservation --------------------------------------------------------

  function SentIn<P, S>(e: Event<P, S>, i: nat): seq<P> {
    if e.Sent? && e.pub == i then [e.message] else []
  }

  function AcceptedIn<P, S>(e: Event<P, S>, i: nat): seq<P> {
    if e.Published? && e.pub == i && e.accepted then [e.message] else []
  }

  /** Messages of publisher `i` sent in a list of events. */
  function SentBy<P, S>(events: seq<Event<P, S>>, i: nat): seq<P> {
    if events == [] then [] else SentIn(events[0], i) + SentBy(events[1..], i)
  }

  /** Messages of publisher `i` accepted by `publish` in a list of events. */
  function AcceptedBy<P, S>(events: seq<Event<P, S>>, i: nat): seq<P> {
    if events == [] then [] else AcceptedIn(events[0], i) + AcceptedBy(events[1..], i)
  }

  /** Number of counters consumed: one per send attempt, failed or not. */
  function Attempts<P, S>(events: seq<Event<P, S>>): nat {
    if events == [] then 0 else (if events[0].Sent? || events[0].SendFailed? then 1 else 0) + Attempts(events[1..])
  }

  lemma SentFirst<P, S>(e: Event<P, S>, rest: seq<Event<P, S>>, i: nat)
    ensures SentBy([e] + rest, i) == SentIn(e, i) + SentBy(rest, i)
  {
    assert ([e] + rest)[1..] == rest;
  }

  lemma {:induction false} SentAppend<P, S>(a: seq<Event<P, S>>, b: seq<Event<P, S>>, i: nat)
    ensures SentBy(a + b, i) == SentBy(a, i) + SentBy(b, i)
    decreases |a|
  {
    if a == [] {
      assert a + b == b;
    } else {
      var e, rest := a[0], a[1..];
      assert a == [e] + rest && a + b == [e] + (rest + b);
      SentFirst(e, rest, i);
      SentFirst(e, rest + b, i);
      SentAppend(rest, b, i);
    }
  }

  lemma AcceptedFirst<P, S>(e: Event<P, S>, rest: seq<Event<P, S>>, i: nat)
    ensures AcceptedBy([e] + rest, i) == AcceptedIn(e, i) + AcceptedBy(rest, i)
  {
    assert ([e] + rest)[1..] == rest;
  }

  lemma {:induction false} AcceptedAppend<P, S>(a: seq<Event<P, S>>, b: seq<Event<P, S>>, i: nat)
    ensures AcceptedBy(a + b, i) == AcceptedBy(a, i) + AcceptedBy(b, i)
    decreases |a|
  {
    if a == [] {
      assert a + b == b;
    } else {
      var e, rest := a[0], a[1..];
      assert a == [e] + rest && a + b == [e] + (rest + b);
      AcceptedFirst(e, rest, i);
      AcceptedFirst(e, rest + b, i);
      AcceptedAppend(rest, b, i);
    }
  }

  lemma {:induction false} AttemptsAppend<P, S>(a: seq<Event<P, S>>, b: seq<Event<P, S>>)
    ensures Attempts(a + b) == Attempts(a) + Attempts(b)
    decreases |a|
  {
    if a == [] {
      assert a + b == b;
    } else {
      AttemptsAppend(a[1..], b);
      assert (a + b)[1..] == a[1..] + b;
    }
  }

  ghost predicate Conserves<P, S>(d: Node<P, S>, events: seq<Event<P, S>>, e: Node<P, S>, i: nat) {
    && i < |d.pubs| && i < |e.pubs|
    && SentBy(events, i) + e.pubs[i].queue == d.pubs[i].queue + AcceptedBy(events, i)
    && e.counter == Wrap(d.counter + Attempts(events))
  }

  lemma ConservesCompose<P, S>(a: Node<P, S>, x: seq<Event<P, S>>, b: Node<P, S>, y: seq<Event<P, S>>, c: Node<P, S>,
                               i: nat)
    requires Conserves(a, x, b, i) && Conserves(b, y, c, i)
    ensures Conserves(a, x + y, c, i)
  {
    SentAppend(x, y, i);
    AcceptedAppend(x, y, i);
    AttemptsAppend(x, y);
    WrapAdd(a.counter + Attempts(x), Attempts(y));
    Rebracket(SentBy(x, i), b.pubs[i].queue, a.pubs[i].queue, AcceptedBy(x, i),
              SentBy(y, i), c.pubs[i].queue, AcceptedBy(y, i));
  }

  lemma Rebracket<T>(s1: seq<T>, q1: seq<T>, q0: seq<T>, a1: seq<T>, s2: seq<T>, q2: seq<T>, a2: seq<T>)
    requires s1 + q1 == q0 + a1 && s2 + q2 == q1 + a2
    ensures (s1 + s2) + q2 == q0 + (a1 + a2)
  {
    calc {
      (s1 + s2) + q2;
      s1 + (s2 + q2);
      s1 + (q1 + a2);
      (s1 + q1) + a2;
      (q0 + a1) + a2;
      q0 + (a1 + a2);
    }
  }

  lemma {:induction false} PublishAllConserves<P, S>(d: Node<P, S>, calls: seq<PublishCall<P>>, i: nat)
    requires i < |d.pubs|
    ensures Conserves(d, PublishAll(d, calls).events, PublishAll(d, calls).node, i)
    ensures SentBy(PublishAll(d, calls).events, i) == []
    decreases |calls|
  {
    if calls != [] {
      var r := PublishOne(d, calls[0]);
      assert r.events[1..] == [] && Attempts(r.events) == 0;
      assert Conserves(d, r.events, r.node, i);
      PublishAllConserves(r.node, calls[1..], i);
      var rest := PublishAll(r.node, calls[1..]);
      ConservesCompose(d, r.events, r.node, rest.events, rest.node, i);
      SentAppend(r.events, rest.events, i);
    }
  }

  /** A visit loses no payload; visiting a publisher with queued messages sends exactly one unless it fails. */
  lemma VisitConserves<P, S>(d: Node<P, S>, v: Visit, e: Env<P>, i: nat)
    requires i < |d.pubs|
    ensures var r := VisitOne(d, v, e);
            && Conserves(d, r.events, r.node, i)
            && (r.ok && v == PubVisit(i) && d.pubs[i].queue != [] ==> |SentBy(r.events, i)| == 1)
  {
    if v.SubVisit? && CanRun(d, v.j) {
      CallbackConserves(d, v.j, e, i);
    } else if v.PubVisit? && CanSend(d, v.i) {
      assert VisitOne(d, v, e).events[1..] == [];
    }
  }

  /** A callback visit in closed form. */
  lemma CallbackVisit<P, S>(d: Node<P, S>, j: nat, e: Env<P>)
    requires CanRun(d, j)
    ensures var r := PublishAll(d, e.publishes);
            CanRun(r.node, j)
            && VisitOne(d, SubVisit(j), e) 
               == Result(DropFrontSub(r.node, j), [Handed(j, d.subs[j].queue[0])] + r.events, true)
  {
    PublishAllFrame(d, e.publishes);
  }

  /** Handing a message over neither sends nor accepts anything. */
  lemma HandingConserves<P, S>(d: Node<P, S>, e: Event<P, S>, i: nat)
    requires i < |d.pubs| && e.Handed?
    ensures Conserves(d, [e], d, i)
  {
    var none: seq<Event<P, S>> := [];
    assert [e] == [e] + none && [e][1..] == none;
    SentFirst(e, none, i);
    AcceptedFirst(e, none, i);
    assert SentBy(none, i) == [] && AcceptedBy(none, i) == [] && Attempts(none) == 0;
    assert [] + d.pubs[i].queue == d.pubs[i].queue + [];
  }

  lemma CallbackConserves<P, S>(d: Node<P, S>, j: nat, e: Env<P>, i: nat)
    requires i < |d.pubs| && CanRun(d, j)
    ensures var r := VisitOne(d, SubVisit(j), e);
            Conserves(d, r.events, r.node, i)
  {
    var handed: seq<Event<P, S>> := [Handed(j, d.subs[j].queue[0])];
    HandingConserves(d, handed[0], i);
    PublishAllConserves(d, e.publishes, i);
    var r := PublishAll(d, e.publishes);
    ConservesCompose(d, handed, d, r.events, r.node, i);
    CallbackVisit(d, j, e);
  }

  lemma {:induction false} PassConserves<P, S>(d: Node<P, S>, stops: seq<Stop>, envs: seq<Env<P>>, i: nat)
    requires |envs| == |stops| && i < |d.pubs|
    ensures var r := Pass(d, stops, envs);
            && Conserves(d, r.events, r.node, i)
            && (r.ok && d.pubs[i].queue != [] && (exists k | 0 <= k < |stops| :: stops[k].visit == PubVisit(i))
                ==> SentBy(r.events, i) != [])
    decreases |stops|
  {
    if stops != [] {
      var v := VisitOne(d, stops[0].visit, envs[0]);
      VisitConserves(d, stops[0].visit, envs[0], i);
      if v.ok {
        PassConserves(v.node, stops[1..], envs[1..], i);
        var rest := Pass(v.node, stops[1..], envs[1..]);
        ConservesCompose(d, v.events, v.node, rest.events, rest.node, i);
        SentAppend(v.events, rest.events, i);
        if k :| 0 <= k < |stops| && stops[k].visit == PubVisit(i) {
          assert k > 0 ==> stops[1..][k - 1].visit == PubVisit(i);
          if k > 0 && v.node.pubs[i].queue == [] && d.pubs[i].queue != [] {
            assert SentBy(v.events, i) == d.pubs[i].queue + AcceptedBy(v.events, i);
          }
        }
      }
    }
  }

  lemma ActConserves<P, S>(d: Node<P, S>, a: Action<P, S>, i: nat)
    requires Wired(d) && (a.ActSpin? ==> |a.envs| == |Schedule(d.levels)|) && i < |d.pubs|
    ensures var s := Act(d, a);
            && Conserves(d, s.events, s.node, i)
            && (a.ActSpin? && s.result != Error && d.pubs[i].queue != [] && Visited(d, PubVisit(i))
                ==> SentBy(s.events, i) != [])
  {
    match a {
      case ActPublish(call) =>
        assert PublishOne(d, call).events[1..] == [];
      case ActSpin(inc, envs) =>
        if Deliverable(d, inc) {
          QueueAllAt(d, d.topics[inc.topicId].subs, inc.copy);
        }
        PassConserves(ProcessIncoming(d, inc), Schedule(d.levels), envs, i);
    }
  }

  /**
   * Publisher conservation: in every run, with failing sends too, what was sent
   * followed by what is still queued is what was queued and accepted, in order;
   * and every attempt, failed or not, consumed one counter.
   */
  lemma {:induction false} RunConserves<P, S>(d: Node<P, S>, actions: seq<Action<P, S>>, i: nat)
    requires Wired(d) && Fits(d, actions) && i < |d.pubs|
    ensures Conserves(d, Run(d, actions).events, Run(d, actions).node, i)
    decreases |actions|
  {
    if actions != [] {
      var a := actions[0];
      ActFrame(d, a);
      var s := Act(d, a);
      assert Fits(s.node, actions[1..]);
      ActConserves(d, a, i);
      RunConserves(s.node, actions[1..], i);
      var h := Run(s.node, actions[1..]);
      ConservesCompose(d, s.events, s.node, h.events, h.node, i);
    }
  }

  // ---- bounded send latency ------------------------------------------------

  lemma {:induction false} RunSendsOnePerPass<P, S>(d: Node<P, S>, actions: seq<Action<P, S>>, i: nat)
    requires Wired(d) && Fits(d, actions) && i < |d.pubs| && Visited(d, PubVisit(i))
    requires !Run(d, actions).errors
    ensures var h := Run(d, actions);
            |SentBy(h.events, i)| >= if h.passes <= |d.pubs[i].queue| then h.passes else |d.pubs[i].queue|
    decreases |actions|
  {
    if actions != [] {
      var a := actions[0];
      ActFrame(d, a);
      var s := Act(d, a);
      assert Fits(s.node, actions[1..]);
      ActConserves(d, a, i);
      assert Visited(s.node, PubVisit(i));
      RunSendsOnePerPass(s.node, actions[1..], i);
      var h := Run(s.node, actions[1..]);
      SentAppend(s.events, h.events, i);
      assert |SentBy(s.events, i)| + |s.node.pubs[i].queue| == |d.pubs[i].queue| + |AcceptedBy(s.events, i)|;
    }
  }

  /**
   * Bounded latency: a queued message with `k` messages ahead of it is sent, as
   * number `k` from now, once `k + 1` further error-free passes are done,
   * whatever else is published or delivered meanwhile.
   */
  lemma SentWithinBound<P, S>(d: Node<P, S>, actions: seq<Action<P, S>>, i: nat, k: nat)
    requires Wired(d) && Fits(d, actions) && i < |d.pubs| && Visited(d, PubVisit(i))
    requires k < |d.pubs[i].queue|
    requires !Run(d, actions).errors && Run(d, actions).passes > k
    ensures var sent := SentBy(Run(d, actions).events, i);
            k < |sent| && sent[k] == d.pubs[i].queue[k]
  {
    RunSendsOnePerPass(d, actions, i);
    RunConserves(d, actions, i);
    var h := Run(d, actions);
    var sent := SentBy(h.events, i);
    assert (sent + h.node.pubs[i].queue)[k] == sent[k];
  }

  /** Queues never exceed their capacity, so ten error-free passes send every message accepted so far. */
  ghost predicate WithinCapacity<P, S>(d: Node<P, S>) {
    forall i | 0 <= i < |d.pubs| :: |d.pubs[i].queue| <= CAPACITY
  }

  lemma {:induction false} PublishAllCapacity<P, S>(d: Node<P, S>, calls: seq<PublishCall<P>>)
    requires WithinCapacity(d)
    ensures WithinCapacity(PublishAll(d, calls).node)
    decreases |calls|
  {
    if calls != [] {
      PublishAllCapacity(PublishOne(d, calls[0]).node, calls[1..]);
    }
  }

  lemma {:induction false} PassCapacity<P, S>(d: Node<P, S>, stops: seq<Stop>, envs: seq<Env<P>>)
    requires |envs| == |stops| && WithinCapacity(d)
    ensures WithinCapacity(Pass(d, stops, envs).node)
    decreases |stops|
  {
    if stops != [] {
      PublishAllCapacity(d, envs[0].publishes);
      var r := VisitOne(d, stops[0].visit, envs[0]);
      assert WithinCapacity(r.node);
      if r.ok {
        PassCapacity(r.node, stops[1..], envs[1..]);
      }
    }
  }

  lemma {:induction false} RunCapacity<P, S>(d: Node<P, S>, actions: seq<Action<P, S>>)
    requires Wired(d) && Fits(d, actions) && WithinCapacity(d)
    ensures WithinCapacity(Run(d, actions).node)
    decreases |actions|
  {
    if actions != [] {
      var a := actions[0];
      ActFrame(d, a);
      var s := Act(d, a);
      assert Fits(s.node, actions[1..]);
      if a.ActSpin? {
        if Deliverable(d, a.inc) {
          QueueAllAt(d, d.topics[a.inc.topicId].subs, a.inc.copy);
        }
        PassCapacity(ProcessIncoming(d, a.inc), Schedule(d.levels), a.envs);
      }
      RunCapacity(s.node, actions[1..]);
    }
  }

  /** In every run from capacity-bounded queues, ten more error-free passes send all messages accepted before them. */
  lemma AllSentWithinTen<P, S>(d: Node<P, S>, before: seq<Action<P, S>>, after: seq<Action<P, S>>, i: nat)
    requires Wired(d) && Fits(d, before) && WithinCapacity(d) && i < |d.pubs| && Visited(d, PubVisit(i))
    requires Fits(Run(d, before).node, after)
    requires !Run(Run(d, before).node, after).errors && Run(Run(d, before).node, after).passes >= CAPACITY
    ensures Run(d, before).node.pubs[i].queue <= SentBy(Run(Run(d, before).node, after).events, i)
  {
    RunCapacity(d, before);
    var e := Run(d, before).node;
    assert Visited(e, PubVisit(i));
    RunSendsOnePerPass(e, after, i);
    RunConserves(e, after, i);
    PrefixOf(SentBy(Run(e, after).events, i), Run(e, after).node.pubs[i].queue, e.pubs[i].queue,
             AcceptedBy(Run(e, after).events, i));
  }

  lemma PrefixOf<T>(s: seq<T>, r: seq<T>, q: seq<T>, a: seq<T>)
    requires s + r == q + a && |s| >= |q|
    ensures q <= s
  {
    assert q == (q + a)[..|q|] == (s + r)[..|q|] == s[..|q|];
  }
}
