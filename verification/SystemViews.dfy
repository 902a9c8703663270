/** Third layer: what nodes know about the broker's tables is and stays true, and their indexes are consistent. */
module SystemViews {
  import opened Basics
  import opened BrokerModel
  import opened BrokerProofs
  import opened NodeModel
  import opened SchedulerProofs
  import opened System
  import opened SystemCounters
  import opened SystemRpc

  // ---- how far registration has come ---------------------------------------

  predicate PubTypeKnown(pc: Pc, i: nat) {
    match pc
    case AtNode => false
    case AtPub(k, stage) => i < k || (i == k && !stage.AskType?)
    case _ => true
  }

  predicate PubTopicKnown(pc: Pc, i: nat) {
    match pc
    case AtNode => false
    case AtPub(k, stage) => i < k || (i == k && stage.AskAdd?)
    case _ => true
  }

  predicate PubFiled(pc: Pc, i: nat) {
    match pc
    case AtNode => false
    case AtPub(k, _) => i < k
    case _ => true
  }

  predicate SubTypeKnown(pc: Pc, j: nat) {
    match pc
    case AtSub(k, stage) => j < k || (j == k && !stage.AskType?)
    case AtEnd => true
    case _ => false
  }

  predicate SubTopicKnown(pc: Pc, j: nat) {
    match pc
    case AtSub(k, stage) => j < k || (j == k && stage.AskAdd?)
    case AtEnd => true
    case _ => false
  }

  predicate SubFiled(pc: Pc, j: nat) {
    match pc
    case AtSub(k, _) => j < k
    case AtEnd => true
    case _ => false
  }

  predicate PcInRange<P, S>(d: Node<P, S>, pc: Pc) {
    (pc.AtPub? ==> pc.i < |d.pubs|) && (pc.AtSub? ==> pc.j < |d.subs|)
  }

  // ---- agreement with the broker -------------------------------------------

  ghost predicate TypeView(r: Registry, typeId: nat, name: string, size: nat) {
    typeId < |r.types| && r.types[typeId] == TypeInfo(name, size)
  }

  ghost predicate TopicView(r: Registry, topicId: nat, name: string, typeId: nat) {
    topicId < |r.topics| && r.topics[topicId].name == name && r.topics[topicId].typeId == typeId
  }

  ghost predicate PubView(r: Registry, pc: Pc, i: nat, p: Pub<Bytes>) {
    && (PubTypeKnown(pc, i) ==> TypeView(r, p.typeId, p.typeName, p.size))
    && (PubTopicKnown(pc, i) ==>
          && TopicView(r, p.topicId, p.topicName, p.typeId)
          && (p.priority != DONT_CARE ==> r.topics[p.topicId].priority == p.priority))
  }

  ghost predicate SubView(r: Registry, pc: Pc, j: nat, u: Sub<Msg>) {
    && (SubTypeKnown(pc, j) ==> TypeView(r, u.typeId, u.typeName, u.size))
    && (SubTopicKnown(pc, j) ==>
          TopicView(r, u.topicId, u.topicName, u.typeId) && r.topics[u.topicId].priority == u.priority)
  }

  /** Everything node `n` has learned resolves at the broker to what the node calls it. */
  ghost predicate ViewAt(r: Registry, n: nat, h: Host) {
    && PcInRange(h.core, h.pc)
    && (h.pc != AtNode ==> h.core.nodeId < |r.nodes| && r.nodes[h.core.nodeId] == NodeInfo(h.core.name, n))
    && (forall i | 0 <= i < |h.core.pubs| :: PubView(r, h.pc, i, h.core.pubs[i]))
    && (forall j | 0 <= j < |h.core.subs| :: SubView(r, h.pc, j, h.core.subs[j]))
  }

  /** The broker lists node `n` at every topic it has finished registering for. */
  ghost predicate ListedAt(r: Registry, h: Host) {
    && (forall i | 0 <= i < |h.core.pubs| && PubFiled(h.pc, i) :: PubListed(r, h, i))
    && (forall j | 0 <= j < |h.core.subs| && SubFiled(h.pc, j) :: SubListed(r, h, j))
  }

  ghost predicate PubListed(r: Registry, h: Host, i: nat)
    requires i < |h.core.pubs|
  {
    h.core.pubs[i].topicId < |r.topics| && h.core.nodeId in r.topics[h.core.pubs[i].topicId].publishers
  }

  ghost predicate SubListed(r: Registry, h: Host, j: nat)
    requires j < |h.core.subs|
  {
    h.core.subs[j].topicId < |r.topics| && h.core.nodeId in r.topics[h.core.subs[j].topicId].subscribers
  }

  lemma ListedStable(r: Registry, r': Registry, h: Host)
    requires Extends(r, r') && ListedAt(r, h)
    ensures ListedAt(r', h)
  {
  }

  lemma LearnKeepsListed(r: Registry, n: nat, h: Host, a: Response)
    requires ListedAt(r, h) && PcInRange(h.core, h.pc) && Answers(r, n, RequestAt(h.core, h.pc), a)
    requires Learn(h.core, h.pc, a).Some?
    ensures ListedAt(r, DoAnswer(h, Reply(0, a)))
  {
    var g := DoAnswer(h, Reply(0, a));
    forall i | 0 <= i < |g.core.pubs| && PubFiled(g.pc, i) ensures PubListed(r, g, i) {
      assert PubFiled(h.pc, i) ==> PubListed(r, h, i);
    }
    forall j | 0 <= j < |g.core.subs| && SubFiled(g.pc, j) ensures SubListed(r, g, j) {
      assert SubFiled(h.pc, j) ==> SubListed(r, h, j);
    }
  }

  lemma SameListed(r: Registry, h: Host, g: Host)
    requires ListedAt(r, h) && SameShape(h.core, g.core) && g.pc == h.pc
    ensures ListedAt(r, g)
  {
  }

  /** No request can make the broker read past the end of its type table. */
  ghost predicate RequestsInRange(r: Registry, h: Host) {
    forall a | 0 <= a < |h.sent| && h.sent[a].packet.ControlPacket? :: InRange(r, h.sent[a].packet.request)
  }

  ghost predicate ViewsOk(s: Sys)
    requires Shaped(s)
  {
    && RegistryOk(s.broker.registry)
    && forall n | 0 <= n < |s.hosts| ::
         && ViewAt(s.broker.registry, n, s.hosts[n])
         && ListedAt(s.broker.registry, s.hosts[n])
         && RequestsInRange(s.broker.registry, s.hosts[n])
  }

  lemma ViewStable(r: Registry, r': Registry, n: nat, h: Host)
    requires Extends(r, r') && ViewAt(r, n, h) && RequestsInRange(r, h)
    ensures ViewAt(r', n, h) && RequestsInRange(r', h)
  {
  }

  /** A response that answers the request of the current call makes the next view true. */
  lemma LearnKeepsView(r: Registry, n: nat, h: Host, a: Response)
    requires ViewAt(r, n, h) && Answers(r, n, RequestAt(h.core, h.pc), a) && Learn(h.core, h.pc, a).Some?
    ensures ViewAt(r, n, DoAnswer(h, Reply(0, a)))
  {
  }

  lemma CallInRange(r: Registry, n: nat, h: Host)
    requires ViewAt(r, n, h)
    ensures InRange(r, RequestAt(h.core, h.pc))
  {
  }

  lemma BrokerTurnKeepsViews(s: Sys, n: nat, i: nat)
    requires Shaped(s) && Enabled(s, BrokerTurn(n, i)) && ViewsOk(s)
    ensures Shaped(DoBrokerTurn(s, n, i)) && ViewsOk(DoBrokerTurn(s, n, i))
  {
    var p := s.hosts[n].sent[i].packet;
    var r, r' := s.broker.registry, Receive(s.broker, n, p).broker.registry;
    ReceiveExtends(s.broker, n, p);
    if p.ControlPacket? {
      ProcessKeepsRegistry(r, n, p.rpcId, p.request);
    }
    forall m | 0 <= m < |s.hosts|
      ensures ViewAt(r', m, s.hosts[m]) && ListedAt(r', s.hosts[m]) && RequestsInRange(r', s.hosts[m])
    {
      ViewStable(r, r', m, s.hosts[m]);
      ListedStable(r, r', s.hosts[m]);
    }
  }

  lemma HostStepKeepsView(s: Sys, step: Step)
    requires Shaped(s) && Enabled(s, step) && !step.BrokerTurn? && CountersOk(s) && RpcOk(s)
    requires ViewAt(s.broker.registry, step.n, s.hosts[step.n]) && ListedAt(s.broker.registry, s.hosts[step.n])
    requires RequestsInRange(s.broker.registry, s.hosts[step.n])
    ensures var g := HostAfter(s, step);
            && ViewAt(s.broker.registry, step.n, g) && ListedAt(s.broker.registry, g)
            && RequestsInRange(s.broker.registry, g)
  {
    var n := step.n;
    var r := s.broker.registry;
    var h, g := s.hosts[n], HostAfter(s, step);
    if step.Answer? {
      var f := s.inbox[n][step.k];
      if f.down.Reply? && Learn(h.core, h.pc, f.down.response).Some? {
        LearnKeepsView(r, n, h, f.down.response);
        LearnKeepsListed(r, n, h, f.down.response);
      } else {
        SameListed(r, h, g);
      }
    } else {
      StepShape(s, step);
      SameListed(r, h, g);
      CallInRange(r, n, h);
      SentKinds(s, step);
      SameView(r, n, h, g);
    }
  }

  lemma SentKinds(s: Sys, step: Step)
    requires Shaped(s) && Enabled(s, step) && !step.BrokerTurn? && !step.Answer?
    ensures var h, g := s.hosts[step.n], HostAfter(s, step);
            && h.sent <= g.sent && (|g.sent| == |h.sent| || |g.sent| == |h.sent| + 1)
            && (|g.sent| > |h.sent| && g.sent[|h.sent|].packet.ControlPacket? ==>
                  g.sent[|h.sent|].packet.request == RequestAt(h.core, h.pc))
  {
  }

  /** Every step keeps the nodes' views true. */
  lemma StepKeepsViews(s: Sys, step: Step)
    requires Shaped(s) && Enabled(s, step) && CountersOk(s) && RpcOk(s) && ViewsOk(s)
    ensures Shaped(Apply(s, step)) && ViewsOk(Apply(s, step))
  {
    ApplyShaped(s, step);
    if step.BrokerTurn? {
      BrokerTurnKeepsViews(s, step.n, step.i);
    } else {
      HostStepKeepsViews(s, step);
    }
  }

  lemma HostStepKeepsViews(s: Sys, step: Step)
    requires Shaped(s) && Enabled(s, step) && !step.BrokerTurn? && CountersOk(s) && RpcOk(s) && ViewsOk(s)
    requires Shaped(Apply(s, step))
    ensures ViewsOk(Apply(s, step))
  {
    var t := Apply(s, step);
    HostStepKeepsView(s, step);
    forall m | 0 <= m < |t.hosts|
      ensures ViewAt(t.broker.registry, m, t.hosts[m]) && ListedAt(t.broker.registry, t.hosts[m])
      ensures RequestsInRange(t.broker.registry, t.hosts[m])
    {
      assert t.hosts[m] == if m == step.n then HostAfter(s, step) else s.hosts[m];
    }
  }

  /** Only a response changes more than queues, counters and histories of a node. */
  lemma StepShape(s: Sys, step: Step)
    requires Shaped(s) && Enabled(s, step) && !step.BrokerTurn? && !step.Answer?
    ensures var h, g := s.hosts[step.n], HostAfter(s, step);
            SameShape(h.core, g.core) && g.pc == h.pc && g.start == h.start
  {
    if step.TakeIn? {
      TakeInFrame(s.hosts[step.n], s.inbox[step.n][step.k], step.stale);
    }
  }

  /** Steps that change only queues, counters and histories keep the view. */
  lemma SameView(r: Registry, n: nat, h: Host, g: Host)
    requires ViewAt(r, n, h) && RequestsInRange(r, h)
    requires SameShape(h.core, g.core) && g.pc == h.pc
    requires h.sent <= g.sent && |g.sent| <= |h.sent| + 1
    requires |g.sent| > |h.sent| && g.sent[|h.sent|].packet.ControlPacket? ==>
               InRange(r, g.sent[|h.sent|].packet.request)
    ensures ViewAt(r, n, g) && RequestsInRange(r, g)
  {
  }

  // ---- the node's own indexes ----------------------------------------------

  ghost predicate StopOk(h: Host, x: Stop) {
    match x.visit
    case PubVisit(i) => i < |h.core.pubs| && PubFiled(h.pc, i) && x.priority == h.core.pubs[i].priority
    case SubVisit(j) => j < |h.core.subs| && SubFiled(h.pc, j) && x.priority == h.core.subs[j].priority
  }

  /** `stops` holds every registered publisher and subscriber once, under its own priority. */
  ghost predicate StopsAt(h: Host, stops: multiset<Stop>) {
    && (forall x | x in stops :: StopOk(h, x) && stops[x] == 1)
    && (forall i | 0 <= i < |h.core.pubs| && PubFiled(h.pc, i) :: Stop(h.core.pubs[i].priority, PubVisit(i)) in stops)
    && (forall j | 0 <= j < |h.core.subs| && SubFiled(h.pc, j) :: Stop(h.core.subs[j].priority, SubVisit(j)) in stops)
  }

  ghost function StopsOf(h: Host): multiset<Stop> {
    multiset(Schedule(h.core.levels))
  }

  ghost predicate ScheduleAt(h: Host) {
    Descending(h.core.levels) && StopsAt(h, StopsOf(h)) && Sorted(Schedule(h.core.levels))
  }

  ghost predicate Increasing(xs: seq<nat>) {
    forall a, b | 0 <= a < b < |xs| :: xs[a] < xs[b]
  }

  /**
   * The topic index lists every registered publisher and subscriber once, in
   * order of creation, under the topic ID it learned.
   */
  ghost predicate TopicsAt(h: Host) {
    && (forall t | t in h.core.topics :: EntryOk(h, t, h.core.topics[t]))
    && (forall i | 0 <= i < |h.core.pubs| && PubFiled(h.pc, i) :: PubInTopic(h, i))
    && (forall j | 0 <= j < |h.core.subs| && SubFiled(h.pc, j) :: InTopic(h, j))
  }

  ghost predicate EntryOk(h: Host, t: nat, e: TopicInfo) {
    && Increasing(e.pubs) && Increasing(e.subs)
    && (forall i | i in e.pubs :: i < |h.core.pubs| && PubFiled(h.pc, i) && h.core.pubs[i].topicId == t)
    && (forall j | j in e.subs :: j < |h.core.subs| && SubFiled(h.pc, j) && h.core.subs[j].topicId == t)
  }

  ghost predicate PubInTopic(h: Host, i: nat)
    requires i < |h.core.pubs|
  {
    h.core.pubs[i].topicId in h.core.topics && i in h.core.topics[h.core.pubs[i].topicId].pubs
  }

  ghost predicate InTopic(h: Host, j: nat)
    requires j < |h.core.subs|
  {
    h.core.subs[j].topicId in h.core.topics && j in h.core.topics[h.core.subs[j].topicId].subs
  }

  ghost predicate IndexesOk(s: Sys)
    requires Shaped(s)
  {
    forall n | 0 <= n < |s.hosts| :: IndexesAt(s.hosts[n])
  }

  /** Nothing the indexes depend on differs, except possibly IDs and priorities of entries not yet filed. */
  ghost predicate SameFiled(h: Host, g: Host) {
    && |g.core.pubs| == |h.core.pubs| && |g.core.subs| == |h.core.subs|
    && (forall i | 0 <= i < |h.core.pubs| :: g.core.pubs[i].priority == h.core.pubs[i].priority)
    && (forall i | 0 <= i < |h.core.pubs| && PubFiled(h.pc, i) :: g.core.pubs[i].topicId == h.core.pubs[i].topicId)
    && (forall j | 0 <= j < |h.core.subs| && SubFiled(h.pc, j) ::
          g.core.subs[j].priority == h.core.subs[j].priority && g.core.subs[j].topicId == h.core.subs[j].topicId)
  }

  lemma AddPubStop(h: Host, g: Host, stops: multiset<Stop>, i: nat)
    requires StopsAt(h, stops) && SameFiled(h, g) && PcInRange(h.core, h.pc)
    requires h.pc == AtPub(i, AskAdd) && g.pc == NextPc(h.core, h.pc)
    ensures StopsAt(g, stops + multiset{Stop(h.core.pubs[i].priority, PubVisit(i))})
  {
    var x := Stop(h.core.pubs[i].priority, PubVisit(i));
    assert x !in stops;
    forall y | y in stops ensures StopOk(g, y) {
      assert StopOk(h, y);
    }
    forall k | 0 <= k < |g.core.pubs| && PubFiled(g.pc, k)
      ensures Stop(g.core.pubs[k].priority, PubVisit(k)) in stops + multiset{x}
    {
      assert PubFiled(h.pc, k) || k == i;
    }
  }

  lemma AddSubStop(h: Host, g: Host, stops: multiset<Stop>, j: nat)
    requires StopsAt(h, stops) && SameFiled(h, g) && PcInRange(h.core, h.pc)
    requires h.pc == AtSub(j, AskAdd) && g.pc == NextPc(h.core, h.pc)
    requires g.core.subs[j].priority == h.core.subs[j].priority
    ensures StopsAt(g, stops + multiset{Stop(h.core.subs[j].priority, SubVisit(j))})
  {
    var x := Stop(h.core.subs[j].priority, SubVisit(j));
    assert x !in stops;
    forall y | y in stops ensures StopOk(g, y) {
      assert StopOk(h, y);
    }
    forall k | 0 <= k < |g.core.pubs| && PubFiled(g.pc, k)
      ensures Stop(g.core.pubs[k].priority, PubVisit(k)) in stops + multiset{x}
    {
      assert PubFiled(h.pc, k);
    }
    forall k | 0 <= k < |g.core.subs| && SubFiled(g.pc, k)
      ensures Stop(g.core.subs[k].priority, SubVisit(k)) in stops + multiset{x}
    {
      assert SubFiled(h.pc, k) || k == j;
    }
  }

  lemma FiledStops(levels: seq<Level>, priority: int, k: nat)
    ensures multiset(Schedule(Insert(levels, priority, TopicInfo([k], []))))
            == multiset(Schedule(levels)) + multiset{Stop(priority, PubVisit(k))}
    ensures multiset(Schedule(Insert(levels, priority, TopicInfo([], [k]))))
            == multiset(Schedule(levels)) + multiset{Stop(priority, SubVisit(k))}
  {
    InsertAddsStops(levels, priority, TopicInfo([k], []));
    InsertAddsStops(levels, priority, TopicInfo([], [k]));
    assert LevelStops(Level(priority, TopicInfo([k], []))) == [Stop(priority, PubVisit(k))];
    assert LevelStops(Level(priority, TopicInfo([], [k]))) == [Stop(priority, SubVisit(k))];
  }

  /** Whatever is filed was created before what is filed next. */
  lemma FiledBefore(h: Host, v: Visit)
    requires StopsAt(h, StopsOf(h)) && PcInRange(h.core, h.pc)
    requires h.pc == match v case PubVisit(i) => AtPub(i, AskAdd) case SubVisit(j) => AtSub(j, AskAdd)
    ensures Newest(Schedule(h.core.levels), v)
  {
    var s := Schedule(h.core.levels);
    forall x | 0 <= x < |s| && (s[x].visit.SubVisit? <==> v.SubVisit?) ensures Index(s[x].visit) < Index(v) {
      assert s[x] in StopsOf(h);
      assert StopOk(h, s[x]);
    }
  }

  lemma FilePubKeepsSchedule(h: Host, g: Host, i: nat)
    requires ScheduleAt(h) && PcInRange(h.core, h.pc) && h.pc == AtPub(i, AskAdd)
    requires g.core == FilePub(h.core, i) && g.pc == NextPc(h.core, h.pc)
    ensures ScheduleAt(g)
  {
    FiledStops(h.core.levels, h.core.pubs[i].priority, i);
    InsertKeepsOrder(h.core.levels, h.core.pubs[i].priority, TopicInfo([i], []));
    AddPubStop(h, g, StopsOf(h), i);
    FiledBefore(h, PubVisit(i));
    InsertSorted(h.core.levels, h.core.pubs[i].priority, PubVisit(i));
  }

  lemma FileSubKeepsSchedule(h: Host, g: Host, j: nat)
    requires ScheduleAt(h) && PcInRange(h.core, h.pc) && h.pc == AtSub(j, AskAdd)
    requires g.core == FileSub(h.core, j) && g.pc == NextPc(h.core, h.pc)
    ensures ScheduleAt(g)
  {
    FiledStops(h.core.levels, h.core.subs[j].priority, j);
    InsertKeepsOrder(h.core.levels, h.core.subs[j].priority, TopicInfo([], [j]));
    AddSubStop(h, g, StopsOf(h), j);
    FiledBefore(h, SubVisit(j));
    InsertSorted(h.core.levels, h.core.subs[j].priority, SubVisit(j));
  }

  lemma IncreasingAppend(xs: seq<nat>, x: nat)
    requires Increasing(xs) && forall y | y in xs :: y < x
    ensures Increasing(xs + [x])
  {
    forall a, b | 0 <= a < b < |xs + [x]| ensures (xs + [x])[a] < (xs + [x])[b] {
      assert xs[a] in xs;
    }
  }

  /** Adding to one entry keeps what is listed. */
  lemma FiledTopicsStay(h: Host, g: Host)
    requires TopicsAt(h) && g.core.pubs == h.core.pubs && g.core.subs == h.core.subs
    requires h.core.topics.Keys <= g.core.topics.Keys
    requires forall k | k in h.core.topics ::
               h.core.topics[k].pubs <= g.core.topics[k].pubs && h.core.topics[k].subs <= g.core.topics[k].subs
    ensures forall i | 0 <= i < |h.core.pubs| && PubFiled(h.pc, i) :: PubInTopic(g, i)
    ensures forall j | 0 <= j < |h.core.subs| && SubFiled(h.pc, j) :: InTopic(g, j)
  {
    forall i | 0 <= i < |h.core.pubs| && PubFiled(h.pc, i) ensures PubInTopic(g, i) {
      assert PubInTopic(h, i);
    }
    forall j | 0 <= j < |h.core.subs| && SubFiled(h.pc, j) ensures InTopic(g, j) {
      assert InTopic(h, j);
    }
  }

  /** An entry stays right as registration proceeds, and when what is being filed is appended. */
  lemma PubEntryGrows(h: Host, g: Host, i: nat, t: nat, e: TopicInfo)
    requires EntryOk(h, t, e) && PcInRange(h.core, h.pc) && h.pc == AtPub(i, AskAdd)
    requires g.core.pubs == h.core.pubs && g.core.subs == h.core.subs && g.pc == NextPc(h.core, h.pc)
    ensures EntryOk(g, t, e)
    ensures t == h.core.pubs[i].topicId ==> EntryOk(g, t, TopicInfo(e.pubs + [i], e.subs))
  {
    IncreasingAppend(e.pubs, i);
  }

  lemma SubEntryGrows(h: Host, g: Host, j: nat, t: nat, e: TopicInfo)
    requires EntryOk(h, t, e) && PcInRange(h.core, h.pc) && h.pc == AtSub(j, AskAdd)
    requires g.core.pubs == h.core.pubs && g.core.subs == h.core.subs && g.pc == NextPc(h.core, h.pc)
    ensures EntryOk(g, t, e)
    ensures t == h.core.subs[j].topicId ==> EntryOk(g, t, TopicInfo(e.pubs, e.subs + [j]))
  {
    IncreasingAppend(e.subs, j);
  }

  lemma FilePubKeepsTopics(h: Host, g: Host, i: nat)
    requires TopicsAt(h) && PcInRange(h.core, h.pc) && h.pc == AtPub(i, AskAdd)
    requires g.core == FilePub(h.core, i) && g.pc == NextPc(h.core, h.pc)
    ensures TopicsAt(g)
  {
    var id := h.core.pubs[i].topicId;
    var e := TopicEntry(h.core.topics, id);
    assert g.core.topics == h.core.topics[id := TopicInfo(e.pubs + [i], e.subs)];
    PubEntryGrows(h, g, i, id, e);
    forall t | t in g.core.topics && t != id ensures EntryOk(g, t, g.core.topics[t]) {
      PubEntryGrows(h, g, i, t, h.core.topics[t]);
    }
    FiledTopicsStay(h, g);
    assert g.core.topics[id].pubs[|e.pubs|] == i;
  }

  lemma FileSubKeepsTopics(h: Host, g: Host, j: nat)
    requires TopicsAt(h) && PcInRange(h.core, h.pc) && h.pc == AtSub(j, AskAdd)
    requires g.core == FileSub(h.core, j) && g.pc == NextPc(h.core, h.pc)
    ensures TopicsAt(g)
  {
    var id := h.core.subs[j].topicId;
    var e := TopicEntry(h.core.topics, id);
    assert g.core.topics == h.core.topics[id := TopicInfo(e.pubs, e.subs + [j])];
    SubEntryGrows(h, g, j, id, e);
    forall t | t in g.core.topics && t != id ensures EntryOk(g, t, g.core.topics[t]) {
      SubEntryGrows(h, g, j, t, h.core.topics[t]);
    }
    FiledTopicsStay(h, g);
    assert g.core.topics[id].subs[|e.subs|] == j;
  }

  ghost predicate SameProgress(h: Host, g: Host) {
    && SameFiled(h, g)
    && (forall i: nat | i < |h.core.pubs| :: PubFiled(g.pc, i) <==> PubFiled(h.pc, i))
    && (forall j: nat | j < |h.core.subs| :: SubFiled(g.pc, j) <==> SubFiled(h.pc, j))
  }

  lemma SameStops(h: Host, g: Host, stops: multiset<Stop>)
    requires StopsAt(h, stops) && SameProgress(h, g)
    ensures StopsAt(g, stops)
  {
    forall x | x in stops ensures StopOk(g, x) {
      assert StopOk(h, x);
    }
    forall i | 0 <= i < |g.core.pubs| && PubFiled(g.pc, i) ensures Stop(g.core.pubs[i].priority, PubVisit(i)) in stops {
      assert PubFiled(h.pc, i);
    }
    forall j | 0 <= j < |g.core.subs| && SubFiled(g.pc, j) ensures Stop(g.core.subs[j].priority, SubVisit(j)) in stops {
      assert SubFiled(h.pc, j);
    }
  }

  lemma SameTopics(h: Host, g: Host)
    requires TopicsAt(h) && SameProgress(h, g) && g.core.topics == h.core.topics
    ensures TopicsAt(g)
  {
  }

  lemma SameIndexes(h: Host, g: Host)
    requires ScheduleAt(h) && TopicsAt(h) && SameProgress(h, g)
    requires g.core.levels == h.core.levels && g.core.topics == h.core.topics
    ensures ScheduleAt(g) && TopicsAt(g)
  {
    SameTopics(h, g);
    SameStops(h, g, StopsOf(h));
  }

  predicate Files(pc: Pc) {
    (pc.AtPub? && pc.pubStage.AskAdd?) || (pc.AtSub? && pc.subStage.AskAdd?)
  }

  /** Only the last call for a publisher or subscriber files it. */
  lemma LearnSameProgress(h: Host, down: Down)
    requires PcInRange(h.core, h.pc)
    requires down.Forward? || Learn(h.core, h.pc, down.response).None? || !Files(h.pc)
    ensures var g := DoAnswer(h, down);
            SameProgress(h, g) && g.core.levels == h.core.levels && g.core.topics == h.core.topics
  {
  }

  lemma LearnKeepsPc(h: Host, down: Down)
    requires PcInRange(h.core, h.pc)
    ensures PcInRange(DoAnswer(h, down).core, DoAnswer(h, down).pc)
  {
  }

  lemma FilingPubKeepsIndexes(h: Host, g: Host, i: nat)
    requires ScheduleAt(h) && TopicsAt(h) && PcInRange(h.core, h.pc) && h.pc == AtPub(i, AskAdd)
    requires g.core == FilePub(h.core, i) && g.pc == NextPc(h.core, h.pc)
    ensures ScheduleAt(g) && TopicsAt(g)
  {
    FilePubKeepsSchedule(h, g, i);
    FilePubKeepsTopics(h, g, i);
  }

  lemma FilingSubKeepsIndexes(h: Host, g: Host, j: nat)
    requires ScheduleAt(h) && TopicsAt(h) && PcInRange(h.core, h.pc) && h.pc == AtSub(j, AskAdd)
    requires g.core == FileSub(h.core, j) && g.pc == NextPc(h.core, h.pc)
    ensures ScheduleAt(g) && TopicsAt(g)
  {
    FileSubKeepsSchedule(h, g, j);
    FileSubKeepsTopics(h, g, j);
  }

  /** What hearing of the last call for a publisher or subscriber does. */
  lemma FilingLearns(h: Host, down: Down)
    requires PcInRange(h.core, h.pc)
    requires down.Reply? && Learn(h.core, h.pc, down.response).Some? && Files(h.pc)
    ensures var g := DoAnswer(h, down);
            && g.pc == NextPc(h.core, h.pc)
            && g.core == if h.pc.AtPub? then FilePub(h.core, h.pc.i) else FileSub(h.core, h.pc.j)
  {
  }

  lemma FilingKeepsIndexes(h: Host, down: Down)
    requires ScheduleAt(h) && TopicsAt(h) && PcInRange(h.core, h.pc)
    requires down.Reply? && Learn(h.core, h.pc, down.response).Some? && Files(h.pc)
    ensures ScheduleAt(DoAnswer(h, down)) && TopicsAt(DoAnswer(h, down))
  {
    FilingLearns(h, down);
    if h.pc.AtPub? {
      FilingPubKeepsIndexes(h, DoAnswer(h, down), h.pc.i);
    } else {
      FilingSubKeepsIndexes(h, DoAnswer(h, down), h.pc.j);
    }
  }

  lemma LearnKeepsIndexes(h: Host, down: Down)
    requires ScheduleAt(h) && TopicsAt(h) && PcInRange(h.core, h.pc)
    ensures ScheduleAt(DoAnswer(h, down)) && TopicsAt(DoAnswer(h, down))
  {
    if down.Reply? && Learn(h.core, h.pc, down.response).Some? && Files(h.pc) {
      FilingKeepsIndexes(h, down);
    } else {
      LearnSameProgress(h, down);
      SameIndexes(h, DoAnswer(h, down));
    }
  }

  ghost predicate IndexesAt(h: Host) {
    PcInRange(h.core, h.pc) && ScheduleAt(h) && TopicsAt(h)
  }

  lemma SameShapeIndexes(h: Host, g: Host)
    requires IndexesAt(h) && SameShape(h.core, g.core) && g.pc == h.pc
    ensures IndexesAt(g)
  {
    assert SameProgress(h, g);
    SameIndexes(h, g);
  }

  lemma HostStepKeepsIndexes(s: Sys, step: Step)
    requires Shaped(s) && Enabled(s, step) && !step.BrokerTurn? && IndexesAt(s.hosts[step.n])
    ensures IndexesAt(HostAfter(s, step))
  {
    var n := step.n;
    var h, g := s.hosts[n], HostAfter(s, step);
    if step.Answer? {
      LearnKeepsPc(h, s.inbox[n][step.k].down);
      LearnKeepsIndexes(h, s.inbox[n][step.k].down);
    } else {
      StepShape(s, step);
      SameShapeIndexes(h, g);
    }
  }

  lemma StepKeepsIndexesAt(s: Sys, step: Step, n: nat)
    requires Shaped(s) && Enabled(s, step) && n < |s.hosts| && IndexesAt(s.hosts[n])
    ensures n < |Apply(s, step).hosts| && IndexesAt(Apply(s, step).hosts[n])
  {
    ApplyHost(s, step, n);
    if n == step.n && !step.BrokerTurn? {
      HostStepKeepsIndexes(s, step);
    }
  }

  lemma StepKeepsIndexes(s: Sys, step: Step)
    requires Shaped(s) && Enabled(s, step) && IndexesOk(s)
    ensures Shaped(Apply(s, step)) && IndexesOk(Apply(s, step))
  {
    ApplyShaped(s, step);
    forall n | 0 <= n < |s.hosts| ensures IndexesAt(Apply(s, step).hosts[n]) {
      StepKeepsIndexesAt(s, step, n);
    }
  }

  /** No publisher or subscriber is visited twice in a pass. */
  lemma VisitsOnce(h: Host, x: nat, y: nat)
    requires StopsAt(h, StopsOf(h)) && x < y < |Schedule(h.core.levels)|
    ensures Schedule(h.core.levels)[x].visit != Schedule(h.core.levels)[y].visit
  {
    var stops := Schedule(h.core.levels);
    assert stops[x] in StopsOf(h) && stops[y] in StopsOf(h);
    assert StopOk(h, stops[x]) && StopOk(h, stops[y]);
    if stops[x] == stops[y] {
      TwiceInMultiset(stops, x, y);
    }
  }

  /** Whatever is registered is visited. */
  lemma FiledVisited(h: Host)
    requires StopsAt(h, StopsOf(h))
    ensures forall i | 0 <= i < |h.core.pubs| && PubFiled(h.pc, i) :: Visited(h.core, PubVisit(i))
    ensures forall j | 0 <= j < |h.core.subs| && SubFiled(h.pc, j) :: Visited(h.core, SubVisit(j))
  {
    var stops := Schedule(h.core.levels);
    forall i | 0 <= i < |h.core.pubs| && PubFiled(h.pc, i) ensures Visited(h.core, PubVisit(i)) {
      assert Stop(h.core.pubs[i].priority, PubVisit(i)) in stops;
    }
    forall j | 0 <= j < |h.core.subs| && SubFiled(h.pc, j) ensures Visited(h.core, SubVisit(j)) {
      assert Stop(h.core.subs[j].priority, SubVisit(j)) in stops;
    }
  }

  /** A node with consistent indexes meets what the scheduler's properties ask for. */
  lemma IndexesWire(h: Host)
    requires ScheduleAt(h) && TopicsAt(h)
    ensures Wired(h.core)
    ensures forall x, y | 0 <= x < y < |Schedule(h.core.levels)| ::
              Schedule(h.core.levels)[x].visit != Schedule(h.core.levels)[y].visit
    ensures forall i | 0 <= i < |h.core.pubs| && PubFiled(h.pc, i) :: Visited(h.core, PubVisit(i))
    ensures forall j | 0 <= j < |h.core.subs| && SubFiled(h.pc, j) :: Visited(h.core, SubVisit(j))
  {
    FiledVisited(h);
    forall x, y | 0 <= x < y < |Schedule(h.core.levels)|
      ensures Schedule(h.core.levels)[x].visit != Schedule(h.core.levels)[y].visit
    {
      VisitsOnce(h, x, y);
    }
  }

  lemma TwiceInMultiset<T>(xs: seq<T>, x: nat, y: nat)
    requires x < y < |xs| && xs[x] == xs[y]
    ensures multiset(xs)[xs[x]] >= 2
  {
    assert xs == xs[..y] + [xs[y]] + xs[y + 1..];
    assert xs[x] in xs[..y];
    assert xs[..y] == xs[..x] + [xs[x]] + xs[x + 1..y];
  }
}
