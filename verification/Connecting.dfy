/** When an undisturbed `connect` succeeds. */
module Connecting {
  import opened BrokerModel
  import opened BrokerProofs
  import opened NodeModel
  import opened System
  import opened SystemCounters
  import opened Theorems
  import opened SpinPaths
  import opened Declarations
  import opened Sessions
  import Dialling

  function PubDecl<P>(p: Pub<P>): Decl {
    Decl(p.topicName, p.typeName, p.size, p.priority)
  }

  function SubDecl<S>(u: Sub<S>): Decl {
    Decl(u.topicName, u.typeName, u.size, u.priority)
  }

  /** What `connect` declares from publisher `i` and subscriber `j` on, in its order. */
  function Declared<P, S>(d: Node<P, S>, i: nat, j: nat): seq<Decl>
    decreases |d.pubs| - i, |d.subs| - j
  {
    if i < |d.pubs| then [PubDecl(d.pubs[i])] + Declared(d, i + 1, j)
    else if j < |d.subs| then [SubDecl(d.subs[j])] + Declared(d, i, j + 1)
    else []
  }

  /** The node's name is new, and each of its declarations fits what the broker knows and what it declares before. */
  ghost predicate Acceptable<P, S>(r: Registry, d: Node<P, S>) {
    IndexOf(NodeNames(r.nodes), d.name) == |r.nodes| && AllFit(r, Declared(d, 0, 0))
  }

  ghost predicate NoFault(faults: nat -> Fault) {
    forall k :: faults(k) == Fine
  }

  /** One undisturbed call. */
  function Ask<P, S>(r: Registry, client: Address, d: Node<P, S>, pc: Pc): (Registry, Dialling.Exchange<P, S>) {
    var (s, met) := Meets(r, client, d, pc, Fine);
    (s, Dialling.Call(d, pc, met))
  }

  /** Without faults, the rest of a session ends in success. */
  ghost predicate Succeeds<P, S>(r: Registry, client: Address, d: Node<P, S>, pc: Pc, k: nat) {
    forall faults | NoFault(faults) :: Hold(r, client, d, pc, faults, k).connection.ok
  }

  /** There is only one undisturbed session. */
  lemma {:induction false} SameSession<P, S>(r: Registry, client: Address, d: Node<P, S>, pc: Pc, f: nat -> Fault,
                                             g: nat -> Fault, k: nat)
    requires NoFault(f) && NoFault(g)
    ensures Hold(r, client, d, pc, f, k) == Hold(r, client, d, pc, g, k)
    decreases Dialling.CallsLeft(d, pc)
  {
    if pc != AtEnd && Ask(r, client, d, pc).1.ok {
      var (s, x) := Ask(r, client, d, pc);
      Dialling.CallCounts(d, pc, Meets(r, client, d, pc, Fine).1);
      SameSession(s, client, x.node, NextPc(d, pc), f, g, k + 1);
    }
  }

  lemma SucceedsNext<P, S>(r: Registry, client: Address, d: Node<P, S>, pc: Pc, k: nat)
    requires pc != AtEnd
    ensures var (s, x) := Ask(r, client, d, pc);
            Succeeds(r, client, d, pc, k) <==> x.ok && Succeeds(s, client, x.node, NextPc(d, pc), k + 1)
  {
    var (s, x) := Ask(r, client, d, pc);
    var fine: nat -> Fault := (k: nat) => Fine;
    forall faults | NoFault(faults)
      ensures Hold(r, client, d, pc, faults, k).connection.ok
              <==> x.ok && Hold(s, client, x.node, NextPc(d, pc), faults, k + 1).connection.ok
    {
    }
    assert NoFault(fine);
  }

  lemma SuccessAtEnd<P, S>(r: Registry, client: Address, d: Node<P, S>, k: nat)
    ensures Succeeds(r, client, d, AtEnd, k)
  {
  }

  /** `g` declares what `d` declares, from publisher `i` and subscriber `j` on. */
  ghost predicate SameDecls<P, S>(d: Node<P, S>, g: Node<P, S>, i: nat, j: nat) {
    && |g.pubs| == |d.pubs| && |g.subs| == |d.subs|
    && (forall k | i <= k < |d.pubs| :: PubDecl(g.pubs[k]) == PubDecl(d.pubs[k]))
    && (forall k | j <= k < |d.subs| :: SubDecl(g.subs[k]) == SubDecl(d.subs[k]))
  }

  function SubPc<P, S>(d: Node<P, S>, j: nat): Pc {
    if j < |d.subs| then AtSub(j, AskType) else AtEnd
  }

  function PubPc<P, S>(d: Node<P, S>, i: nat): Pc {
    if i < |d.pubs| then AtPub(i, AskType) else SubPc(d, 0)
  }

  // ---- the three calls for a publisher ------------------------------------

  lemma PubTypeCall<P, S>(r: Registry, client: Address, d: Node<P, S>, i: nat, k: nat)
    returns (s: Registry, g: Node<P, S>)
    requires RegistryOk(r) && i < |d.pubs|
    ensures var e := PubDecl(d.pubs[i]);
            && (!TypeFits(SizeIn(r, e.typeName), e) ==> !Succeeds(r, client, d, AtPub(i, AskType), k))
            && (TypeFits(SizeIn(r, e.typeName), e) ==>
                  && TypeKnown(r, e, s) && g.nodeId == d.nodeId && SameDecls(d, g, 0, 0)
                  && g.pubs[i].typeId < |s.types| && s.types[g.pubs[i].typeId].name == e.typeName
                  && (Succeeds(r, client, d, AtPub(i, AskType), k)
                      <==> Succeeds(s, client, g, AtPub(i, AskTopic), k + 1)))
  {
    SucceedsNext(r, client, d, AtPub(i, AskType), k);
    TypeStep(r, client, d.counter, PubDecl(d.pubs[i]));
    var (r', x) := Ask(r, client, d, AtPub(i, AskType));
    s, g := r', x.node;
  }

  lemma PubTopicCall<P, S>(r: Registry, client: Address, d: Node<P, S>, i: nat, k: nat)
    returns (s: Registry, g: Node<P, S>)
    requires RegistryOk(r) && i < |d.pubs|
    requires d.pubs[i].typeId < |r.types| && r.types[d.pubs[i].typeId].name == d.pubs[i].typeName
    ensures var e := PubDecl(d.pubs[i]);
            && (!TopicFits(TopicIn(r, e.topicName), e) ==> !Succeeds(r, client, d, AtPub(i, AskTopic), k))
            && (TopicFits(TopicIn(r, e.topicName), e) ==>
                  && TopicKnown(r, e, s) && g.nodeId == d.nodeId && SameDecls(d, g, 0, 0)
                  && g.pubs[i].typeId == d.pubs[i].typeId
                  && g.pubs[i].topicId < |s.topics| && s.topics[g.pubs[i].topicId].typeId == g.pubs[i].typeId
                  && (Succeeds(r, client, d, AtPub(i, AskTopic), k)
                      <==> Succeeds(s, client, g, AtPub(i, AskAdd), k + 1)))
  {
    SucceedsNext(r, client, d, AtPub(i, AskTopic), k);
    TopicStep(r, client, d.counter, PubDecl(d.pubs[i]), d.pubs[i].typeId);
    var (r', x) := Ask(r, client, d, AtPub(i, AskTopic));
    s, g := r', x.node;
  }

  lemma PubAddCall<P, S>(r: Registry, client: Address, d: Node<P, S>, i: nat, k: nat)
    returns (s: Registry, g: Node<P, S>)
    requires RegistryOk(r) && i < |d.pubs| && d.nodeId < |r.nodes|
    requires d.pubs[i].typeId < |r.types| && d.pubs[i].topicId < |r.topics|
    requires r.topics[d.pubs[i].topicId].typeId == d.pubs[i].typeId
    ensures SameViews(r, s) && g.nodeId == d.nodeId && SameDecls(d, g, 0, 0)
    ensures Succeeds(r, client, d, AtPub(i, AskAdd), k) <==> Succeeds(s, client, g, PubPc(g, i + 1), k + 1)
  {
    SucceedsNext(r, client, d, AtPub(i, AskAdd), k);
    AddStep(r, client, d.counter, AddPublisher(d.nodeId, d.pubs[i].topicId, d.pubs[i].typeId),
            d.nodeId, d.pubs[i].topicId, d.pubs[i].typeId);
    var (r', x) := Ask(r, client, d, AtPub(i, AskAdd));
    s, g := r', x.node;
  }

  /** A publisher's three calls are confirmed exactly if its declaration fits. */
  lemma PubConfirmed<P, S>(r: Registry, client: Address, d: Node<P, S>, i: nat, k: nat)
    returns (s: Registry, g: Node<P, S>)
    requires RegistryOk(r) && i < |d.pubs| && d.nodeId < |r.nodes|
    ensures var e := PubDecl(d.pubs[i]);
            && (!Fits(r, e) ==> !Succeeds(r, client, d, PubPc(d, i), k))
            && (Fits(r, e) ==>
                  && Registered(r, e, s) && g.nodeId < |s.nodes| && SameDecls(d, g, 0, 0)
                  && (Succeeds(r, client, d, PubPc(d, i), k) <==> Succeeds(s, client, g, PubPc(g, i + 1), k + 3)))
  {
    s, g := r, d;
    var e := PubDecl(d.pubs[i]);
    var r1, d1 := PubTypeCall(r, client, d, i, k);
    if TypeFits(SizeIn(r, e.typeName), e) {
      assert PubDecl(d1.pubs[i]) == e;
      var r2, d2 := PubTopicCall(r1, client, d1, i, k + 1);
      if TopicFits(TopicIn(r1, e.topicName), e) {
        s, g := PubAddCall(r2, client, d2, i, k + 2);
        BothKnown(r, e, r1, r2);
        RegisteredStable(r, e, r2, s);
      }
    }
  }

  // ---- the three calls for a subscriber -----------------------------------

  lemma SubTypeCall<P, S>(r: Registry, client: Address, d: Node<P, S>, j: nat, k: nat)
    returns (s: Registry, g: Node<P, S>)
    requires RegistryOk(r) && j < |d.subs|
    ensures var e := SubDecl(d.subs[j]);
            && (!TypeFits(SizeIn(r, e.typeName), e) ==> !Succeeds(r, client, d, AtSub(j, AskType), k))
            && (TypeFits(SizeIn(r, e.typeName), e) ==>
                  && TypeKnown(r, e, s) && g.nodeId == d.nodeId && SameDecls(d, g, 0, 0)
                  && g.subs[j].typeId < |s.types| && s.types[g.subs[j].typeId].name == e.typeName
                  && (Succeeds(r, client, d, AtSub(j, AskType), k)
                      <==> Succeeds(s, client, g, AtSub(j, AskTopic), k + 1)))
  {
    SucceedsNext(r, client, d, AtSub(j, AskType), k);
    TypeStep(r, client, d.counter, SubDecl(d.subs[j]));
    var (r', x) := Ask(r, client, d, AtSub(j, AskType));
    s, g := r', x.node;
  }

  lemma SubTopicCall<P, S>(r: Registry, client: Address, d: Node<P, S>, j: nat, k: nat)
    returns (s: Registry, g: Node<P, S>)
    requires RegistryOk(r) && j < |d.subs|
    requires d.subs[j].typeId < |r.types| && r.types[d.subs[j].typeId].name == d.subs[j].typeName
    ensures var e := SubDecl(d.subs[j]);
            && (!TopicFits(TopicIn(r, e.topicName), e) ==> !Succeeds(r, client, d, AtSub(j, AskTopic), k))
            && (TopicFits(TopicIn(r, e.topicName), e) ==>
                  && TopicKnown(r, e, s) && g.nodeId == d.nodeId && SameDecls(d, g, 0, j + 1)
                  && g.subs[j].typeId == d.subs[j].typeId
                  && g.subs[j].topicId < |s.topics| && s.topics[g.subs[j].topicId].typeId == g.subs[j].typeId
                  && (Succeeds(r, client, d, AtSub(j, AskTopic), k)
                      <==> Succeeds(s, client, g, AtSub(j, AskAdd), k + 1)))
  {
    SucceedsNext(r, client, d, AtSub(j, AskTopic), k);
    TopicStep(r, client, d.counter, SubDecl(d.subs[j]), d.subs[j].typeId);
    var (r', x) := Ask(r, client, d, AtSub(j, AskTopic));
    s, g := r', x.node;
  }

  lemma SubAddCall<P, S>(r: Registry, client: Address, d: Node<P, S>, j: nat, k: nat)
    returns (s: Registry, g: Node<P, S>)
    requires RegistryOk(r) && j < |d.subs| && d.nodeId < |r.nodes|
    requires d.subs[j].typeId < |r.types| && d.subs[j].topicId < |r.topics|
    requires r.topics[d.subs[j].topicId].typeId == d.subs[j].typeId
    ensures SameViews(r, s) && g.nodeId == d.nodeId && SameDecls(d, g, 0, 0)
    ensures Succeeds(r, client, d, AtSub(j, AskAdd), k) <==> Succeeds(s, client, g, SubPc(g, j + 1), k + 1)
  {
    SucceedsNext(r, client, d, AtSub(j, AskAdd), k);
    AddStep(r, client, d.counter, AddSubscriber(d.nodeId, d.subs[j].topicId, d.subs[j].typeId),
            d.nodeId, d.subs[j].topicId, d.subs[j].typeId);
    var (r', x) := Ask(r, client, d, AtSub(j, AskAdd));
    s, g := r', x.node;
  }

  /** A subscriber's three calls are confirmed exactly if its declaration fits. */
  lemma SubConfirmed<P, S>(r: Registry, client: Address, d: Node<P, S>, j: nat, k: nat)
    returns (s: Registry, g: Node<P, S>)
    requires RegistryOk(r) && j < |d.subs| && d.nodeId < |r.nodes|
    ensures var e := SubDecl(d.subs[j]);
            && (!Fits(r, e) ==> !Succeeds(r, client, d, SubPc(d, j), k))
            && (Fits(r, e) ==>
                  && Registered(r, e, s) && g.nodeId < |s.nodes| && SameDecls(d, g, 0, j + 1)
                  && (Succeeds(r, client, d, SubPc(d, j), k) <==> Succeeds(s, client, g, SubPc(g, j + 1), k + 3)))
  {
    s, g := r, d;
    var e := SubDecl(d.subs[j]);
    var r1, d1 := SubTypeCall(r, client, d, j, k);
    if TypeFits(SizeIn(r, e.typeName), e) {
      assert SubDecl(d1.subs[j]) == e;
      var r2, d2 := SubTopicCall(r1, client, d1, j, k + 1);
      if TopicFits(TopicIn(r1, e.topicName), e) {
        s, g := SubAddCall(r2, client, d2, j, k + 2);
        BothKnown(r, e, r1, r2);
        RegisteredStable(r, e, r2, s);
      }
    }
  }

  // ---- all calls -----------------------------------------------------------

  lemma {:induction false} SameDeclared<P, S>(d: Node<P, S>, g: Node<P, S>, i: nat, j: nat)
    requires SameDecls(d, g, i, j)
    ensures Declared(d, i, j) == Declared(g, i, j)
    decreases |d.pubs| - i, |d.subs| - j
  {
    if i < |d.pubs| {
      SameDeclared(d, g, i + 1, j);
      assert PubDecl(g.pubs[i]) == PubDecl(d.pubs[i]);
    } else if j < |d.subs| {
      SameDeclared(d, g, i, j + 1);
      assert SubDecl(g.subs[j]) == SubDecl(d.subs[j]);
    }
  }

  lemma SubFitsNext<P, S>(r: Registry, d: Node<P, S>, j: nat, s: Registry, g: Node<P, S>)
    requires j < |d.subs|
    ensures var e := SubDecl(d.subs[j]);
            && (!Fits(r, e) ==> !AllFit(r, Declared(d, |d.pubs|, j)))
            && (Fits(r, e) && Registered(r, e, s) && SameDecls(d, g, 0, j + 1) ==>
                  (AllFit(r, Declared(d, |d.pubs|, j)) <==> AllFit(s, Declared(g, |g.pubs|, j + 1))))
  {
    AllFitStep(r, SubDecl(d.subs[j]), Declared(d, |d.pubs|, j + 1), s);
    if SameDecls(d, g, 0, j + 1) {
      SameDeclared(d, g, |d.pubs|, j + 1);
    }
  }

  /** One subscriber more is confirmed, and the condition on the others stays as it was. */
  lemma SubNext<P, S>(r: Registry, client: Address, d: Node<P, S>, j: nat, k: nat)
    returns (s: Registry, g: Node<P, S>, fits: bool)
    requires RegistryOk(r) && d.nodeId < |r.nodes| && j < |d.subs|
    ensures !fits ==> !Succeeds(r, client, d, SubPc(d, j), k) && !AllFit(r, Declared(d, |d.pubs|, j))
    ensures fits ==>
              && RegistryOk(s) && g.nodeId < |s.nodes| && |g.subs| == |d.subs|
              && (Succeeds(r, client, d, SubPc(d, j), k) <==> Succeeds(s, client, g, SubPc(g, j + 1), k + 3))
              && (AllFit(r, Declared(d, |d.pubs|, j)) <==> AllFit(s, Declared(g, |g.pubs|, j + 1)))
  {
    s, g := SubConfirmed(r, client, d, j, k);
    fits := Fits(r, SubDecl(d.subs[j]));
    SubFitsNext(r, d, j, s, g);
  }

  lemma {:induction false} SubsConfirmed<P, S>(r: Registry, client: Address, d: Node<P, S>, j: nat, k: nat)
    requires RegistryOk(r) && d.nodeId < |r.nodes| && j <= |d.subs|
    ensures Succeeds(r, client, d, SubPc(d, j), k) <==> AllFit(r, Declared(d, |d.pubs|, j))
    decreases |d.subs| - j
  {
    if j < |d.subs| {
      var s, g, fits := SubNext(r, client, d, j, k);
      if fits {
        SubsConfirmed(s, client, g, j + 1, k + 3);
      }
    } else {
      SuccessAtEnd(r, client, d, k);
    }
  }

  lemma PubFitsNext<P, S>(r: Registry, d: Node<P, S>, i: nat, s: Registry, g: Node<P, S>)
    requires i < |d.pubs|
    ensures var e := PubDecl(d.pubs[i]);
            && (!Fits(r, e) ==> !AllFit(r, Declared(d, i, 0)))
            && (Fits(r, e) && Registered(r, e, s) && SameDecls(d, g, 0, 0) ==>
                  (AllFit(r, Declared(d, i, 0)) <==> AllFit(s, Declared(g, i + 1, 0))))
  {
    AllFitStep(r, PubDecl(d.pubs[i]), Declared(d, i + 1, 0), s);
    if SameDecls(d, g, 0, 0) {
      SameDeclared(d, g, i + 1, 0);
    }
  }

  /** One publisher more is confirmed, and the condition on the others stays as it was. */
  lemma PubNext<P, S>(r: Registry, client: Address, d: Node<P, S>, i: nat, k: nat)
    returns (s: Registry, g: Node<P, S>, fits: bool)
    requires RegistryOk(r) && d.nodeId < |r.nodes| && i < |d.pubs|
    ensures !fits ==> !Succeeds(r, client, d, PubPc(d, i), k) && !AllFit(r, Declared(d, i, 0))
    ensures fits ==>
              && RegistryOk(s) && g.nodeId < |s.nodes| && |g.pubs| == |d.pubs|
              && (Succeeds(r, client, d, PubPc(d, i), k) <==> Succeeds(s, client, g, PubPc(g, i + 1), k + 3))
              && (AllFit(r, Declared(d, i, 0)) <==> AllFit(s, Declared(g, i + 1, 0)))
  {
    s, g := PubConfirmed(r, client, d, i, k);
    fits := Fits(r, PubDecl(d.pubs[i]));
    PubFitsNext(r, d, i, s, g);
  }

  lemma {:induction false} PubsConfirmed<P, S>(r: Registry, client: Address, d: Node<P, S>, i: nat, k: nat)
    requires RegistryOk(r) && d.nodeId < |r.nodes| && i <= |d.pubs|
    ensures Succeeds(r, client, d, PubPc(d, i), k) <==> AllFit(r, Declared(d, i, 0))
    decreases |d.pubs| - i
  {
    if i < |d.pubs| {
      var s, g, fits := PubNext(r, client, d, i, k);
      if fits {
        PubsConfirmed(s, client, g, i + 1, k + 3);
      }
    } else {
      SubsConfirmed(r, client, d, 0, k);
    }
  }

  lemma SameTables(r: Registry, s: Registry, decls: seq<Decl>)
    requires s.types == r.types && s.topics == r.topics
    ensures AllFit(r, decls) <==> AllFit(s, decls)
  {
    forall i | 0 <= i < |decls| ensures FitsAt(r, decls, i) <==> FitsAt(s, decls, i) {
    }
  }

  /** A whole `connect` without faults is confirmed exactly if the node's name and declarations are acceptable. */
  lemma SessionSucceedsIff<P, S>(r: Registry, client: Address, d: Node<P, S>, k: nat)
    requires RegistryOk(r)
    ensures Succeeds(r, client, d, AtNode, k) <==> Acceptable(r, d)
  {
    SucceedsNext(r, client, d, AtNode, k);
    NodeStep(r, client, d.counter, d.name);
    var (s, x) := Ask(r, client, d, AtNode);
    if x.ok {
      PubsConfirmed(s, client, x.node, 0, k + 1);
      SameTables(r, s, Declared(d, 0, 0));
      SameDeclared(d, x.node, 0, 0);
    }
  }

  /**
   * From every state of the invariant in which a node starts to connect, an
   * undisturbed `connect` ends, and it ends in success exactly if the node's
   * name and declarations are acceptable. What the node then is and has sent is
   * what `Connect` computes from what it met.
   */
  lemma ConnectSucceedsIff(s: Sys, n: nat, faults: nat -> Fault) returns (states: seq<Sys>, steps: seq<Step>, t: Sys)
    requires Shaped(s) && n < |s.hosts| && s.hosts[n].status.Connecting? && s.hosts[n].pc == AtNode
    requires Room(s, 0, Dialling.CallsLeft(s.hosts[n].core, AtNode)) && Bounded(s) && Invariant(s) && NoFault(faults)
    ensures Links(s, states, steps, t)
    ensures var z := Hold(s.broker.registry, n, s.hosts[n].core, AtNode, faults, 0);
            Ends(s, n, z, t) && (z.connection.ok <==> Acceptable(s.broker.registry, s.hosts[n].core))
  {
    NothingSent(s, n);
    states, steps, t := ConnectIsPath(s, n, faults, 0);
    SessionSucceedsIff(s.broker.registry, n, s.hosts[n].core, 0);
    UndisturbedOutcome(s.broker.registry, n, s.hosts[n].core, faults);
  }

  lemma UndisturbedOutcome<P, S>(r: Registry, client: Address, d: Node<P, S>, faults: nat -> Fault)
    requires NoFault(faults)
    ensures Hold(r, client, d, AtNode, faults, 0).connection.ok <==> Succeeds(r, client, d, AtNode, 0)
  {
    forall other | NoFault(other)
      ensures Hold(r, client, d, AtNode, other, 0) == Hold(r, client, d, AtNode, faults, 0)
    {
      SameSession(r, client, d, AtNode, other, faults, 0);
    }
  }

  /** A node that starts to connect has sent nothing. */
  lemma NothingSent(s: Sys, n: nat)
    requires Shaped(s) && n < |s.hosts| && s.hosts[n].status.Connecting? && s.hosts[n].pc == AtNode && CountersOk(s)
    ensures s.hosts[n].sent == [] && s.accepted[n] == []
  {
    assert OpeningAt(s.hosts[n]) && AcceptedAt(s.broker, n, s.hosts[n], s.accepted[n], s.inbox[n]);
  }
}
