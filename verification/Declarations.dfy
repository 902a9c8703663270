/** Exactly when the broker confirms everything that a node declares. */
module Declarations {
  import opened Basics
  import opened BrokerModel
  import opened BrokerProofs

  /** What a node says about one of its publishers or subscribers. */
  datatype Decl = Decl(topicName: string, typeName: string, size: nat, priority: int)

  // ---- the condition -------------------------------------------------------

  /** The size registered for a type name. */
  function SizeIn(r: Registry, name: string): Option<nat> {
    var i := IndexOf(TypeNames(r.types), name);
    if i < |r.types| then Some(r.types[i].size) else None
  }

  /** The type name and priority registered for a topic name. */
  function TopicIn(r: Registry, name: string): Option<(string, int)> {
    var i := IndexOf(TopicNames(r.topics), name);
    if i < |r.topics| && r.topics[i].typeId < |r.types|
    then Some((r.types[r.topics[i].typeId].name, r.topics[i].priority)) else None
  }

  /** The first size declared for a type name. */
  function SizeAmong(decls: seq<Decl>, name: string): Option<nat> {
    if decls == [] then None
    else if decls[0].typeName == name then Some(decls[0].size)
    else SizeAmong(decls[1..], name)
  }

  /** The first type name and priority declared for a topic name. */
  function TopicAmong(decls: seq<Decl>, name: string): Option<(string, int)> {
    if decls == [] then None
    else if decls[0].topicName == name then Some((decls[0].typeName, decls[0].priority))
    else TopicAmong(decls[1..], name)
  }

  function OrElse<T>(a: Option<T>, b: Option<T>): Option<T> {
    if a.Some? then a else b
  }

  /** The type is new or has the declared size. */
  predicate TypeFits(size: Option<nat>, e: Decl) {
    size.Some? ==> size.value == e.size
  }

  /** The topic is new and declared with a priority, or it has the declared type and, unless don't-care, priority. */
  predicate TopicFits(topic: Option<(string, int)>, e: Decl) {
    match topic
    case None => e.priority != DONT_CARE
    case Some((typeName, priority)) => typeName == e.typeName && (e.priority == DONT_CARE || priority == e.priority)
  }

  predicate Fits(r: Registry, e: Decl) {
    TypeFits(SizeIn(r, e.typeName), e) && TopicFits(TopicIn(r, e.topicName), e)
  }

  /** Every declaration fits what is registered, or else what was first declared before it. */
  ghost predicate AllFit(r: Registry, decls: seq<Decl>) {
    forall i | 0 <= i < |decls| :: FitsAt(r, decls, i)
  }

  ghost predicate FitsAt(r: Registry, decls: seq<Decl>, i: nat)
    requires i < |decls|
  {
    var e := decls[i];
    && TypeFits(OrElse(SizeIn(r, e.typeName), SizeAmong(decls[..i], e.typeName)), e)
    && TopicFits(OrElse(TopicIn(r, e.topicName), TopicAmong(decls[..i], e.topicName)), e)
  }

  // ---- one declaration after the other -------------------------------------

  /** `s` is `r` with the declaration registered: first registrations win. */
  ghost predicate Registered(r: Registry, e: Decl, s: Registry) {
    && RegistryOk(s) && |r.nodes| <= |s.nodes|
    && (forall x :: SizeIn(s, x) == OrElse(SizeIn(r, x), SizeAmong([e], x)))
    && (forall x :: TopicIn(s, x) == OrElse(TopicIn(r, x), TopicAmong([e], x)))
  }

  /** What confirming the type changes, and what confirming the topic changes. */
  ghost predicate TypeKnown(r: Registry, e: Decl, s: Registry) {
    && RegistryOk(s) && s.nodes == r.nodes
    && (forall x :: SizeIn(s, x) == OrElse(SizeIn(r, x), SizeAmong([e], x)))
    && (forall x :: TopicIn(s, x) == TopicIn(r, x))
  }

  ghost predicate TopicKnown(r: Registry, e: Decl, s: Registry) {
    && RegistryOk(s) && s.nodes == r.nodes && s.types == r.types
    && (forall x :: SizeIn(s, x) == SizeIn(r, x))
    && (forall x :: TopicIn(s, x) == OrElse(TopicIn(r, x), TopicAmong([e], x)))
  }

  lemma BothKnown(r: Registry, e: Decl, m: Registry, s: Registry)
    requires TypeKnown(r, e, m) && TopicKnown(m, e, s)
    ensures Registered(r, e, s)
  {
  }

  /** Types and topics, by name, are the same in `r` and `s`, and so is the table of nodes. */
  ghost predicate SameViews(r: Registry, s: Registry) {
    && RegistryOk(s) && s.nodes == r.nodes
    && (forall x :: SizeIn(s, x) == SizeIn(r, x))
    && (forall x :: TopicIn(s, x) == TopicIn(r, x))
  }

  lemma RegisteredStable(r: Registry, e: Decl, m: Registry, s: Registry)
    requires Registered(r, e, m) && SameViews(m, s)
    ensures Registered(r, e, s)
  {
  }

  lemma AmongSplit(e: Decl, rest: seq<Decl>, x: string)
    ensures SizeAmong([e] + rest, x) == OrElse(SizeAmong([e], x), SizeAmong(rest, x))
    ensures TopicAmong([e] + rest, x) == OrElse(TopicAmong([e], x), TopicAmong(rest, x))
  {
    assert ([e] + rest)[1..] == rest && [e][1..] == [];
  }

  /** Registering the first declaration leaves the condition on the others as it was. */
  lemma FitsLater(r: Registry, decls: seq<Decl>, s: Registry, i: nat)
    requires decls != [] && Registered(r, decls[0], s) && 0 < i < |decls|
    ensures FitsAt(r, decls, i) <==> FitsAt(s, decls[1..], i - 1)
  {
    assert decls[1..][i - 1] == decls[i];
    assert decls[..i] == [decls[0]] + decls[1..][..i - 1];
    AmongSplit(decls[0], decls[1..][..i - 1], decls[i].typeName);
    AmongSplit(decls[0], decls[1..][..i - 1], decls[i].topicName);
  }

  lemma AllFitNext(r: Registry, decls: seq<Decl>, s: Registry)
    requires decls != [] && Registered(r, decls[0], s)
    ensures AllFit(r, decls) <==> FitsAt(r, decls, 0) && AllFit(s, decls[1..])
  {
    forall i | 0 < i < |decls| ensures FitsAt(r, decls, i) <==> FitsAt(s, decls[1..], i - 1) {
      FitsLater(r, decls, s, i);
    }
    if FitsAt(r, decls, 0) && AllFit(s, decls[1..]) {
      forall i | 0 <= i < |decls| ensures FitsAt(r, decls, i) {
        if i > 0 {
          assert FitsAt(s, decls[1..], i - 1);
        }
      }
    }
    if AllFit(r, decls) {
      forall i | 0 <= i < |decls[1..]| ensures FitsAt(s, decls[1..], i) {
        assert FitsAt(r, decls, i + 1);
      }
    }
  }

  lemma FitsFirst(r: Registry, decls: seq<Decl>)
    requires decls != []
    ensures FitsAt(r, decls, 0) <==> Fits(r, decls[0])
  {
    assert decls[..0] == [];
  }

  /** The condition on a list of declarations, one declaration at a time. */
  lemma AllFitStep(r: Registry, e: Decl, rest: seq<Decl>, s: Registry)
    ensures AllFit(r, []) && (!Fits(r, e) ==> !AllFit(r, [e] + rest))
    ensures Fits(r, e) && Registered(r, e, s) ==> (AllFit(r, [e] + rest) <==> AllFit(s, rest))
  {
    var decls := [e] + rest;
    assert decls[1..] == rest;
    FitsFirst(r, decls);
    if Registered(r, e, s) {
      AllFitNext(r, decls, s);
    }
  }

  // ---- the three requests for one declaration ------------------------------

  lemma IndexOfAppend(names: seq<string>, name: string, x: string)
    requires IndexOf(names, name) == |names|
    ensures IndexOf(names + [name], x) == if IndexOf(names, x) < |names| || x != name then
                                            (if IndexOf(names, x) < |names| then IndexOf(names, x) else |names| + 1)
                                          else |names|
  {
    IndexIs(names + [name], x, if IndexOf(names, x) < |names| || x != name then
                                 (if IndexOf(names, x) < |names| then IndexOf(names, x) else |names| + 1)
                               else |names|);
  }

  lemma TypeStep(r: Registry, client: Address, rpcId: uint32, e: Decl)
    requires RegistryOk(r)
    ensures var (s, a) := Process(r, client, rpcId, RegisterType(e.typeName, e.size));
            && (a.TypeRegistered? <==> TypeFits(SizeIn(r, e.typeName), e))
            && (a.TypeRegistered? ==> a.typeId < |s.types| && s.types[a.typeId].name == e.typeName)
            && (a.TypeRegistered? ==> TypeKnown(r, e, s))
  {
    var (s, a) := Process(r, client, rpcId, RegisterType(e.typeName, e.size));
    ProcessKeepsRegistry(r, client, rpcId, RegisterType(e.typeName, e.size));
    assert [e][1..] == [];
    if a.TypeRegistered? {
      forall x ensures SizeIn(s, x) == OrElse(SizeIn(r, x), SizeAmong([e], x)) && TopicIn(s, x) == TopicIn(r, x) {
        if s != r {
          assert TypeNames(s.types) == TypeNames(r.types) + [e.typeName];
          IndexOfAppend(TypeNames(r.types), e.typeName, x);
        }
        var i := IndexOf(TopicNames(r.topics), x);
        if i < |r.topics| {
          assert TopicOk(r, r.topics[i]);
        }
      }
    }
  }

  /** Type IDs below the table's length are equal exactly if the type names are. */
  lemma SameType(r: Registry, a: nat, b: nat)
    requires RegistryOk(r) && a < |r.types| && b < |r.types| && r.types[a].name == r.types[b].name
    ensures a == b
  {
    assert TypeNames(r.types)[a] == TypeNames(r.types)[b];
  }

  lemma TopicStep(r: Registry, client: Address, rpcId: uint32, e: Decl, typeId: nat)
    requires RegistryOk(r) && typeId < |r.types| && r.types[typeId].name == e.typeName
    ensures var (s, a) := Process(r, client, rpcId, RegisterTopic(e.topicName, typeId, e.priority));
            && (a.TopicRegistered? <==> TopicFits(TopicIn(r, e.topicName), e))
            && (a.TopicRegistered? ==> a.topicId < |s.topics| && s.topics[a.topicId].typeId == typeId)
            && (a.TopicRegistered? ==> TopicKnown(r, e, s))
  {
    var (s, a) := Process(r, client, rpcId, RegisterTopic(e.topicName, typeId, e.priority));
    ProcessKeepsRegistry(r, client, rpcId, RegisterTopic(e.topicName, typeId, e.priority));
    assert [e][1..] == [];
    var i := IndexOf(TopicNames(r.topics), e.topicName);
    if i < |r.topics| {
      assert TopicOk(r, r.topics[i]);
      if r.types[r.topics[i].typeId].name == e.typeName {
        SameType(r, r.topics[i].typeId, typeId);
      }
    }
    if a.TopicRegistered? && s != r {
      forall x ensures TopicIn(s, x) == OrElse(TopicIn(r, x), TopicAmong([e], x)) {
        assert TopicNames(s.topics) == TopicNames(r.topics) + [e.topicName];
        IndexOfAppend(TopicNames(r.topics), e.topicName, x);
        var k := IndexOf(TopicNames(r.topics), x);
        if k < |r.topics| {
          assert TopicOk(r, r.topics[k]);
        }
      }
    }
  }

  /** Adding a known node to a known topic of that type is never refused. */
  lemma AddStep(r: Registry, client: Address, rpcId: uint32, q: Request, nodeId: nat, topicId: nat, typeId: nat)
    requires RegistryOk(r) && q in {AddPublisher(nodeId, topicId, typeId), AddSubscriber(nodeId, topicId, typeId)}
    requires nodeId < |r.nodes| && topicId < |r.topics| && typeId < |r.types| && r.topics[topicId].typeId == typeId
    ensures var (s, a) := Process(r, client, rpcId, q);
            a.Done? && SameViews(r, s)
  {
    var (s, a) := Process(r, client, rpcId, q);
    ProcessKeepsRegistry(r, client, rpcId, q);
    NamesUpdate(r.topics, topicId, s.topics[topicId]);
  }

  /** A node name can be registered exactly if it is new, and that leaves types and topics alone. */
  lemma NodeStep(r: Registry, client: Address, rpcId: uint32, name: string)
    requires RegistryOk(r)
    ensures var (s, a) := Process(r, client, rpcId, RegisterNode(name));
            && RegistryOk(s) && s.types == r.types && s.topics == r.topics
            && (a.NodeRegistered? <==> IndexOf(NodeNames(r.nodes), name) == |r.nodes|)
            && (a.NodeRegistered? ==> a.nodeId < |s.nodes|)
  {
    ProcessKeepsRegistry(r, client, rpcId, RegisterNode(name));
  }
}
