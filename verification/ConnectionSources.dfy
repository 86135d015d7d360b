/** Where the addresses come from: a subscriber is told of, and connected to, publishers of its own topic only. */
module ConnectionSources {
  import opened MediatorTables
  import opened Matchmaking
  import opened Options

  predicate NoticeSourced(m: Notice, announced: set<(Topic, Address)>) {
    forall a :: a in m.addresses ==> (m.topic, a) in announced
  }

  /** Everything a node holds or that is under way from or to it was announced. */
  ghost predicate NodeSourced(d: NodeState, announced: set<(Topic, Address)>) {
    && (forall t, a :: AddPub(t, a) in d.outgoing ==> (t, a) in announced)
    && (forall i :: 0 <= i < |d.incoming| ==> NoticeSourced(d.incoming[i], announced))
    && (d.response.Some? ==> NoticeSourced(d.response.value, announced))
    && (forall t, a :: t in d.subs && a in d.subs[t] ==> (t, a) in announced)
  }

  /** A node's publishers are at addresses made for their topic. */
  predicate Placed(d: NodeState, topicOf: map<Address, Topic>) {
    forall t :: t in d.pubs ==> d.pubs[t] in topicOf && topicOf[d.pubs[t]] == t
  }

  ghost predicate Sources(s: State, r: Relation) {
    && (forall k :: k in r.pubs ==> (k.1, r.pubs[k]) in s.announced)
    && (forall n :: n in s.nodes ==> NodeSourced(s.nodes[n], s.announced) && Placed(s.nodes[n], s.topicOf))
    && (forall k :: k in s.announced ==> k.1 in s.topicOf && s.topicOf[k.1] == k.0)
  }

  /** The announcement a step makes. */
  function Announces(d: NodeState, ev: Event): set<(Topic, Address)>
    requires NodeAllowed(d, ev)
  {
    if ev.AnnouncePublisher? then {(ev.topic, d.pubs[ev.topic])} else {}
  }

  lemma NodeStepSourced(d: NodeState, ev: Event, announced: set<(Topic, Address)>)
    requires NodeSourced(d, announced) && NodeAllowed(d, ev)
    ensures NodeSourced(NodeStep(d, ev), announced + Announces(d, ev))
  {
    var d' := NodeStep(d, ev);
    assert forall m :: m in d'.outgoing ==> m in d.outgoing || Sent(d, ev) == Some(m);
  }

  lemma NodeStepPlaced(d: NodeState, ev: Event, topicOf: map<Address, Topic>)
    requires Placed(d, topicOf) && NodeAllowed(d, ev) && (ev.CreatePublisher? ==> ev.address !in topicOf)
    ensures Placed(NodeStep(d, ev), if ev.CreatePublisher? then topicOf[ev.address := ev.topic] else topicOf)
  {
  }

  /** What is said of a node stays true when more is announced or made. */
  lemma MoreSourced(d: NodeState, announced: set<(Topic, Address)>, more: set<(Topic, Address)>)
    requires NodeSourced(d, announced) && announced <= more
    ensures NodeSourced(d, more)
  {
    assert forall m :: NoticeSourced(m, announced) ==> NoticeSourced(m, more);
  }

  lemma NodeStepSources(s: State, r: Relation, ev: Event)
    requires Sources(s, r) && Allowed(s, ev) && IsNodeStep(ev)
    ensures Sources(Next(s, ev), r)
  {
    var d, s' := s.nodes[ev.node], Next(s, ev);
    NodeStepSourced(d, ev, s.announced);
    NodeStepPlaced(d, ev, s.topicOf);
    NodeStepHistories(s, ev);
    forall n | n in s'.nodes ensures NodeSourced(s'.nodes[n], s'.announced) && Placed(s'.nodes[n], s'.topicOf) {
      if n != ev.node { MoreSourced(s.nodes[n], s.announced, s'.announced); }
    }
  }

  lemma NodeStepHistories(s: State, ev: Event)
    requires Allowed(s, ev) && IsNodeStep(ev)
    ensures var s' := Next(s, ev);
      && s'.announced == s.announced + Announces(s.nodes[ev.node], ev)
      && s'.topicOf == (if ev.CreatePublisher? then s.topicOf[ev.address := ev.topic] else s.topicOf)
      && s'.nodes == s.nodes[ev.node := NodeStep(s.nodes[ev.node], ev)]
  {
  }

  /** A step of one node that announces nothing. */
  lemma SetNodeSources(s: State, r: Relation, n: Node, d': NodeState)
    requires Sources(s, r) && n in s.nodes && NodeSourced(d', s.announced) && d'.pubs == s.nodes[n].pubs
    ensures Sources(Matchmaking.SetNode(s, n, d'), r)
  {
  }

  lemma RespondSources(s: State, r: Relation, n: Node)
    requires Sources(s, r) && Allowed(s, Respond(n))
    ensures Sources(Next(s, Respond(n)), r)
  {
    SetNodeSources(s, r, n, Responded(s.nodes[n]));
  }

  lemma ReceiveSources(s: State, r: Relation, n: Node)
    requires Sources(s, r) && Allowed(s, Receive(n))
    ensures Sources(Next(s, Receive(n)), r)
  {
    var d, d' := s.nodes[n], ReceiveStep(s, n).nodes[n];
    assert NoticeSourced(d.incoming[0], s.announced);
    assert forall i :: 0 <= i < |d'.incoming| ==> d'.incoming[i] == d.incoming[i + 1];
    SetNodeSources(s, r, n, d');
  }

  lemma DropSources(s: State, r: Relation, n: Node, t: Topic, a: Address)
    requires Sources(s, r) && Allowed(s, Drop(n, t, a))
    ensures Sources(Next(s, Drop(n, t, a)), r)
  {
    SetNodeSources(s, r, n, s.nodes[n].(subs := s.nodes[n].subs[t := s.nodes[n].subs[t] - {a}]));
  }

  lemma JoinSources(s: State, r: Relation, n: Node, name: string)
    requires Sources(s, r) && Allowed(s, Join(n, name))
    ensures Sources(Next(s, Join(n, name)), r)
  {
    assert NodeSourced(NewNode(), s.announced);
  }

  /** The response to addSubscriber lists registered publishers of the topic, and nothing else. */
  lemma ResponseSourced(s: State, r: Relation, n: Node)
    requires Sources(s, r) && Allowed(s, Handle(n)) && Refines(s.tables, r) && s.nodes[n].outgoing[0].AddSub?
    ensures var m := HandleStep(s, n).nodes[n].response; m.Some? && NoticeSourced(m.value, s.announced)
  {
    var t, tb := s.nodes[n].outgoing[0].topic, s.tables;
    var tb1 := Subscribed(SubscriberTopicSection(tb, n, t), n, t);
    var m := HandleStep(s, n).nodes[n].response.value;
    forall a | a in m.addresses ensures (m.topic, a) in s.announced {
      var p :| p in TopicAt(tb, t).publishing && LookUp(tb1, p, t) == a;
      AddSubscriberFinds(tb, r, n, t, p);
      assert (p, t) in r.pubs;
    }
  }

  lemma PopSourced(d: NodeState, announced: set<(Topic, Address)>)
    requires NodeSourced(d, announced) && d.outgoing != []
    ensures NodeSourced(d.(outgoing := d.outgoing[1..]), announced)
    ensures d.outgoing[0].AddPub? ==> (d.outgoing[0].topic, d.outgoing[0].address) in announced
  {
    assert d.outgoing[0] in d.outgoing;
  }

  lemma NoticeAdded(d: NodeState, m: Notice, announced: set<(Topic, Address)>)
    requires NodeSourced(d, announced) && NoticeSourced(m, announced)
    ensures NodeSourced(d.(incoming := d.incoming + [m]), announced)
  {
  }

  lemma ResponseAdded(d: NodeState, m: Option<Notice>, asked: set<Topic>, announced: set<(Topic, Address)>)
    requires NodeSourced(d, announced) && m.Some? && NoticeSourced(m.value, announced)
    ensures NodeSourced(d.(response := m, asked := asked), announced)
  {
  }

  lemma HandledSourced(s: State, r: Relation, n: Node, m: Node)
    requires Sources(s, r) && Allowed(s, Handle(n)) && Refines(s.tables, r) && m in s.nodes
    ensures NodeSourced(Handled(s, n, m), s.announced) && Handled(s, n, m).pubs == s.nodes[m].pubs
  {
    var head := s.nodes[n].outgoing[0];
    PopSourced(s.nodes[n], s.announced);
    var d := if m == n then s.nodes[m].(outgoing := s.nodes[m].outgoing[1..]) else s.nodes[m];
    if head.AddPub? {
      NoticeAdded(d, Notice(head.topic, {head.address}), s.announced);
    } else if head.AddSub? && m == n {
      ResponseSourced(s, r, n);
      ResponseAdded(d, HandleStep(s, n).nodes[n].response, d.asked + {head.topic}, s.announced);
    }
  }

  lemma HandledAt(s: State, r: Relation, n: Node, m: Node)
    requires Sources(s, r) && Allowed(s, Handle(n)) && Refines(s.tables, r) && m in s.nodes
    ensures m in HandleStep(s, n).nodes
    ensures NodeSourced(HandleStep(s, n).nodes[m], s.announced) && Placed(HandleStep(s, n).nodes[m], s.topicOf)
  {
    HandledNodes(s, n, m);
    HandledSourced(s, r, n, m);
  }

  lemma UpdateSourced(r: Relation, n: Node, m: Request, announced: set<(Topic, Address)>)
    requires forall k :: k in r.pubs ==> (k.1, r.pubs[k]) in announced
    requires m.AddPub? ==> (m.topic, m.address) in announced
    ensures var r' := Update(r, n, m); forall k :: k in r'.pubs ==> (k.1, r'.pubs[k]) in announced
  {
  }

  lemma HandleSources(s: State, r: Relation, n: Node)
    requires Sources(s, r) && Allowed(s, Handle(n)) && Refines(s.tables, r)
    ensures Sources(HandleStep(s, n), Update(r, n, s.nodes[n].outgoing[0]))
  {
    var s' := HandleStep(s, n);
    PopSourced(s.nodes[n], s.announced);
    UpdateSourced(r, n, s.nodes[n].outgoing[0], s.announced);
    HandledNodes(s, n, n);
    forall m | m in s.nodes ensures NodeSourced(s'.nodes[m], s.announced) && Placed(s'.nodes[m], s.topicOf) {
      HandledAt(s, r, n, m);
    }
  }

  /** The response holds exactly the addresses published on the topic, and nobody else is told anything. */
  lemma SubscribingTells(s: State, r: Relation, n: Node, m: Node, t: Topic)
    requires Allowed(s, Handle(n)) && Refines(s.tables, r) && s.nodes[n].outgoing[0] == AddSub(t) && m in s.nodes
    ensures HandleStep(s, n).nodes[n].response == Some(Notice(t, AddressesOn(r, t)))
    ensures HandleStep(s, n).nodes[m].incoming == s.nodes[m].incoming
    ensures m != n ==> HandleStep(s, n).nodes[m].response == s.nodes[m].response
  {
    HandledNodes(s, n, m);
    var tb := s.tables;
    var tb1 := Subscribed(SubscriberTopicSection(tb, n, t), n, t);
    forall p ensures (p in TopicAt(tb, t).publishing <==> (p, t) in r.pubs)
      ensures (p, t) in r.pubs ==> LookUp(tb1, p, t) == r.pubs[(p, t)]
    {
      AddSubscriberFinds(tb, r, n, t, p);
    }
    SameAddresses(tb, tb1, r, t);
  }

  lemma SameAddresses(tb: Tables, tb1: Tables, r: Relation, t: Topic)
    requires forall p :: p in TopicAt(tb, t).publishing <==> (p, t) in r.pubs
    requires forall p :: (p, t) in r.pubs ==> LookUp(tb1, p, t) == r.pubs[(p, t)]
    ensures (set p | p in TopicAt(tb, t).publishing :: LookUp(tb1, p, t)) == AddressesOn(r, t)
  {
    var found := set p | p in TopicAt(tb, t).publishing :: LookUp(tb1, p, t);
    forall a ensures a in found <==> a in AddressesOn(r, t) {
      if a in found { var p :| p in TopicAt(tb, t).publishing && LookUp(tb1, p, t) == a; assert (p, t) in r.pubs; }
      if a in AddressesOn(r, t) { var k :| k in r.pubs && k.1 == t && r.pubs[k] == a; assert k == (k.0, t) && k.0 in TopicAt(tb, t).publishing; }
    }
  }

  /** Exactly the registered subscribers of the topic are told of a new publisher, of its address and no other. */
  lemma PublishingTells(s: State, r: Relation, n: Node, m: Node, t: Topic, a: Address)
    requires Allowed(s, Handle(n)) && Refines(s.tables, r) && s.nodes[n].outgoing[0] == AddPub(t, a) && m in s.nodes
    ensures HandleStep(s, n).nodes[m].incoming == s.nodes[m].incoming + if (m, t) in r.subs then [Notice(t, {a})] else []
    ensures HandleStep(s, n).nodes[m].response == s.nodes[m].response
  {
    HandledNodes(s, n, m);
    assert PairIs(s.tables, r, m, t);
  }

  /** The other requests tell nobody anything. */
  lemma RemovalTellsNobody(s: State, n: Node, m: Node)
    requires Allowed(s, Handle(n)) && !s.nodes[n].outgoing[0].AddPub? && !s.nodes[n].outgoing[0].AddSub? && m in s.nodes
    ensures var d, d' := s.nodes[m], HandleStep(s, n).nodes[m];
      d' == d.(outgoing := if m == n then d.outgoing[1..] else d.outgoing)
  {
    HandledNodes(s, n, m);
  }

  lemma StepSources(s: State, r: Relation, ev: Event)
    requires Sources(s, r) && Allowed(s, ev) && Refines(s.tables, r)
    ensures Sources(Next(s, ev), UpdateAt(s, r, ev))
  {
    if ev.Handle? { HandleSources(s, r, ev.node); }
    else if ev.Join? { JoinSources(s, r, ev.node, ev.name); }
    else if ev.Respond? { RespondSources(s, r, ev.node); }
    else if ev.Receive? { ReceiveSources(s, r, ev.node); }
    else if ev.Drop? { DropSources(s, r, ev.node, ev.topic, ev.address); }
    else { NodeStepSources(s, r, ev); }
  }

  lemma {:induction false} SourcesAlways(s: State, r: Relation, events: seq<Event>) returns (r': Relation)
    requires Inv(s, r) && Sources(s, r)
    ensures Sources(Run(s, events), r')
    decreases |events|
  {
    if events == [] {
      r' := r;
    } else if Allowed(s, events[0]) {
      StepKeeps(s, r, events[0]);
      StepSources(s, r, events[0]);
      r' := SourcesAlways(Next(s, events[0]), UpdateAt(s, r, events[0]), events[1..]);
    } else {
      r' := SourcesAlways(s, r, events[1..]);
    }
  }

  /**
   * In every run whatever a node is told, is about to be told, or is connected to for a topic was announced in an
   * addPublisher request for that topic; and a live publisher at such an address is one on that topic.
   */
  lemma OnlyItsTopic(events: seq<Event>, n: Node, t: Topic, a: Address)
    requires n in Run(START, events).nodes && OnItsWay(Run(START, events).nodes[n], t, a)
    ensures var s := Run(START, events);
      && (t, a) in s.announced
      && (IsLive(s, a) ==> exists p :: p in s.nodes && t in s.nodes[p].pubs && s.nodes[p].pubs[t] == a)
  {
    assert Inv(START, NOBODY);
    var r := SourcesAlways(START, NOBODY, events);
    var s := Run(START, events);
    assert NodeSourced(s.nodes[n], s.announced);
    if IsLive(s, a) {
      var p :| p in s.nodes && a in s.nodes[p].pubs.Values;
      assert Placed(s.nodes[p], s.topicOf);
    }
  }
}
