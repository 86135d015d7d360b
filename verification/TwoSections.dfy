/**
 * addPublisher and addSubscriber as they really run: the section under the topic lock and the section under the node
 * lock are separate, and sections of different nodes' operations interleave. Each node's operations come one at a time,
 * from the receive cycle of its connection; nothing is removed.
 */
module TwoSections {
  import opened MediatorTables

  /** An operation between its two sections, with the snapshot the topic section took. */
  datatype Flight =
    | Publishing(topic: Topic, address: Address, subscribers: set<Node>)
    | Subscribing(topic: Topic, publishers: set<Node>)

  type Key = (Node, Topic)

  datatype State = State(
    tables: Tables,
    flights: map<Node, Flight>,
    clock: nat,
    // Histories, per node and topic: when each section ran, what the topic section saw, the address published
    pubTopicAt: map<Key, nat>, pubNodeAt: map<Key, nat>,
    subTopicAt: map<Key, nat>, subNodeAt: map<Key, nat>,
    pubSaw: map<Key, set<Node>>, subSaw: map<Key, set<Node>>,
    address: map<Key, Address>,
    told: set<(Key, Node, Address)>)  // the subscriber was told to connect to the publisher at the address

  const START: State := State(Tables(map[], map[]), map[], 0, map[], map[], map[], map[], map[], map[], map[], {})

  datatype Event =
    | Join(node: Node)
    | BeginPublish(node: Node, topic: Topic, to: Address)
    | EndPublish(node: Node)
    | BeginSubscribe(node: Node, topic: Topic)
    | EndSubscribe(node: Node)

  predicate Allowed(s: State, ev: Event) {
    match ev
    case Join(n) => n !in s.tables.nodes
    case BeginPublish(n, t, a) =>
      n in s.tables.nodes && n !in s.flights && (n, t) !in s.pubTopicAt && a != DEFAULT_ADDRESS
    case EndPublish(n) => n in s.flights && s.flights[n].Publishing?
    case BeginSubscribe(n, t) => n in s.tables.nodes && n !in s.flights && (n, t) !in s.subTopicAt
    case EndSubscribe(n) => n in s.flights && s.flights[n].Subscribing?
  }

  function Begin(s: State, n: Node, f: Flight): State { s.(flights := s.flights[n := f], clock := s.clock + 1) }

  function PublishTopic(s: State, n: Node, t: Topic, a: Address): State {
    var saw := TopicAt(s.tables, t).subscribing;
    Begin(s, n, Publishing(t, a, saw)).(
      tables := PublisherTopicSection(s.tables, n, t),
      pubTopicAt := s.pubTopicAt[(n, t) := s.clock], pubSaw := s.pubSaw[(n, t) := saw], address := s.address[(n, t) := a])
  }

  function PublishNode(s: State, n: Node, f: Flight): State
    requires f.Publishing?
  {
    s.(tables := PublisherNodeSection(s.tables, n, f.topic, f.address),
       flights := s.flights - {n}, clock := s.clock + 1,
       pubNodeAt := s.pubNodeAt[(n, f.topic) := s.clock],
       told := s.told + set q | q in f.subscribers :: ((q, f.topic), n, f.address))
  }

  function SubscribeTopic(s: State, n: Node, t: Topic): State {
    var saw := TopicAt(s.tables, t).publishing;
    Begin(s, n, Subscribing(t, saw)).(
      tables := SubscriberTopicSection(s.tables, n, t),
      subTopicAt := s.subTopicAt[(n, t) := s.clock], subSaw := s.subSaw[(n, t) := saw])
  }

  function SubscribeNode(s: State, n: Node, f: Flight): State
    requires f.Subscribing?
  {
    s.(tables := SubscriberNodeSection(s.tables, n, f.topic, f.publishers),
       flights := s.flights - {n}, clock := s.clock + 1,
       subNodeAt := s.subNodeAt[(n, f.topic) := s.clock],
       told := s.told + set p | p in f.publishers :: ((n, f.topic), p, LookUp(Subscribed(s.tables, n, f.topic), p, f.topic)))
  }

  function Next(s: State, ev: Event): State
    requires Allowed(s, ev)
  {
    match ev
    case Join(n) => s.(tables := Accept(s.tables, n))
    case BeginPublish(n, t, a) => PublishTopic(s, n, t, a)
    case EndPublish(n) => PublishNode(s, n, s.flights[n])
    case BeginSubscribe(n, t) => SubscribeTopic(s, n, t)
    case EndSubscribe(n) => SubscribeNode(s, n, s.flights[n])
  }

  function Run(s: State, events: seq<Event>): State
    decreases |events|
  {
    if events == [] then s
    else if Allowed(s, events[0]) then Run(Next(s, events[0]), events[1..])
    else Run(s, events[1..])
  }

  // ---------- The invariant, pair by pair ----------

  /** A publisher's sections, its table entries, and its operation in flight. */
  ghost predicate PubFacts(s: State, p: Node, t: Topic) {
    var k := (p, t);
    && (Publishes(s.tables, p, t) <==> k in s.pubTopicAt)
    && (k in s.pubTopicAt <==> k in s.pubSaw) && (k in s.pubTopicAt <==> k in s.address)
    && (k in s.pubTopicAt ==> s.pubTopicAt[k] < s.clock && p in s.tables.nodes && s.address[k] != DEFAULT_ADDRESS)
    && (k in s.pubNodeAt ==> k in s.pubTopicAt && s.pubTopicAt[k] < s.pubNodeAt[k] < s.clock)
    && (k in s.pubNodeAt ==> HasAddress(s.tables, p, t) && NodeAt(s.tables, p).addresses[t] == s.address[k])
    && (HasAddress(s.tables, p, t) ==> k in s.pubTopicAt)
    && (HasAddress(s.tables, p, t) && k !in s.pubNodeAt ==> NodeAt(s.tables, p).addresses[t] == DEFAULT_ADDRESS)
    && (k in s.pubTopicAt && k !in s.pubNodeAt <==>
        p in s.flights && s.flights[p].Publishing? && s.flights[p].topic == t)
    && (p in s.flights && s.flights[p].Publishing? && s.flights[p].topic == t && k in s.pubTopicAt ==>
        s.flights[p] == Publishing(t, s.address[k], s.pubSaw[k]))
  }

  ghost predicate SubFacts(s: State, q: Node, t: Topic) {
    var k := (q, t);
    && (Subscribes(s.tables, q, t) <==> k in s.subTopicAt)
    && (k in s.subTopicAt <==> k in s.subSaw)
    && (k in s.subTopicAt ==> s.subTopicAt[k] < s.clock && q in s.tables.nodes)
    && (k in s.subNodeAt ==> k in s.subTopicAt && s.subTopicAt[k] < s.subNodeAt[k] < s.clock)
    && (ListsTopic(s.tables, q, t) <==> k in s.subNodeAt)
    && (k in s.subTopicAt && k !in s.subNodeAt <==>
        q in s.flights && s.flights[q].Subscribing? && s.flights[q].topic == t)
    && (q in s.flights && s.flights[q].Subscribing? && s.flights[q].topic == t && k in s.subTopicAt ==>
        s.flights[q] == Subscribing(t, s.subSaw[k]))
  }

  /** What a publisher's and a subscriber's topic sections saw of each other, and what the subscriber was told. */
  ghost predicate PairFacts(s: State, p: Node, q: Node, t: Topic)
    requires PubFacts(s, p, t) && SubFacts(s, q, t)
  {
    var kp, kq := (p, t), (q, t);
    && (kp in s.pubTopicAt ==> (q in s.pubSaw[kp] <==> kq in s.subTopicAt && s.subTopicAt[kq] < s.pubTopicAt[kp]))
    && (kq in s.subTopicAt ==> (p in s.subSaw[kq] <==> kp in s.pubTopicAt && s.pubTopicAt[kp] < s.subTopicAt[kq]))
    && (kp in s.pubTopicAt && kq in s.subTopicAt ==> s.pubTopicAt[kp] != s.subTopicAt[kq])
    && (kp in s.pubNodeAt && kq in s.subNodeAt ==> s.pubNodeAt[kp] != s.subNodeAt[kq])
    && (kp in s.pubTopicAt ==> ((kq, p, s.address[kp]) in s.told <==>
         || (kp in s.pubNodeAt && q in s.pubSaw[kp])
         || (kq in s.subNodeAt && p in s.subSaw[kq] && kp in s.pubNodeAt && s.pubNodeAt[kp] < s.subNodeAt[kq])))
    && (kp !in s.pubTopicAt ==> forall a :: (kq, p, a) !in s.told)
  }

  ghost predicate Triple(s: State, p: Node, q: Node, t: Topic) {
    PubFacts(s, p, t) && SubFacts(s, q, t) && PairFacts(s, p, q, t)
  }

  ghost predicate Inv(s: State) { forall p, q, t :: Triple(s, p, q, t) }

  lemma JoinKeeps(s: State, n: Node, p: Node, q: Node, t: Topic)
    requires Triple(s, p, q, t) && Allowed(s, Join(n))
    ensures Triple(Next(s, Join(n)), p, q, t)
  {
  }

  lemma PublishTopicPub(s: State, n: Node, u: Topic, a: Address, p: Node, t: Topic)
    requires PubFacts(s, p, t) && Allowed(s, BeginPublish(n, u, a))
    ensures PubFacts(PublishTopic(s, n, u, a), p, t)
  {
  }

  lemma PublishTopicSub(s: State, n: Node, u: Topic, a: Address, q: Node, t: Topic)
    requires SubFacts(s, q, t) && Allowed(s, BeginPublish(n, u, a))
    ensures SubFacts(PublishTopic(s, n, u, a), q, t)
  {
  }

  lemma PublishTopicPair(s: State, n: Node, u: Topic, a: Address, p: Node, q: Node, t: Topic)
    requires Triple(s, p, q, t) && Allowed(s, BeginPublish(n, u, a))
    ensures Triple(PublishTopic(s, n, u, a), p, q, t)
  {
    PublishTopicPub(s, n, u, a, p, t);
    PublishTopicSub(s, n, u, a, q, t);
  }

  lemma PublishNodeEach(s: State, n: Node, p: Node, q: Node, t: Topic)
    requires PubFacts(s, p, t) && SubFacts(s, q, t) && Allowed(s, EndPublish(n)) && PubFacts(s, n, s.flights[n].topic)
    ensures PubFacts(PublishNode(s, n, s.flights[n]), p, t) && SubFacts(PublishNode(s, n, s.flights[n]), q, t)
  {
  }

  lemma PublishNodePair(s: State, n: Node, p: Node, q: Node, t: Topic)
    requires Triple(s, p, q, t) && Allowed(s, EndPublish(n)) && PubFacts(s, n, s.flights[n].topic)
    ensures Triple(PublishNode(s, n, s.flights[n]), p, q, t)
  {
    PublishNodeEach(s, n, p, q, t);
  }

  lemma SubscribeTopicPub(s: State, n: Node, u: Topic, p: Node, t: Topic)
    requires PubFacts(s, p, t) && Allowed(s, BeginSubscribe(n, u))
    ensures PubFacts(SubscribeTopic(s, n, u), p, t)
  {
  }

  lemma SubscribeTopicSub(s: State, n: Node, u: Topic, q: Node, t: Topic)
    requires SubFacts(s, q, t) && Allowed(s, BeginSubscribe(n, u))
    ensures SubFacts(SubscribeTopic(s, n, u), q, t)
  {
  }

  lemma SubscribeTopicPair(s: State, n: Node, u: Topic, p: Node, q: Node, t: Topic)
    requires Triple(s, p, q, t) && Allowed(s, BeginSubscribe(n, u))
    ensures Triple(SubscribeTopic(s, n, u), p, q, t)
  {
    SubscribeTopicPub(s, n, u, p, t);
    SubscribeTopicSub(s, n, u, q, t);
  }

  lemma SubscribeNodePub(s: State, n: Node, p: Node, t: Topic)
    requires PubFacts(s, p, t) && Allowed(s, EndSubscribe(n)) && Triple(s, p, n, s.flights[n].topic)
    ensures PubFacts(SubscribeNode(s, n, s.flights[n]), p, t)
  {
  }

  lemma SubscribeNodeSub(s: State, n: Node, q: Node, t: Topic)
    requires SubFacts(s, q, t) && Allowed(s, EndSubscribe(n)) && SubFacts(s, n, s.flights[n].topic)
    ensures SubFacts(SubscribeNode(s, n, s.flights[n]), q, t)
  {
  }

  /** The lookups of the node section may insert default addresses, but only for publishers whose node section is to come. */
  lemma SubscribeNodePair(s: State, n: Node, p: Node, q: Node, t: Topic)
    requires Triple(s, p, q, t) && Allowed(s, EndSubscribe(n)) && Triple(s, p, n, s.flights[n].topic)
    ensures Triple(SubscribeNode(s, n, s.flights[n]), p, q, t)
  {
    SubscribeNodePub(s, n, p, t);
    SubscribeNodeSub(s, n, q, t);
  }

  lemma StepKeeps(s: State, ev: Event)
    requires Inv(s) && Allowed(s, ev)
    ensures Inv(Next(s, ev))
  {
    var s' := Next(s, ev);
    forall p, q, t ensures Triple(s', p, q, t) {
      assert Triple(s, p, q, t);
      match ev
      case Join(n) => JoinKeeps(s, n, p, q, t);
      case BeginPublish(n, u, a) => PublishTopicPair(s, n, u, a, p, q, t);
      case EndPublish(n) =>
        assert Triple(s, n, n, s.flights[n].topic);
        PublishNodePair(s, n, p, q, t);
      case BeginSubscribe(n, u) => SubscribeTopicPair(s, n, u, p, q, t);
      case EndSubscribe(n) =>
        assert Triple(s, p, n, s.flights[n].topic);
        SubscribeNodePair(s, n, p, q, t);
    }
  }

  lemma {:induction false} InvAlways(s: State, events: seq<Event>)
    requires Inv(s)
    ensures Inv(Run(s, events))
    decreases |events|
  {
    if events != [] {
      if Allowed(s, events[0]) {
        StepKeeps(s, events[0]);
        InvAlways(Next(s, events[0]), events[1..]);
      } else {
        InvAlways(s, events[1..]);
      }
    }
  }

  lemma StartHolds()
    ensures Inv(START)
  {
  }

  /**
   * Exactly one sees the other: of a publisher and a subscriber of a topic whose topic sections have run, exactly one
   * found the other in its snapshot.
   */
  lemma ExactlyOneSeesTheOther(events: seq<Event>, p: Node, q: Node, t: Topic)
    requires var s := Run(START, events); (p, t) in s.pubSaw && (q, t) in s.subSaw
    ensures var s := Run(START, events); (q in s.pubSaw[(p, t)]) != (p in s.subSaw[(q, t)])
  {
    StartHolds();
    InvAlways(START, events);
    assert Triple(Run(START, events), p, q, t);
  }

  /** Both indexes agree about every node that has no operation between its sections. */
  lemma IdleNodesAgree(events: seq<Event>, n: Node, t: Topic)
    requires n !in Run(START, events).flights
    ensures var tb := Run(START, events).tables;
      (Publishes(tb, n, t) <==> HasAddress(tb, n, t)) && (Subscribes(tb, n, t) <==> ListsTopic(tb, n, t))
  {
    StartHolds();
    InvAlways(START, events);
    assert Triple(Run(START, events), n, n, t);
  }

  /** The whole of addSubscriber ran between the two sections of addPublisher. */
  predicate Nested(s: State, p: Node, q: Node, t: Topic)
    requires (p, t) in s.pubTopicAt && (p, t) in s.pubNodeAt && (q, t) in s.subTopicAt && (q, t) in s.subNodeAt
  {
    s.pubTopicAt[(p, t)] < s.subTopicAt[(q, t)] && s.subNodeAt[(q, t)] < s.pubNodeAt[(p, t)]
  }

  /**
   * When both operations are complete the subscriber has been told the publisher's address, unless addSubscriber ran
   * wholly between the two sections of addPublisher: then its lookup found the default address, and nobody tells it the
   * real one.
   */
  lemma ToldUnlessNested(events: seq<Event>, p: Node, q: Node, t: Topic)
    requires var s := Run(START, events); (p, t) in s.pubNodeAt && (q, t) in s.subNodeAt
    ensures var s := Run(START, events);
      && (p, t) in s.pubTopicAt && (q, t) in s.subTopicAt && (p, t) in s.address
      && (((q, t), p, s.address[(p, t)]) in s.told <==> !Nested(s, p, q, t))
  {
    StartHolds();
    InvAlways(START, events);
    assert Triple(Run(START, events), p, q, t);
  }

  lemma RunHead(s: State, ev: Event, rest: seq<Event>)
    requires Allowed(s, ev)
    ensures Run(s, [ev] + rest) == Run(Next(s, ev), rest)
  {
    assert ([ev] + rest)[1..] == rest;
  }

  /** Both nodes are there and nothing has happened to the topic. */
  function Joined(p: Node, q: Node): State
    requires p != q
  {
    Next(Next(START, Join(p)), Join(q))
  }

  lemma NestedEnd(p: Node, q: Node, t: Topic, a: Address) returns (e: State)
    requires p != q && a != DEFAULT_ADDRESS
    ensures e == Run(Joined(p, q), [BeginPublish(p, t, a)] + ([BeginSubscribe(q, t)] + ([EndSubscribe(q)] + ([EndPublish(p)] + []))))
    ensures (p, t) in e.pubNodeAt && (q, t) in e.subNodeAt && ((q, t), p, a) !in e.told
  {
    var s1 := Next(Joined(p, q), BeginPublish(p, t, a));
    var s2 := Next(s1, BeginSubscribe(q, t));
    var s3 := Next(s2, EndSubscribe(q));
    e := Next(s3, EndPublish(p));
    RunHead(s3, EndPublish(p), []);
    RunHead(s2, EndSubscribe(q), [EndPublish(p)] + []);
    RunHead(s1, BeginSubscribe(q, t), [EndSubscribe(q)] + ([EndPublish(p)] + []));
    RunHead(Joined(p, q), BeginPublish(p, t, a), [BeginSubscribe(q, t)] + ([EndSubscribe(q)] + ([EndPublish(p)] + [])));
  }

  /** The nested order does occur: here nobody tells the subscriber the address. */
  lemma NestedHappens(p: Node, q: Node, t: Topic, a: Address)
    requires p != q && a != DEFAULT_ADDRESS
    ensures var s := Run(START, [Join(p), Join(q), BeginPublish(p, t, a), BeginSubscribe(q, t), EndSubscribe(q), EndPublish(p)]);
      (p, t) in s.pubNodeAt && (q, t) in s.subNodeAt && ((q, t), p, a) !in s.told
  {
    var e := NestedEnd(p, q, t, a);
    var rest := [BeginPublish(p, t, a), BeginSubscribe(q, t), EndSubscribe(q), EndPublish(p)];
    assert rest == [BeginPublish(p, t, a)] + ([BeginSubscribe(q, t)] + ([EndSubscribe(q)] + ([EndPublish(p)] + [])));
    RunHead(Next(START, Join(p)), Join(q), rest);
    RunHead(START, Join(p), [Join(q)] + rest);
    assert [Join(p)] + ([Join(q)] + rest)
      == [Join(p), Join(q), BeginPublish(p, t, a), BeginSubscribe(q, t), EndSubscribe(q), EndPublish(p)];
  }
}
