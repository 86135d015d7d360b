/**
 * The two tables of the Mediator as values, the sections of its operations as functions on them, and the one
 * publish/subscribe relation that both tables index.
 */
module MediatorTables {

  type Node = string
  type Topic = string
  datatype Address = Address(host: string, port: int)

  /** What operator[] puts where it finds no address. */
  const DEFAULT_ADDRESS: Address := Address("", 0)

  datatype TopicData = TopicData(publishing: set<Node>, subscribing: set<Node>)
  datatype NodeData = NodeData(name: string, connected: bool, addresses: map<Topic, Address>, subscribed: set<Topic>)
  datatype Tables = Tables(topics: map<Topic, TopicData>, nodes: map<Node, NodeData>)

  const NO_TOPIC: TopicData := TopicData({}, {})
  const NO_NODE: NodeData := NodeData("", false, map[], {})

  /** operator[] on the tables: a missing entry reads as a default one (the sections below insert it). */
  function TopicAt(tb: Tables, t: Topic): TopicData { if t in tb.topics then tb.topics[t] else NO_TOPIC }
  function NodeAt(tb: Tables, n: Node): NodeData { if n in tb.nodes then tb.nodes[n] else NO_NODE }

  function SetTopic(tb: Tables, t: Topic, d: TopicData): Tables { tb.(topics := tb.topics[t := d]) }
  function SetNode(tb: Tables, n: Node, d: NodeData): Tables { tb.(nodes := tb.nodes[n := d]) }

  // ---------- The sections ----------

  function Accept(tb: Tables, n: Node): Tables { SetNode(tb, n, NodeAt(tb, n).(connected := true)) }

  function AddNode(tb: Tables, n: Node, name: string): Tables { SetNode(tb, n, NodeAt(tb, n).(name := name)) }

  function PublisherTopicSection(tb: Tables, n: Node, t: Topic): Tables {
    var d := TopicAt(tb, t);
    SetTopic(tb, t, d.(publishing := d.publishing + {n}))
  }

  function PublisherNodeSection(tb: Tables, n: Node, t: Topic, a: Address): Tables {
    var d := NodeAt(tb, n);
    SetNode(tb, n, d.(addresses := d.addresses[t := a]))
  }

  function SubscriberTopicSection(tb: Tables, n: Node, t: Topic): Tables {
    var d := TopicAt(tb, t);
    SetTopic(tb, t, d.(subscribing := d.subscribing + {n}))
  }

  /** An address lookup by operator[] inserts the default address where there is none. */
  function Touched(d: NodeData, t: Topic): NodeData {
    if t in d.addresses then d else d.(addresses := d.addresses[t := DEFAULT_ADDRESS])
  }

  function Subscribed(tb: Tables, n: Node, t: Topic): Tables {
    var d := NodeAt(tb, n);
    SetNode(tb, n, d.(subscribed := d.subscribed + {t}))
  }

  function SubscriberNodeSection(tb: Tables, n: Node, t: Topic, pubs: set<Node>): Tables {
    var tb1 := Subscribed(tb, n, t);
    tb1.(nodes := map m | m in tb1.nodes.Keys + pubs :: if m in pubs then Touched(NodeAt(tb1, m), t) else tb1.nodes[m])
  }

  /** The address a lookup for publisher `p` finds. */
  function LookUp(tb: Tables, p: Node, t: Topic): Address { Touched(NodeAt(tb, p), t).addresses[t] }

  function RemovePublisher(tb: Tables, n: Node, t: Topic): Tables {
    var d := TopicAt(tb, t);
    var tb1 := SetTopic(tb, t, d.(publishing := d.publishing - {n}));
    SetNode(tb1, n, NodeAt(tb1, n).(addresses := NodeAt(tb1, n).addresses - {t}))
  }

  function RemoveSubscriber(tb: Tables, n: Node, t: Topic): Tables {
    var d := TopicAt(tb, t);
    var tb1 := SetTopic(tb, t, d.(subscribing := d.subscribing - {n}));
    SetNode(tb1, n, NodeAt(tb1, n).(subscribed := NodeAt(tb1, n).subscribed - {t}))
  }

  /** removeNode visits the topics listed in the node's own entry only. */
  function RemoveNode(tb: Tables, n: Node): Tables {
    var d := NodeAt(tb, n);
    Tables(map t | t in tb.topics.Keys + d.addresses.Keys + d.subscribed ::
             TopicData(TopicAt(tb, t).publishing - (if t in d.addresses then {n} else {}),
                       TopicAt(tb, t).subscribing - (if t in d.subscribed then {n} else {})),
           tb.nodes - {n})
  }

  function AddPublisher(tb: Tables, n: Node, t: Topic, a: Address): Tables {
    PublisherNodeSection(PublisherTopicSection(tb, n, t), n, t, a)
  }

  function AddSubscriber(tb: Tables, n: Node, t: Topic): Tables {
    SubscriberNodeSection(SubscriberTopicSection(tb, n, t), n, t, TopicAt(tb, t).publishing)
  }

  // ---------- The relation behind the tables ----------

  /** Who publishes what at which address, and who subscribes to what. */
  datatype Relation = Relation(pubs: map<(Node, Topic), Address>, subs: set<(Node, Topic)>)

  /** The addresses published on a topic. */
  function AddressesOn(r: Relation, t: Topic): set<Address> { set k | k in r.pubs && k.1 == t :: r.pubs[k] }

  const NOBODY: Relation := Relation(map[], {})

  predicate Publishes(tb: Tables, n: Node, t: Topic) { n in TopicAt(tb, t).publishing }
  predicate HasAddress(tb: Tables, n: Node, t: Topic) { t in NodeAt(tb, n).addresses }
  predicate Subscribes(tb: Tables, n: Node, t: Topic) { n in TopicAt(tb, t).subscribing }
  predicate ListsTopic(tb: Tables, n: Node, t: Topic) { t in NodeAt(tb, n).subscribed }

  /** Both tables say about node `n` and topic `t` what the relation says. */
  predicate PairIs(tb: Tables, r: Relation, n: Node, t: Topic) {
    && (Publishes(tb, n, t) <==> (n, t) in r.pubs)
    && (HasAddress(tb, n, t) <==> (n, t) in r.pubs)
    && ((n, t) in r.pubs ==> NodeAt(tb, n).addresses[t] == r.pubs[(n, t)])
    && (Subscribes(tb, n, t) <==> (n, t) in r.subs)
    && (ListsTopic(tb, n, t) <==> (n, t) in r.subs)
  }

  /** The tables are inverse indexes of the relation `r`. */
  ghost predicate Indexes(tb: Tables, r: Relation) { forall n, t :: PairIs(tb, r, n, t) }

  /** Every entry of the node table has a connection. */
  predicate AllConnected(tb: Tables) { forall n :: n in tb.nodes ==> tb.nodes[n].connected }

  ghost predicate Refines(tb: Tables, r: Relation) { Indexes(tb, r) && AllConnected(tb) }

  /** Tables index at most one relation. */
  lemma RelationUnique(tb: Tables, x: Relation, y: Relation)
    requires Indexes(tb, x) && Indexes(tb, y)
    ensures x == y
  {
    forall k: (Node, Topic)
      ensures (k in x.pubs <==> k in y.pubs) && (k in x.subs <==> k in y.subs)
      ensures k in x.pubs ==> x.pubs[k] == y.pubs[k]
    {
      assert PairIs(tb, x, k.0, k.1) && PairIs(tb, y, k.0, k.1);
    }
    assert x.pubs == y.pubs && x.subs == y.subs;
  }

  /** A node the topic table mentions has an entry, with a connection, in the node table. */
  lemma MentionedIsConnected(tb: Tables, r: Relation, n: Node, t: Topic)
    requires Refines(tb, r) && (Publishes(tb, n, t) || Subscribes(tb, n, t))
    ensures n in tb.nodes && tb.nodes[n].connected
  {
    assert PairIs(tb, r, n, t);
  }

  // ---------- Each operation is the obvious update of the relation ----------

  lemma AddPublisherAt(tb: Tables, r: Relation, n: Node, t: Topic, a: Address, m: Node, u: Topic)
    requires PairIs(tb, r, m, u)
    ensures PairIs(AddPublisher(tb, n, t, a), r.(pubs := r.pubs[(n, t) := a]), m, u)
  {
  }

  lemma AddPublisherRefines(tb: Tables, r: Relation, n: Node, t: Topic, a: Address)
    requires Refines(tb, r) && n in tb.nodes
    ensures Refines(AddPublisher(tb, n, t, a), r.(pubs := r.pubs[(n, t) := a]))
    ensures AddPublisher(tb, n, t, a).nodes.Keys == tb.nodes.Keys
  {
    var tb', r' := AddPublisher(tb, n, t, a), r.(pubs := r.pubs[(n, t) := a]);
    forall m, u ensures PairIs(tb', r', m, u) {
      AddPublisherAt(tb, r, n, t, a, m, u);
    }
  }

  lemma AddSubscriberAt(tb: Tables, r: Relation, n: Node, t: Topic, m: Node, u: Topic)
    requires PairIs(tb, r, m, u) && (u == t && Publishes(tb, m, t) ==> HasAddress(tb, m, t))
    ensures PairIs(AddSubscriber(tb, n, t), r.(subs := r.subs + {(n, t)}), m, u)
  {
  }

  lemma AddSubscriberRefines(tb: Tables, r: Relation, n: Node, t: Topic)
    requires Refines(tb, r) && n in tb.nodes
    ensures Refines(AddSubscriber(tb, n, t), r.(subs := r.subs + {(n, t)}))
    ensures AddSubscriber(tb, n, t).nodes.Keys == tb.nodes.Keys
  {
    forall p | p in TopicAt(tb, t).publishing ensures p in tb.nodes && HasAddress(tb, p, t) {
      assert PairIs(tb, r, p, t);
    }
    var tb', r' := AddSubscriber(tb, n, t), r.(subs := r.subs + {(n, t)});
    forall m, u ensures PairIs(tb', r', m, u) {
      AddSubscriberAt(tb, r, n, t, m, u);
    }
  }

  /** The lookups behind the response to addSubscriber find the addresses of the relation. */
  lemma AddSubscriberFinds(tb: Tables, r: Relation, n: Node, t: Topic, p: Node)
    requires Refines(tb, r)
    ensures p in TopicAt(tb, t).publishing <==> (p, t) in r.pubs
    ensures (p, t) in r.pubs ==> LookUp(Subscribed(SubscriberTopicSection(tb, n, t), n, t), p, t) == r.pubs[(p, t)]
  {
    assert PairIs(tb, r, p, t);
  }

  lemma RemovePublisherAt(tb: Tables, r: Relation, n: Node, t: Topic, m: Node, u: Topic)
    requires PairIs(tb, r, m, u)
    ensures PairIs(RemovePublisher(tb, n, t), r.(pubs := r.pubs - {(n, t)}), m, u)
  {
  }

  lemma RemovePublisherRefines(tb: Tables, r: Relation, n: Node, t: Topic)
    requires Refines(tb, r) && n in tb.nodes
    ensures Refines(RemovePublisher(tb, n, t), r.(pubs := r.pubs - {(n, t)}))
    ensures RemovePublisher(tb, n, t).nodes.Keys == tb.nodes.Keys
  {
    var tb', r' := RemovePublisher(tb, n, t), r.(pubs := r.pubs - {(n, t)});
    forall m, u ensures PairIs(tb', r', m, u) {
      RemovePublisherAt(tb, r, n, t, m, u);
    }
  }

  lemma RemoveSubscriberAt(tb: Tables, r: Relation, n: Node, t: Topic, m: Node, u: Topic)
    requires PairIs(tb, r, m, u)
    ensures PairIs(RemoveSubscriber(tb, n, t), r.(subs := r.subs - {(n, t)}), m, u)
  {
  }

  lemma RemoveSubscriberRefines(tb: Tables, r: Relation, n: Node, t: Topic)
    requires Refines(tb, r) && n in tb.nodes
    ensures Refines(RemoveSubscriber(tb, n, t), r.(subs := r.subs - {(n, t)}))
    ensures RemoveSubscriber(tb, n, t).nodes.Keys == tb.nodes.Keys
  {
    var tb', r' := RemoveSubscriber(tb, n, t), r.(subs := r.subs - {(n, t)});
    forall m, u ensures PairIs(tb', r', m, u) {
      RemoveSubscriberAt(tb, r, n, t, m, u);
    }
  }

  function WithoutNode(r: Relation, n: Node): Relation {
    Relation(map k | k in r.pubs && k.0 != n :: r.pubs[k], set k | k in r.subs && k.0 != n)
  }

  lemma RemoveNodeAt(tb: Tables, r: Relation, n: Node, m: Node, u: Topic)
    requires PairIs(tb, r, m, u)
    ensures PairIs(RemoveNode(tb, n), WithoutNode(r, n), m, u)
  {
  }

  /** Although only the node's own entries are visited, both tables forget the node entirely. */
  lemma RemoveNodeRefines(tb: Tables, r: Relation, n: Node)
    requires Refines(tb, r)
    ensures Refines(RemoveNode(tb, n), WithoutNode(r, n))
    ensures RemoveNode(tb, n).nodes.Keys == tb.nodes.Keys - {n}
    ensures forall t :: !Publishes(RemoveNode(tb, n), n, t) && !Subscribes(RemoveNode(tb, n), n, t)
  {
    forall m, u ensures PairIs(RemoveNode(tb, n), WithoutNode(r, n), m, u) {
      RemoveNodeAt(tb, r, n, m, u);
    }
    forall t ensures !Publishes(RemoveNode(tb, n), n, t) && !Subscribes(RemoveNode(tb, n), n, t) {
      assert PairIs(RemoveNode(tb, n), WithoutNode(r, n), n, t);
    }
  }

  /** A change of name or connection is invisible to the relation. */
  lemma EntryRefines(tb: Tables, r: Relation, n: Node, d: NodeData)
    requires Refines(tb, r)
    requires d.connected && d.addresses == NodeAt(tb, n).addresses && d.subscribed == NodeAt(tb, n).subscribed
    ensures Refines(SetNode(tb, n, d), r)
  {
    forall m, u ensures PairIs(SetNode(tb, n, d), r, m, u) {
      assert PairIs(tb, r, m, u);
    }
  }
}
