/** The Mediator object: its operations change the two tables in place and send on the nodes' connections. */
module Mediators {
  import opened MediatorTables

  /** A connectSubscriberToPublishers request. */
  datatype Connect = Connect(topic: Topic, addresses: seq<Address>)

  class Mediator {
    var topicTable: map<Topic, TopicData>
    var nodeTable: map<Node, NodeData>
    var outbox: map<Node, seq<Connect>>    // requests sent, per connection
    ghost var relation: Relation

    ghost function View(): Tables
      reads this
    {
      Tables(topicTable, nodeTable)
    }

    ghost predicate Valid()
      reads this
    {
      Refines(View(), relation) && outbox.Keys == nodeTable.Keys
    }

    constructor ()
      ensures Valid() && relation == NOBODY && nodeTable == map[]
    {
      topicTable, nodeTable, outbox, relation := map[], map[], map[], NOBODY;
    }

    /** operator[] on the topic table. */
    method TopicEntry(t: Topic) returns (d: TopicData)
      modifies this`topicTable
      ensures d == TopicAt(old(View()), t) && topicTable == old(topicTable)[t := d]
    {
      if t !in topicTable { topicTable := topicTable[t := NO_TOPIC]; }
      d := topicTable[t];
    }

    /** A connection is accepted: the entry of the node is made before the connection starts. */
    method Accept(n: Node)
      requires Valid()
      modifies this
      ensures Valid() && relation == old(relation) && View() == MediatorTables.Accept(old(View()), n)
      ensures outbox == old(outbox)[n := []]
    {
      var d := (if n in nodeTable then nodeTable[n] else NO_NODE).(connected := true);
      nodeTable := nodeTable[n := d];
      outbox := outbox[n := []];
      EntryRefines(old(View()), relation, n, d);
    }

    method AddNode(n: Node, name: string)
      requires Valid() && n in nodeTable
      modifies this`nodeTable
      ensures Valid() && View() == MediatorTables.AddNode(old(View()), n, name)
    {
      nodeTable := nodeTable[n := nodeTable[n].(name := name)];
      EntryRefines(old(View()), relation, n, nodeTable[n]);
    }

    /**
     * A connection from its acceptance to its receive cycle. addNode, the connecting callback, has its entry to write to
     * because the entry is made before the connection starts.
     */
    method HandleConnection(n: Node, name: string)
      requires Valid()
      modifies this
      ensures Valid() && relation == old(relation) && outbox == old(outbox)[n := []]
      ensures View() == MediatorTables.AddNode(MediatorTables.Accept(old(View()), n), n, name)
    {
      Accept(n);
      AddNode(n, name);
    }

    /** The loop that asks each of the given nodes to connect its subscriber to one address. */
    method NotifySubscribers(nodes: set<Node>, t: Topic, a: Address)
      requires forall s :: s in nodes ==> s in nodeTable && nodeTable[s].connected
      requires outbox.Keys == nodeTable.Keys
      modifies this`outbox
      ensures outbox.Keys == old(outbox).Keys
      ensures forall s :: s in outbox ==> outbox[s] == old(outbox)[s] + if s in nodes then [Connect(t, [a])] else []
    {
      var rest := nodes;
      while rest != {}
        invariant rest <= nodes && outbox.Keys == old(outbox).Keys
        invariant forall s :: s in outbox ==>
          outbox[s] == old(outbox)[s] + if s in nodes - rest then [Connect(t, [a])] else []
        decreases rest
      {
        var s :| s in rest;
        outbox := outbox[s := outbox[s] + [Connect(t, [a])]];
        rest := rest - {s};
      }
    }

    /** Every subscribing node is asked to connect to the new publisher, on a connection that exists. */
    method AddPublisher(n: Node, t: Topic, a: Address)
      requires Valid() && n in nodeTable
      modifies this
      ensures Valid() && View() == MediatorTables.AddPublisher(old(View()), n, t, a)
      ensures relation == old(relation).(pubs := old(relation).pubs[(n, t) := a])
      ensures outbox.Keys == old(outbox).Keys
      ensures forall s :: s in outbox ==>
        outbox[s] == old(outbox)[s] + if (s, t) in old(relation).subs then [Connect(t, [a])] else []
    {
      ghost var tb, r := View(), relation;
      var d := TopicEntry(t);
      topicTable := topicTable[t := d.(publishing := d.publishing + {n})];
      assert topicTable == PublisherTopicSection(tb, n, t).topics;
      var subscribingNodes := topicTable[t].subscribing;
      nodeTable := nodeTable[n := nodeTable[n].(addresses := nodeTable[n].addresses[t := a])];
      forall s ensures s in subscribingNodes <==> (s, t) in r.subs { assert PairIs(tb, r, s, t); }
      forall s | s in subscribingNodes ensures s in tb.nodes && tb.nodes[s].connected {
        MentionedIsConnected(tb, r, s, t);
      }
      NotifySubscribers(subscribingNodes, t, a);
      relation := r.(pubs := r.pubs[(n, t) := a]);
      AddPublisherRefines(tb, r, n, t, a);
    }

    /** The loop that looks the addresses of the given nodes up, by operator[]. */
    method CollectAddresses(nodes: set<Node>, t: Topic, ghost r: Relation) returns (addresses: seq<Address>)
      requires forall p :: p in nodes <==> (p, t) in r.pubs
      requires forall p :: p in nodes ==> p in nodeTable && t in nodeTable[p].addresses
      requires forall p :: p in nodes ==> nodeTable[p].addresses[t] == r.pubs[(p, t)]
      modifies this`nodeTable
      ensures nodeTable == old(nodeTable)
      ensures forall x :: x in addresses <==> x in AddressesOn(r, t)
    {
      addresses := [];
      var rest := nodes;
      while rest != {}
        invariant rest <= nodes && nodeTable == old(nodeTable)
        invariant forall p :: p in nodes - rest ==> r.pubs[(p, t)] in addresses
        invariant forall x :: x in addresses ==> x in AddressesOn(r, t)
        decreases rest
      {
        var p :| p in rest;
        assert (p, t) in r.pubs;
        var entry := Touched(nodeTable[p], t);
        nodeTable := nodeTable[p := entry];
        addresses := addresses + [entry.addresses[t]];
        rest := rest - {p};
      }
      forall x | x in AddressesOn(r, t) ensures x in addresses {
        var k :| k in r.pubs && k.1 == t && r.pubs[k] == x;
        assert k == (k.0, t) && k.0 in nodes;
      }
    }

    /** The response lists the addresses of exactly the publishers of the topic. */
    method AddSubscriber(n: Node, t: Topic) returns (response: Connect)
      requires Valid() && n in nodeTable
      modifies this
      ensures Valid() && View() == MediatorTables.AddSubscriber(old(View()), n, t)
      ensures relation == old(relation).(subs := old(relation).subs + {(n, t)}) && outbox == old(outbox)
      ensures response.topic == t
      ensures forall x :: x in response.addresses <==> x in AddressesOn(relation, t)
    {
      ghost var tb, r := View(), relation;
      var d := TopicEntry(t);
      topicTable := topicTable[t := d.(subscribing := d.subscribing + {n})];
      assert topicTable == SubscriberTopicSection(tb, n, t).topics;
      var publishingNodes := topicTable[t].publishing;
      nodeTable := nodeTable[n := nodeTable[n].(subscribed := nodeTable[n].subscribed + {t})];
      forall p ensures p in publishingNodes <==> (p, t) in r.pubs
        ensures p in publishingNodes ==> p in nodeTable && t in nodeTable[p].addresses && nodeTable[p].addresses[t] == r.pubs[(p, t)]
      {
        assert PairIs(tb, r, p, t);
      }
      var addresses := CollectAddresses(publishingNodes, t, r);
      response := Connect(t, addresses);
      relation := r.(subs := r.subs + {(n, t)});
      AddSubscriberRefines(tb, r, n, t);
      AddSubscriberKeepsNodes(tb, r, n, t);
    }

    /** The first walk of removeNode, over the topics the node publishes on. */
    method LeavePublishers(n: Node, published: set<Topic>)
      modifies this`topicTable
      ensures topicTable == WithoutPublisher(old(View()), n, published)
    {
      ghost var tb := View();
      var rest := published;
      while rest != {}
        invariant rest <= published && topicTable == WithoutPublisher(tb, n, published - rest)
        decreases rest
      {
        var t :| t in rest;
        var d := TopicEntry(t);
        topicTable := topicTable[t := d.(publishing := d.publishing - {n})];
        rest := rest - {t};
      }
    }

    /** The second walk, over the topics the node subscribes to. */
    method LeaveSubscribers(n: Node, subscribed: set<Topic>)
      modifies this`topicTable
      ensures topicTable == WithoutSubscriber(old(View()), n, subscribed)
    {
      ghost var tb := View();
      var rest := subscribed;
      while rest != {}
        invariant rest <= subscribed && topicTable == WithoutSubscriber(tb, n, subscribed - rest)
        decreases rest
      {
        var t :| t in rest;
        var d := TopicEntry(t);
        topicTable := topicTable[t := d.(subscribing := d.subscribing - {n})];
        rest := rest - {t};
      }
    }

    /** removeNode walks the topics of the node's own entry, and that is enough: no topic mentions the node afterwards. */
    method RemoveNode(n: Node)
      requires Valid() && n in nodeTable
      modifies this
      ensures Valid() && View() == MediatorTables.RemoveNode(old(View()), n)
      ensures relation == WithoutNode(old(relation), n)
      ensures outbox == old(outbox) - {n}
      ensures forall t :: t in topicTable ==> n !in topicTable[t].publishing && n !in topicTable[t].subscribing
    {
      ghost var tb, r := View(), relation;
      LeavePublishers(n, nodeTable[n].addresses.Keys);
      LeaveSubscribers(n, nodeTable[n].subscribed);
      BothWalks(tb, n);
      nodeTable := nodeTable - {n};
      outbox := outbox - {n};
      relation := WithoutNode(r, n);
      RemoveNodeRefines(tb, r, n);
      forall t | t in topicTable ensures n !in topicTable[t].publishing && n !in topicTable[t].subscribing {
        assert !Publishes(View(), n, t) && !Subscribes(View(), n, t);
      }
    }

    method RemovePublisher(n: Node, t: Topic)
      requires Valid() && n in nodeTable
      modifies this
      ensures Valid() && View() == MediatorTables.RemovePublisher(old(View()), n, t) && outbox == old(outbox)
      ensures relation == old(relation).(pubs := old(relation).pubs - {(n, t)})
    {
      ghost var tb := View();
      var d := TopicEntry(t);
      topicTable := topicTable[t := d.(publishing := d.publishing - {n})];
      assert topicTable == MediatorTables.RemovePublisher(tb, n, t).topics;
      nodeTable := nodeTable[n := nodeTable[n].(addresses := nodeTable[n].addresses - {t})];
      relation := relation.(pubs := relation.pubs - {(n, t)});
      RemovePublisherRefines(tb, old(relation), n, t);
    }

    method RemoveSubscriber(n: Node, t: Topic)
      requires Valid() && n in nodeTable
      modifies this
      ensures Valid() && View() == MediatorTables.RemoveSubscriber(old(View()), n, t) && outbox == old(outbox)
      ensures relation == old(relation).(subs := old(relation).subs - {(n, t)})
    {
      ghost var tb := View();
      var d := TopicEntry(t);
      topicTable := topicTable[t := d.(subscribing := d.subscribing - {n})];
      assert topicTable == MediatorTables.RemoveSubscriber(tb, n, t).topics;
      nodeTable := nodeTable[n := nodeTable[n].(subscribed := nodeTable[n].subscribed - {t})];
      relation := relation.(subs := relation.subs - {(n, t)});
      RemoveSubscriberRefines(tb, old(relation), n, t);
    }
  }

  /** With agreeing tables the lookups of addSubscriber insert nothing. */
  lemma AddSubscriberKeepsNodes(tb: Tables, r: Relation, n: Node, t: Topic)
    requires Refines(tb, r) && n in tb.nodes
    ensures MediatorTables.AddSubscriber(tb, n, t).nodes == Subscribed(tb, n, t).nodes
  {
    var nodes, nodes' := Subscribed(tb, n, t).nodes, MediatorTables.AddSubscriber(tb, n, t).nodes;
    forall m ensures (m in nodes' <==> m in nodes) && (m in nodes ==> nodes'[m] == nodes[m]) {
      assert PairIs(tb, r, m, t);
    }
  }

  /** The topic table after the node has left the publishers of the topics `ts`. */
  ghost function WithoutPublisher(tb: Tables, n: Node, ts: set<Topic>): map<Topic, TopicData> {
    map t | t in tb.topics.Keys + ts ::
      if t in ts then TopicAt(tb, t).(publishing := TopicAt(tb, t).publishing - {n}) else tb.topics[t]
  }

  ghost function WithoutSubscriber(tb: Tables, n: Node, ts: set<Topic>): map<Topic, TopicData> {
    map t | t in tb.topics.Keys + ts ::
      if t in ts then TopicAt(tb, t).(subscribing := TopicAt(tb, t).subscribing - {n}) else tb.topics[t]
  }

  /** The walks over the published and then the subscribed topics do what removeNode is to do with the topic table. */
  lemma BothWalks(tb: Tables, n: Node)
    ensures var d := NodeAt(tb, n);
      WithoutSubscriber(tb.(topics := WithoutPublisher(tb, n, d.addresses.Keys)), n, d.subscribed)
      == MediatorTables.RemoveNode(tb, n).topics
  {
    var d := NodeAt(tb, n);
    var tb1 := tb.(topics := WithoutPublisher(tb, n, d.addresses.Keys));
    var walked, target := WithoutSubscriber(tb1, n, d.subscribed), MediatorTables.RemoveNode(tb, n).topics;
    assert walked.Keys == target.Keys;
    forall t | t in target ensures walked[t] == target[t] {
      assert TopicAt(tb1, t).publishing == TopicAt(tb, t).publishing - if t in d.addresses then {n} else {};
    }
  }
}
