/** The Node object: its publishers and subscribers, changed in place, and its requests to the Mediator. */
module Nodes {
  import NodeShutdown
  import opened MediatorTables
  import opened Matchmaking
  import opened Options

  ghost function Reachable(addresses: seq<Address>, listening: set<Address>): set<Address> {
    set a | a in addresses && a in listening
  }

  class Node {
    const uri: MediatorTables.Node
    var open: bool
    var outgoing: seq<Request>
    var incoming: seq<Notice>
    var listeners: map<Topic, Address>       // publishers that listen; publishers_ itself is not modelled
    var newPublishers: set<Topic>
    var stoppedPublishers: map<Topic, Address>
    var subscribers: map<Topic, set<Address>>
    var newSubscribers: set<Topic>
    var stoppedSubscribers: set<Topic>
    var disconnected: set<Topic>             // subscribers told to disconnect

    /** The node as matchmaking sees it; the pending response and the last history are the Mediator's. */
    ghost function View(response: Option<Notice>, asked: set<Topic>): NodeState
      reads this
    {
      NodeState(open, outgoing, incoming, response, listeners, newPublishers, stoppedPublishers,
                subscribers, newSubscribers, stoppedSubscribers, asked)
    }

    constructor (uri: MediatorTables.Node)
      ensures View(None, {}) == NewNode() && disconnected == {} && this.uri == uri
    {
      this.uri := uri;
      open, outgoing, incoming := true, [], [];
      listeners, newPublishers, stoppedPublishers := map[], {}, map[];
      subscribers, newSubscribers, stoppedSubscribers := map[], {}, {};
      disconnected := {};
    }

    /**
     * When a request is sent, what it says is so: a publisher that is added listens, a subscriber that is added is in the
     * container, and one that is removed does not or is not any more.
     */
    method SendRequest(m: Request)
      requires m.AddPub? ==> m.topic in listeners && listeners[m.topic] == m.address
      requires m.AddSub? ==> m.topic in subscribers
      requires m.RemPub? ==> m.topic !in listeners
      requires m.RemSub? ==> m.topic !in subscribers
      modifies this`outgoing
      ensures outgoing == if open then old(outgoing) + [m] else old(outgoing)
    {
      if open { outgoing := outgoing + [m]; }
    }

    /** createPublisher up to its request: the publisher listens. */
    method RegisterPublisher(t: Topic, a: Address)
      requires t !in listeners && t !in stoppedPublishers
      modifies this`listeners, this`newPublishers
      ensures forall r, k :: View(r, k) == NodeStep(old(View(r, k)), Event.CreatePublisher(uri, t, a))
      ensures t in newPublishers && t in listeners
    {
      listeners := listeners[t := a];
      newPublishers := newPublishers + {t};
    }

    method AnnouncePublisher(t: Topic)
      requires t in newPublishers && t in listeners
      modifies this`newPublishers, this`outgoing
      ensures forall r, k :: View(r, k) == NodeStep(old(View(r, k)), Event.AnnouncePublisher(uri, t))
    {
      SendRequest(AddPub(t, listeners[t]));
      newPublishers := newPublishers - {t};
    }

    method CreatePublisher(t: Topic, a: Address)
      requires t !in listeners && t !in stoppedPublishers
      modifies this`listeners, this`newPublishers, this`outgoing
      ensures forall r, k ::
        View(r, k) == NodeStep(NodeStep(old(View(r, k)), Event.CreatePublisher(uri, t, a)), Event.AnnouncePublisher(uri, t))
    {
      RegisterPublisher(t, a);
      AnnouncePublisher(t);
    }

    /** createSubscriber up to its request. */
    method RegisterSubscriber(t: Topic)
      requires t !in subscribers && t !in stoppedSubscribers
      modifies this`subscribers, this`newSubscribers
      ensures forall r, k :: View(r, k) == NodeStep(old(View(r, k)), Event.CreateSubscriber(uri, t))
      ensures t in newSubscribers && t in subscribers
    {
      subscribers := subscribers[t := {}];
      newSubscribers := newSubscribers + {t};
    }

    method AnnounceSubscriber(t: Topic)
      requires t in newSubscribers && t in subscribers
      modifies this`newSubscribers, this`outgoing
      ensures forall r, k :: View(r, k) == NodeStep(old(View(r, k)), Event.AnnounceSubscriber(uri, t))
    {
      SendRequest(AddSub(t));
      newSubscribers := newSubscribers - {t};
    }

    method CreateSubscriber(t: Topic)
      requires t !in subscribers && t !in stoppedSubscribers
      modifies this`subscribers, this`newSubscribers, this`outgoing
      ensures forall r, k ::
        View(r, k) == NodeStep(NodeStep(old(View(r, k)), Event.CreateSubscriber(uri, t)), Event.AnnounceSubscriber(uri, t))
    {
      RegisterSubscriber(t);
      AnnounceSubscriber(t);
    }

    /** A publisher's destructor up to its call of the node: its acceptor is closed. */
    method StopPublisher(t: Topic)
      requires t in listeners && t !in newPublishers
      modifies this`listeners, this`stoppedPublishers
      ensures forall r, k :: View(r, k) == NodeStep(old(View(r, k)), Event.StopPublisher(uri, t))
      ensures t in stoppedPublishers && t !in listeners
    {
      stoppedPublishers := stoppedPublishers[t := listeners[t]];
      listeners := listeners - {t};
    }

    method RemovePublisherByTopic(t: Topic)
      requires t in stoppedPublishers && t !in listeners
      modifies this`stoppedPublishers, this`outgoing
      ensures forall r, k :: View(r, k) == NodeStep(old(View(r, k)), Event.TellPublisher(uri, t))
    {
      SendRequest(RemPub(t));
      stoppedPublishers := stoppedPublishers - {t};
    }

    method DestroyPublisher(t: Topic)
      requires t in listeners && t !in newPublishers
      modifies this`listeners, this`stoppedPublishers, this`outgoing
      ensures forall r, k ::
        View(r, k) == NodeStep(NodeStep(old(View(r, k)), Event.StopPublisher(uri, t)), Event.TellPublisher(uri, t))
    {
      StopPublisher(t);
      RemovePublisherByTopic(t);
    }

    /** A subscriber goes: its last owner has let go of it, and removeSubscriberByTopic erases the entry. */
    method StopSubscriber(t: Topic)
      requires t in subscribers && t !in newSubscribers
      modifies this`subscribers, this`stoppedSubscribers
      ensures forall r, k :: View(r, k) == NodeStep(old(View(r, k)), Event.StopSubscriber(uri, t))
      ensures t in stoppedSubscribers && t !in subscribers
    {
      stoppedSubscribers := stoppedSubscribers + {t};
      subscribers := subscribers - {t};
    }

    method TellSubscriber(t: Topic)
      requires t in stoppedSubscribers && t !in subscribers
      modifies this`stoppedSubscribers, this`outgoing
      ensures forall r, k :: View(r, k) == NodeStep(old(View(r, k)), Event.TellSubscriber(uri, t))
    {
      SendRequest(RemSub(t));
      stoppedSubscribers := stoppedSubscribers - {t};
    }

    method RemoveSubscriberByTopic(t: Topic)
      requires t in subscribers && t !in newSubscribers
      modifies this`subscribers, this`stoppedSubscribers, this`outgoing
      ensures forall r, k ::
        View(r, k) == NodeStep(NodeStep(old(View(r, k)), Event.StopSubscriber(uri, t)), Event.TellSubscriber(uri, t))
    {
      StopSubscriber(t);
      TellSubscriber(t);
    }

    /**
     * connectSubscriberToPublishers: the live subscriber on the topic, if there is one, connects to each address in turn;
     * an address where nobody listens is passed over in silence. `listening` is the set of addresses somebody listens on.
     */
    method ConnectSubscriberToPublishers(t: Topic, addresses: seq<Address>, listening: set<Address>)
      modifies this`subscribers
      ensures subscribers == if t in old(subscribers)
        then old(subscribers)[t := old(subscribers)[t] + Reachable(addresses, listening)] else old(subscribers)
    {
      if t in subscribers {
        assert Reachable([], listening) == {} && subscribers[t] + {} == subscribers[t];
        assert subscribers == subscribers[t := subscribers[t]];
        for i := 0 to |addresses|
          invariant t in subscribers && subscribers[t] == old(subscribers)[t] + Reachable(addresses[..i], listening)
          invariant subscribers == old(subscribers)[t := subscribers[t]]
        {
          assert addresses[..i + 1] == addresses[..i] + [addresses[i]];
          assert Reachable(addresses[..i + 1], listening)
            == Reachable(addresses[..i], listening) + if addresses[i] in listening then {addresses[i]} else {};
          var connections := if addresses[i] in listening then subscribers[t] + {addresses[i]} else subscribers[t];
          assert connections == old(subscribers)[t] + Reachable(addresses[..i + 1], listening);
          subscribers := subscribers[t := connections];
        }
        assert addresses[..|addresses|] == addresses;
      }
    }

    /** The receiving thread handles the next notice, whose addresses come as a list in some order. */
    method HandleNotice(addresses: seq<Address>, ghost s: State, ghost n: MediatorTables.Node, listening: set<Address>)
      requires incoming != [] && (set a | a in addresses) == incoming[0].addresses
      requires n in s.nodes && s.nodes[n] == View(s.nodes[n].response, s.nodes[n].asked)
      requires forall a :: a in listening <==> IsLive(s, a)
      modifies this`incoming, this`subscribers
      ensures View(s.nodes[n].response, s.nodes[n].asked) == ReceiveStep(s, n).nodes[n]
    {
      var m := incoming[0];
      incoming := incoming[1..];
      ConnectSubscriberToPublishers(m.topic, addresses, listening);
      assert Reachable(addresses, listening) == set a | a in m.addresses && IsLive(s, a);
    }

    /** The part of disconnect that tells every subscriber, one after the other. */
    method DisconnectSubscribers()
      modifies this`disconnected
      ensures disconnected == old(disconnected) + subscribers.Keys
      ensures forall r: NodeShutdown.Roster :: r.live == subscribers.Keys && r.disconnected == old(disconnected) ==>
        NodeShutdown.Walk(r).disconnected == disconnected
    {
      var rest := subscribers.Keys;
      while rest != {}
        invariant rest <= subscribers.Keys && disconnected == old(disconnected) + (subscribers.Keys - rest)
        decreases rest
      {
        var t :| t in rest;
        disconnected := disconnected + {t};
        rest := rest - {t};
      }
    }
  }
}
