/**
 * Matchmaking over whole runs: nodes create and destroy publishers and subscribers, their requests travel in order to
 * the Mediator, which performs each atomically, and its connect requests and responses travel in order back.
 */
module Matchmaking {
  import opened MediatorTables
  import opened Options

  /** What a node sends to the Mediator. Bye is the closing message. */
  datatype Request =
    | AddPub(topic: Topic, address: Address)
    | AddSub(topic: Topic)
    | RemPub(topic: Topic)
    | RemSub(topic: Topic)
    | Bye

  /** A connectSubscriberToPublishers request or response. */
  datatype Notice = Notice(topic: Topic, addresses: set<Address>)

  datatype NodeState = NodeState(
    open: bool,                          // the node has not begun to close its connection
    outgoing: seq<Request>,              // the channel to the Mediator
    incoming: seq<Notice>,               // the channel from the Mediator
    response: Option<Notice>,            // computed by addSubscriber and not yet sent
    pubs: map<Topic, Address>,           // publishers that listen
    newPubs: set<Topic>,                 // those of them the Mediator is still to be told of
    stoppedPubs: map<Topic, Address>,    // publishers that are gone, the Mediator still to be told
    subs: map<Topic, set<Address>>,      // live subscribers with their publisher_connections_
    newSubs: set<Topic>,
    stoppedSubs: set<Topic>,
    asked: set<Topic>)                   // history: the topics of its addSubscriber requests that have been handled

  datatype State = State(
    tables: Tables,
    nodes: map<Node, NodeState>,
    // Histories
    topicOf: map<Address, Topic>,        // every address a publisher was made at, with its topic
    announced: set<(Topic, Address)>)    // what was sent in an addPublisher request

  const START: State := State(Tables(map[], map[]), map[], map[], {})

  datatype Event =
    | Join(node: Node, name: string)
    | CreatePublisher(node: Node, topic: Topic, address: Address)  // createPublisher up to its request
    | CreateSubscriber(node: Node, topic: Topic)                   // createSubscriber up to its request
    | AnnouncePublisher(node: Node, topic: Topic)                  // the request of createPublisher
    | AnnounceSubscriber(node: Node, topic: Topic)                 // the request of createSubscriber
    | StopPublisher(node: Node, topic: Topic)    // a publisher goes, up to the request of removePublisherByTopic
    | StopSubscriber(node: Node, topic: Topic)   // a subscriber goes, up to the request of removeSubscriberByTopic
    | TellPublisher(node: Node, topic: Topic)    // the request of removePublisherByTopic
    | TellSubscriber(node: Node, topic: Topic)   // the request of removeSubscriberByTopic
    | Depart(node: Node)                         // the node begins to close its connection
    | Halt(node: Node, gone: set<Topic>)         // and then some of its publishers stop listening
    | Handle(node: Node)                         // the Mediator handles the node's next request
    | Respond(node: Node)                        // the Mediator sends the pending response
    | Receive(node: Node)                        // the node handles its next notice
    | Drop(node: Node, topic: Topic, address: Address)  // a subscriber gives up the connection to a gone publisher

  predicate IsLive(s: State, a: Address) { exists n | n in s.nodes :: a in s.nodes[n].pubs.Values }

  predicate NodeAllowed(d: NodeState, ev: Event) {
    match ev
    case CreatePublisher(_, t, _) => t !in d.pubs && t !in d.stoppedPubs
    case CreateSubscriber(_, t) => t !in d.subs && t !in d.stoppedSubs
    case AnnouncePublisher(_, t) => t in d.newPubs && t in d.pubs
    case AnnounceSubscriber(_, t) => t in d.newSubs
    case StopPublisher(_, t) => t in d.pubs && t !in d.newPubs
    case StopSubscriber(_, t) => t in d.subs && t !in d.newSubs
    case TellPublisher(_, t) => t in d.stoppedPubs
    case TellSubscriber(_, t) => t in d.stoppedSubs
    case Depart(_) => d.open
    case Halt(_, _) => !d.open
    case _ => false
  }

  predicate Allowed(s: State, ev: Event) {
    if ev.Join? then ev.node !in s.nodes
    else
      ev.node in s.nodes &&
      var d := s.nodes[ev.node];
      match ev {
        case Handle(_) => d.outgoing != [] && d.response.None?
        case Respond(_) => d.response.Some?
        case Receive(_) => d.incoming != []
        case Drop(_, t, a) => t in d.subs && !IsLive(s, a)
        case CreatePublisher(_, _, a) => NodeAllowed(d, ev) && a !in s.topicOf
        case _ => NodeAllowed(d, ev)
      }
  }

  /** A request sent after the closing message is lost. */
  function Send(d: NodeState, m: Request): NodeState { if d.open then d.(outgoing := d.outgoing + [m]) else d }

  function SetNode(s: State, n: Node, d: NodeState): State { s.(nodes := s.nodes[n := d]) }

  predicate IsNodeStep(ev: Event) {
    !ev.Join? && !ev.Handle? && !ev.Respond? && !ev.Receive? && !ev.Drop?
  }

  /** What a node does on its own. */
  function NodeStep(d: NodeState, ev: Event): NodeState
    requires NodeAllowed(d, ev)
  {
    match ev
    case CreatePublisher(_, t, a) => d.(pubs := d.pubs[t := a], newPubs := d.newPubs + {t})
    case CreateSubscriber(_, t) => d.(subs := d.subs[t := {}], newSubs := d.newSubs + {t})
    case AnnouncePublisher(_, t) => Send(d.(newPubs := d.newPubs - {t}), AddPub(t, d.pubs[t]))
    case AnnounceSubscriber(_, t) => Send(d.(newSubs := d.newSubs - {t}), AddSub(t))
    case StopPublisher(_, t) => d.(pubs := d.pubs - {t}, stoppedPubs := d.stoppedPubs[t := d.pubs[t]])
    case StopSubscriber(_, t) => d.(subs := d.subs - {t}, stoppedSubs := d.stoppedSubs + {t})
    case TellPublisher(_, t) => Send(d.(stoppedPubs := d.stoppedPubs - {t}), RemPub(t))
    case TellSubscriber(_, t) => Send(d.(stoppedSubs := d.stoppedSubs - {t}), RemSub(t))
    case Depart(_) => Send(d, Bye).(open := false)
    case Halt(_, gone) => d.(pubs := d.pubs - gone, newPubs := d.newPubs - gone)
  }

  /** Every node in the snapshot of subscribers is sent a notice. */
  function Notify(s: State, to: set<Node>, m: Notice): map<Node, NodeState> {
    map n | n in s.nodes :: if n in to then s.nodes[n].(incoming := s.nodes[n].incoming + [m]) else s.nodes[n]
  }

  /** The Mediator takes the first request of the node and performs it. */
  function HandleStep(s: State, n: Node): State
    requires n in s.nodes && s.nodes[n].outgoing != []
  {
    var d := s.nodes[n];
    var s1 := SetNode(s, n, d.(outgoing := d.outgoing[1..]));
    match d.outgoing[0]
    case AddPub(t, a) =>
      s.(tables := AddPublisher(s.tables, n, t, a), nodes := Notify(s1, TopicAt(s.tables, t).subscribing, Notice(t, {a})))
    case AddSub(t) =>
      var tb1 := Subscribed(SubscriberTopicSection(s.tables, n, t), n, t);
      var found := set p | p in TopicAt(s.tables, t).publishing :: LookUp(tb1, p, t);
      SetNode(s1, n, s1.nodes[n].(response := Some(Notice(t, found)), asked := d.asked + {t})).(tables := AddSubscriber(s.tables, n, t))
    case RemPub(t) => s1.(tables := RemovePublisher(s.tables, n, t))
    case RemSub(t) => s1.(tables := RemoveSubscriber(s.tables, n, t))
    case Bye => s1.(tables := RemoveNode(s.tables, n))
  }

  /** connectSubscriberToPublishers: a live subscriber connects to the addresses where somebody listens. */
  function ReceiveStep(s: State, n: Node): State
    requires n in s.nodes && s.nodes[n].incoming != []
  {
    var d := s.nodes[n];
    var m := d.incoming[0];
    var d1 := d.(incoming := d.incoming[1..]);
    if m.topic in d.subs then
      var reached := set a | a in m.addresses && IsLive(s, a);
      SetNode(s, n, d1.(subs := d.subs[m.topic := d.subs[m.topic] + reached]))
    else SetNode(s, n, d1)
  }

  function NewNode(): NodeState { NodeState(true, [], [], None, map[], {}, map[], map[], {}, {}, {}) }

  function Next(s: State, ev: Event): State
    requires Allowed(s, ev)
  {
    match ev
    case Join(n, name) => SetNode(s, n, NewNode()).(tables := AddNode(Accept(s.tables, n), n, name))
    case CreatePublisher(n, t, a) => SetNode(s, n, NodeStep(s.nodes[n], ev)).(topicOf := s.topicOf[a := t])
    case AnnouncePublisher(n, t) =>
      SetNode(s, n, NodeStep(s.nodes[n], ev)).(announced := s.announced + {(t, s.nodes[n].pubs[t])})
    case Handle(n) => HandleStep(s, n)
    case Respond(n) =>
      SetNode(s, n, Responded(s.nodes[n]))
    case Receive(n) => ReceiveStep(s, n)
    case Drop(n, t, a) =>
      var d := s.nodes[n];
      SetNode(s, n, d.(subs := d.subs[t := d.subs[t] - {a}]))
    case _ => SetNode(s, ev.node, NodeStep(s.nodes[ev.node], ev))
  }

  function Run(s: State, events: seq<Event>): State
    decreases |events|
  {
    if events == [] then s
    else if Allowed(s, events[0]) then Run(Next(s, events[0]), events[1..])
    else Run(s, events[1..])
  }

  // ---------- What requests under way will do ----------

  function PubEffect(m: Request, t: Topic, now: Option<Address>): Option<Address> {
    match m
    case AddPub(u, a) => if u == t then Some(a) else now
    case RemPub(u) => if u == t then None else now
    case Bye => None
    case _ => now
  }

  function SubEffect(m: Request, t: Topic, now: bool): bool {
    match m
    case AddSub(u) => u == t || now
    case RemSub(u) => u != t && now
    case Bye => false
    case _ => now
  }

  /** The registration of a publisher, and of a subscriber, once the requests are handled. */
  function PubAfter(ms: seq<Request>, t: Topic, now: Option<Address>): Option<Address>
    decreases |ms|
  {
    if ms == [] then now else PubAfter(ms[1..], t, PubEffect(ms[0], t, now))
  }

  function SubAfter(ms: seq<Request>, t: Topic, now: bool): bool
    decreases |ms|
  {
    if ms == [] then now else SubAfter(ms[1..], t, SubEffect(ms[0], t, now))
  }

  lemma {:induction false} AfterAppend(ms: seq<Request>, m: Request, t: Topic, p: Option<Address>, q: bool)
    ensures PubAfter(ms + [m], t, p) == PubEffect(m, t, PubAfter(ms, t, p))
    ensures SubAfter(ms + [m], t, q) == SubEffect(m, t, SubAfter(ms, t, q))
    decreases |ms|
  {
    if ms == [] {
      assert ms + [m] == [m] && [m][1..] == [];
    } else {
      assert (ms + [m])[0] == ms[0] && (ms + [m])[1..] == ms[1..] + [m];
      AfterAppend(ms[1..], m, t, PubEffect(ms[0], t, p), SubEffect(ms[0], t, q));
    }
  }

  /** A registered subscriber stays one as long as no removal is under way. */
  lemma {:induction false} SubStays(ms: seq<Request>, t: Topic)
    requires RemSub(t) !in ms && Bye !in ms
    ensures SubAfter(ms, t, true)
    decreases |ms|
  {
    if ms != [] { SubStays(ms[1..], t); }
  }

  // ---------- The invariant ----------

  /** The relation after the Mediator has handled a request of node `n`. */
  function Update(r: Relation, n: Node, m: Request): Relation {
    match m
    case AddPub(t, a) => r.(pubs := r.pubs[(n, t) := a])
    case AddSub(t) => r.(subs := r.subs + {(n, t)})
    case RemPub(t) => r.(pubs := r.pubs - {(n, t)})
    case RemSub(t) => r.(subs := r.subs - {(n, t)})
    case Bye => WithoutNode(r, n)
  }

  function Registered(r: Relation, n: Node, t: Topic): Option<Address> {
    if (n, t) in r.pubs then Some(r.pubs[(n, t)]) else None
  }

  /** The publisher a node has on a topic that the Mediator has been told of, and not been told to remove. */
  function LocalPub(d: NodeState, t: Topic): Option<Address> {
    if t in d.pubs then (if t in d.newPubs then None else Some(d.pubs[t])) else if t in d.stoppedPubs then Some(d.stoppedPubs[t]) else None
  }

  predicate LocalSub(d: NodeState, t: Topic) { (t in d.subs && t !in d.newSubs) || t in d.stoppedSubs }

  /** The Mediator has sent the node a notice or a response about the topic, or is about to send a response. */
  ghost predicate Told(d: NodeState, t: Topic) {
    (exists i :: 0 <= i < |d.incoming| && d.incoming[i].topic == t) || (d.response.Some? && d.response.value.topic == t)
  }

  /**
   * What a node keeps, where `known` says whether the Mediator has an entry for it, and `p` and `q` what publisher and
   * subscriber of topic `t` it has registered for it: the registrations plus the requests under way are what the node has.
   */
  ghost predicate Own(d: NodeState, known: bool, p: Option<Address>, q: bool, used: set<Address>, t: Topic) {
    && (d.outgoing != [] ==> known)
    && (forall i :: 0 <= i < |d.outgoing| - 1 ==> d.outgoing[i] != Bye)
    && (d.open ==>
          && known && Bye !in d.outgoing
          && PubAfter(d.outgoing, t, p) == LocalPub(d, t) && SubAfter(d.outgoing, t, q) == LocalSub(d, t))
    && !(t in d.pubs && t in d.stoppedPubs) && !(t in d.subs && t in d.stoppedSubs)
    && (t in d.newPubs ==> t in d.pubs) && (t in d.newSubs ==> t in d.subs)
    && (t in d.pubs ==> d.pubs[t] in used)
    && (forall a :: AddPub(t, a) in d.outgoing ==> a in used)
    && (t !in d.asked ==> !q && !Told(d, t))
  }

  ghost predicate NodeFacts(s: State, r: Relation, n: Node, t: Topic) {
    && (n in s.tables.nodes ==> n in s.nodes)
    && ((n, t) in r.pubs ==> r.pubs[(n, t)] in s.topicOf.Keys)
    && (n in s.nodes ==> Own(s.nodes[n], n in s.tables.nodes, Registered(r, n, t), (n, t) in r.subs, s.topicOf.Keys, t))
  }

  /** The subscriber's node is connected to the address, or told to connect in a notice or a response under way. */
  ghost predicate OnItsWay(d: NodeState, t: Topic, a: Address) {
    || (t in d.subs && a in d.subs[t])
    || (exists i :: 0 <= i < |d.incoming| && d.incoming[i].topic == t && a in d.incoming[i].addresses)
    || (d.response.Some? && d.response.value.topic == t && a in d.response.value.addresses)
  }

  /** A live publisher registered under its address, and a live registered subscriber with no removal under way. */
  predicate Paired(s: State, r: Relation, p: Node, q: Node, t: Topic) {
    && p in s.nodes && s.nodes[p].open && t in s.nodes[p].pubs && Registered(r, p, t) == Some(s.nodes[p].pubs[t])
    && q in s.nodes && s.nodes[q].open && t in s.nodes[q].subs && (q, t) in r.subs
    && RemSub(t) !in s.nodes[q].outgoing
  }

  ghost predicate PairFacts(s: State, r: Relation, p: Node, q: Node, t: Topic) {
    && NodeFacts(s, r, p, t) && NodeFacts(s, r, q, t)
    && (Paired(s, r, p, q, t) ==> OnItsWay(s.nodes[q], t, s.nodes[p].pubs[t]))
  }

  ghost predicate Inv(s: State, r: Relation) {
    Refines(s.tables, r) && forall p, q, t :: PairFacts(s, r, p, q, t)
  }

  /** The events that send a request. */
  function Sent(d: NodeState, ev: Event): Option<Request>
    requires NodeAllowed(d, ev)
  {
    match ev
    case AnnouncePublisher(_, t) => Some(AddPub(t, d.pubs[t]))
    case AnnounceSubscriber(_, t) => Some(AddSub(t))
    case TellPublisher(_, t) => Some(RemPub(t))
    case TellSubscriber(_, t) => Some(RemSub(t))
    case Depart(_) => Some(Bye)
    case _ => None
  }

  lemma QuietOwn(d: NodeState, ev: Event, known: bool, p: Option<Address>, q: bool, used: set<Address>, t: Topic)
    requires Own(d, known, p, q, used, t) && NodeAllowed(d, ev) && Sent(d, ev).None?
    ensures Own(NodeStep(d, ev), known, p, q, used + (if ev.CreatePublisher? then {ev.address} else {}), t)
  {
  }

  lemma DepartOwn(d: NodeState, ev: Event, known: bool, p: Option<Address>, q: bool, used: set<Address>, t: Topic)
    requires Own(d, known, p, q, used, t) && NodeAllowed(d, ev) && ev.Depart?
    ensures Own(NodeStep(d, ev), known, p, q, used, t)
  {
  }

  lemma PublisherOwn(d: NodeState, ev: Event, known: bool, p: Option<Address>, q: bool, used: set<Address>, t: Topic)
    requires Own(d, known, p, q, used, t) && NodeAllowed(d, ev) && (ev.AnnouncePublisher? || ev.TellPublisher?)
    ensures Own(NodeStep(d, ev), known, p, q, used, t)
  {
    AfterAppend(d.outgoing, Sent(d, ev).value, t, p, q);
  }

  lemma SubscriberOwn(d: NodeState, ev: Event, known: bool, p: Option<Address>, q: bool, used: set<Address>, t: Topic)
    requires Own(d, known, p, q, used, t) && NodeAllowed(d, ev) && (ev.AnnounceSubscriber? || ev.TellSubscriber?)
    ensures Own(NodeStep(d, ev), known, p, q, used, t)
  {
    AfterAppend(d.outgoing, Sent(d, ev).value, t, p, q);
  }

  lemma NodeStepOwn(d: NodeState, ev: Event, known: bool, p: Option<Address>, q: bool, used: set<Address>, t: Topic)
    requires Own(d, known, p, q, used, t) && NodeAllowed(d, ev)
    ensures Own(NodeStep(d, ev), known, p, q, used + (if ev.CreatePublisher? then {ev.address} else {}), t)
  {
    assert used + {} == used;
    if ev.Depart? { DepartOwn(d, ev, known, p, q, used, t); }
    else if ev.AnnouncePublisher? || ev.TellPublisher? { PublisherOwn(d, ev, known, p, q, used, t); }
    else if ev.AnnounceSubscriber? || ev.TellSubscriber? { SubscriberOwn(d, ev, known, p, q, used, t); }
    else { QuietOwn(d, ev, known, p, q, used, t); }
  }

  lemma NodeStepFacts(s: State, r: Relation, ev: Event, n: Node, t: Topic)
    requires NodeFacts(s, r, n, t) && Allowed(s, ev) && IsNodeStep(ev)
    ensures NodeFacts(Next(s, ev), r, n, t)
  {
    if n == ev.node {
      NodeStepOwn(s.nodes[n], ev, n in s.tables.nodes, Registered(r, n, t), (n, t) in r.subs, s.topicOf.Keys, t);
    }
  }

  /** A node's own step takes nothing off its way, unless the subscriber goes. */
  lemma NodeStepWay(d: NodeState, ev: Event, t: Topic, a: Address)
    requires NodeAllowed(d, ev) && OnItsWay(d, t, a) && t in NodeStep(d, ev).subs
    requires ev.CreateSubscriber? ==> ev.topic != t
    ensures OnItsWay(NodeStep(d, ev), t, a)
  {
  }

  lemma NodeStepPair(s: State, r: Relation, ev: Event, p: Node, q: Node, t: Topic)
    requires PairFacts(s, r, p, q, t) && Allowed(s, ev) && IsNodeStep(ev)
    ensures PairFacts(Next(s, ev), r, p, q, t)
  {
    NodeStepFacts(s, r, ev, p, t);
    NodeStepFacts(s, r, ev, q, t);
    if Paired(Next(s, ev), r, p, q, t) { NodeStepPaired(s, r, ev, p, q, t); }
  }

  lemma NodeStepPaired(s: State, r: Relation, ev: Event, p: Node, q: Node, t: Topic)
    requires PairFacts(s, r, p, q, t) && Allowed(s, ev) && IsNodeStep(ev)
    requires Paired(Next(s, ev), r, p, q, t)
    ensures OnItsWay(Next(s, ev).nodes[q], t, Next(s, ev).nodes[p].pubs[t])
  {
    if ev.CreateSubscriber? && ev.node == q && ev.topic == t {
      SubStays(s.nodes[q].outgoing, t);
    } else {
      assert Paired(s, r, p, q, t);
      if ev.node == q { NodeStepWay(s.nodes[q], ev, t, s.nodes[p].pubs[t]); }
    }
  }

  lemma JoinPair(s: State, r: Relation, n: Node, name: string, p: Node, q: Node, t: Topic)
    requires PairFacts(s, r, p, q, t) && Allowed(s, Join(n, name))
    requires PairIs(s.tables, r, p, t) && PairIs(s.tables, r, q, t)
    ensures PairFacts(Next(s, Join(n, name)), r, p, q, t)
  {
  }

  /** A step that changes no more than what its subscribers are connected to and what is on the way from the Mediator. */
  lemma OwnSame(d: NodeState, d': NodeState, known: bool, p: Option<Address>, q: bool, used: set<Address>, t: Topic)
    requires Own(d, known, p, q, used, t) && (Told(d', t) ==> Told(d, t)) && d'.subs.Keys == d.subs.Keys
    requires d' == d.(subs := d'.subs, incoming := d'.incoming, response := d'.response)
    ensures Own(d', known, p, q, used, t)
  {
    assert t in d'.subs.Keys <==> t in d.subs.Keys;
  }

  lemma SameFacts(s: State, r: Relation, n: Node, d': NodeState, m: Node, t: Topic)
    requires NodeFacts(s, r, m, t) && n in s.nodes && (Told(d', t) ==> Told(s.nodes[n], t))
    requires var d := s.nodes[n];
      d'.subs.Keys == d.subs.Keys && d' == d.(subs := d'.subs, incoming := d'.incoming, response := d'.response)
    ensures NodeFacts(SetNode(s, n, d'), r, m, t)
  {
    if m == n {
      OwnSame(s.nodes[n], d', n in s.tables.nodes, Registered(r, n, t), (n, t) in r.subs, s.topicOf.Keys, t);
    }
  }

  /** The response joins the channel. */
  function Responded(d: NodeState): NodeState
    requires d.response.Some?
  {
    d.(incoming := d.incoming + [d.response.value], response := None)
  }

  lemma RespondedWay(d: NodeState, t: Topic, a: Address)
    requires d.response.Some?
    ensures OnItsWay(d, t, a) ==> OnItsWay(Responded(d), t, a)
    ensures Told(Responded(d), t) ==> Told(d, t)
  {
    var d' := Responded(d);
    assert d'.incoming[|d.incoming|] == d.response.value;
    assert forall i :: 0 <= i < |d.incoming| ==> d'.incoming[i] == d.incoming[i];
  }

  lemma RespondPair(s: State, r: Relation, n: Node, p: Node, q: Node, t: Topic)
    requires PairFacts(s, r, p, q, t) && Allowed(s, Respond(n))
    ensures PairFacts(SetNode(s, n, Responded(s.nodes[n])), r, p, q, t)
  {
    var d' := Responded(s.nodes[n]);
    RespondedWay(s.nodes[n], t, DEFAULT_ADDRESS);
    SameFacts(s, r, n, d', p, t);
    SameFacts(s, r, n, d', q, t);
    if n == q && Paired(s, r, p, q, t) { RespondedWay(s.nodes[n], t, s.nodes[p].pubs[t]); }
  }

  lemma ReceiveFacts(s: State, r: Relation, n: Node, m: Node, t: Topic)
    requires NodeFacts(s, r, m, t) && Allowed(s, Receive(n))
    ensures NodeFacts(ReceiveStep(s, n), r, m, t)
  {
    var d, d' := s.nodes[n], ReceiveStep(s, n).nodes[n];
    assert d'.incoming == d.incoming[1..] && d'.subs.Keys == d.subs.Keys;
    SameFacts(s, r, n, d', m, t);
  }

  lemma ReceiveWay(s: State, n: Node, t: Topic, a: Address)
    requires Allowed(s, Receive(n)) && s.nodes[n].open && t in s.nodes[n].subs && IsLive(s, a)
    requires OnItsWay(s.nodes[n], t, a)
    ensures OnItsWay(ReceiveStep(s, n).nodes[n], t, a)
  {
    var d, d' := s.nodes[n], ReceiveStep(s, n).nodes[n];
    assert forall i :: 0 < i < |d.incoming| ==> d'.incoming[i - 1] == d.incoming[i];
  }

  lemma ReceivePair(s: State, r: Relation, n: Node, p: Node, q: Node, t: Topic)
    requires PairFacts(s, r, p, q, t) && Allowed(s, Receive(n))
    ensures PairFacts(ReceiveStep(s, n), r, p, q, t)
  {
    ReceiveFacts(s, r, n, p, t);
    ReceiveFacts(s, r, n, q, t);
    if Paired(s, r, p, q, t) {
      var a := s.nodes[p].pubs[t];
      assert a in s.nodes[p].pubs.Values;
      if n == q { ReceiveWay(s, n, t, a); }
    }
  }

  lemma DropPair(s: State, r: Relation, n: Node, u: Topic, a: Address, p: Node, q: Node, t: Topic)
    requires PairFacts(s, r, p, q, t) && Allowed(s, Drop(n, u, a))
    ensures PairFacts(Next(s, Drop(n, u, a)), r, p, q, t)
  {
    var d := s.nodes[n];
    var d' := d.(subs := d.subs[u := d.subs[u] - {a}]);
    assert d'.subs.Keys == d.subs.Keys;
    SameFacts(s, r, n, d', p, t);
    SameFacts(s, r, n, d', q, t);
    if n == q && Paired(s, r, p, q, t) {
      assert s.nodes[p].pubs[t] in s.nodes[p].pubs.Values;
    }
  }

  // ---------- Handling a request ----------

  /** What handling the next request of node `n` makes of node `m`. */
  function Handled(s: State, n: Node, m: Node): NodeState
    requires Allowed(s, Handle(n)) && m in s.nodes
  {
    var head := s.nodes[n].outgoing[0];
    var d := if m == n then s.nodes[m].(outgoing := s.nodes[m].outgoing[1..]) else s.nodes[m];
    if head.AddPub? && m in TopicAt(s.tables, head.topic).subscribing then
      d.(incoming := d.incoming + [Notice(head.topic, {head.address})])
    else if head.AddSub? && m == n then
      d.(response := HandleStep(s, n).nodes[n].response, asked := d.asked + {head.topic})
    else d
  }

  lemma HandledNodes(s: State, n: Node, m: Node)
    requires Allowed(s, Handle(n)) && m in s.nodes
    ensures var s' := HandleStep(s, n);
      s'.topicOf == s.topicOf && s'.announced == s.announced && s'.nodes.Keys == s.nodes.Keys && s'.nodes[m] == Handled(s, n, m)
  {
  }

  lemma HandledResponse(s: State, n: Node)
    requires Allowed(s, Handle(n)) && s.nodes[n].outgoing[0].AddSub?
    ensures var r := HandleStep(s, n).nodes[n].response; r.Some? && r.value.topic == s.nodes[n].outgoing[0].topic
  {
  }

  /** What handling a request leaves of the state of any node. */
  lemma HandleFrame(s: State, n: Node, m: Node)
    requires Allowed(s, Handle(n)) && m in s.nodes
    ensures var d, d' := s.nodes[m], Handled(s, n, m);
      && d' == d.(outgoing := d'.outgoing, incoming := d'.incoming, response := d'.response, asked := d'.asked)
      && d'.outgoing == (if m == n then d.outgoing[1..] else d.outgoing)
      && d.incoming <= d'.incoming && (d.response.Some? ==> d'.response == d.response)
  {
  }

  /** Only subscribers of a topic are told of it. */
  lemma HandleAsked(s: State, r: Relation, n: Node, m: Node, t: Topic)
    requires Allowed(s, Handle(n)) && PairIs(s.tables, r, m, t) && m in s.nodes && NodeFacts(s, r, m, t)
    ensures var d, d' := s.nodes[m], Handled(s, n, m);
      d.asked <= d'.asked && (t !in d'.asked ==> !Told(d', t))
  {
    var head, d, d' := s.nodes[n].outgoing[0], s.nodes[m], Handled(s, n, m);
    if head.AddSub? { HandledResponse(s, n); }
    assert forall i :: 0 <= i < |d.incoming| ==> d'.incoming[i] == d.incoming[i];
  }

  /** Handling a request changes registration and channel as the request says. */
  lemma HandleOwn(d: NodeState, d': NodeState, known: bool, p: Option<Address>, q: bool, used: set<Address>, t: Topic)
    requires Own(d, known, p, q, used, t) && d.outgoing != []
    requires d' == d.(outgoing := d.outgoing[1..], incoming := d'.incoming, response := d'.response, asked := d'.asked)
    requires d.asked <= d'.asked && (t !in d'.asked ==> !Told(d', t))
    requires d.outgoing[0] == AddSub(t) ==> t in d'.asked
    ensures var head := d.outgoing[0];
      Own(d', known && !head.Bye?, PubEffect(head, t, p), SubEffect(head, t, q), used, t)
  {
    assert forall a :: AddPub(t, a) in d.outgoing[1..] ==> AddPub(t, a) in d.outgoing;
  }

  lemma HandleOwnFacts(s: State, r: Relation, n: Node, t: Topic)
    requires Allowed(s, Handle(n)) && Refines(s.tables, r) && NodeFacts(s, r, n, t)
    ensures NodeFacts(HandleStep(s, n), Update(r, n, s.nodes[n].outgoing[0]), n, t)
  {
    var d, s' := s.nodes[n], HandleStep(s, n);
    var head, r' := d.outgoing[0], Update(r, n, d.outgoing[0]);
    HandleRefines(s, r, n);
    HandledNodes(s, n, n);
    HandleFrame(s, n, n);
    assert PairIs(s.tables, r, n, t);
    HandleAsked(s, r, n, n, t);
    HandleOwn(d, s'.nodes[n], n in s.tables.nodes, Registered(r, n, t), (n, t) in r.subs, s.topicOf.Keys, t);
    assert Registered(r', n, t) == PubEffect(head, t, Registered(r, n, t));
    assert ((n, t) in r'.subs) == SubEffect(head, t, (n, t) in r.subs);
  }

  lemma HandleOtherFacts(s: State, r: Relation, n: Node, m: Node, t: Topic)
    requires Allowed(s, Handle(n)) && Refines(s.tables, r) && m != n && n in s.tables.nodes && NodeFacts(s, r, m, t)
    ensures NodeFacts(HandleStep(s, n), Update(r, n, s.nodes[n].outgoing[0]), m, t)
  {
    HandleRefines(s, r, n);
    var r' := Update(r, n, s.nodes[n].outgoing[0]);
    assert Registered(r', m, t) == Registered(r, m, t) && ((m, t) in r'.subs <==> (m, t) in r.subs);
    if m in s.nodes {
      HandledNodes(s, n, m);
      HandleFrame(s, n, m);
      assert PairIs(s.tables, r, m, t);
      HandleAsked(s, r, n, m, t);
    }
  }

  lemma HandleRefines(s: State, r: Relation, n: Node)
    requires Allowed(s, Handle(n)) && Refines(s.tables, r) && n in s.tables.nodes
    ensures var head := s.nodes[n].outgoing[0];
      && Refines(HandleStep(s, n).tables, Update(r, n, head))
      && HandleStep(s, n).tables.nodes.Keys == s.tables.nodes.Keys - (if head.Bye? then {n} else {})
  {
    match s.nodes[n].outgoing[0]
    case AddPub(t, a) => AddPublisherRefines(s.tables, r, n, t, a);
    case AddSub(t) => AddSubscriberRefines(s.tables, r, n, t);
    case RemPub(t) => RemovePublisherRefines(s.tables, r, n, t);
    case RemSub(t) => RemoveSubscriberRefines(s.tables, r, n, t);
    case Bye => RemoveNodeRefines(s.tables, r, n);
  }

  /** What was on its way stays so when notices are added and a response takes an empty place. */
  lemma WayGrows(d: NodeState, d': NodeState, t: Topic, a: Address)
    requires OnItsWay(d, t, a) && d'.subs == d.subs && d.incoming <= d'.incoming
    requires d.response.Some? ==> d'.response == d.response
    ensures OnItsWay(d', t, a)
  {
    assert forall i :: 0 <= i < |d.incoming| ==> d'.incoming[i] == d.incoming[i];
  }

  lemma HandleKeepsWay(s: State, n: Node, q: Node, t: Topic, a: Address)
    requires Allowed(s, Handle(n)) && q in s.nodes && OnItsWay(s.nodes[q], t, a)
    ensures OnItsWay(HandleStep(s, n).nodes[q], t, a)
  {
    HandledNodes(s, n, q);
    HandleFrame(s, n, q);
    WayGrows(s.nodes[q], Handled(s, n, q), t, a);
  }

  /** A new publisher's address is sent to every registered subscriber of its topic. */
  lemma HandleAddPub(s: State, r: Relation, n: Node, q: Node, t: Topic, a: Address)
    requires Allowed(s, Handle(n)) && s.nodes[n].outgoing[0] == AddPub(t, a)
    requires q in s.nodes && PairIs(s.tables, r, q, t) && (q, t) in r.subs
    ensures OnItsWay(HandleStep(s, n).nodes[q], t, a)
  {
    HandledNodes(s, n, q);
    var d, d' := s.nodes[q], Handled(s, n, q);
    assert d'.incoming[|d.incoming|] == Notice(t, {a});
  }

  /** A new subscriber's response holds the address of every registered publisher of its topic. */
  lemma HandleAddSub(s: State, r: Relation, n: Node, p: Node, t: Topic)
    requires Allowed(s, Handle(n)) && s.nodes[n].outgoing[0] == AddSub(t)
    requires Refines(s.tables, r) && (p, t) in r.pubs
    ensures OnItsWay(HandleStep(s, n).nodes[n], t, r.pubs[(p, t)])
  {
    AddSubscriberFinds(s.tables, r, n, t, p);
    var tb1 := Subscribed(SubscriberTopicSection(s.tables, n, t), n, t);
    assert LookUp(tb1, p, t) in set p | p in TopicAt(s.tables, t).publishing :: LookUp(tb1, p, t);
  }

  lemma HandleFacts(s: State, r: Relation, n: Node, m: Node, t: Topic)
    requires Allowed(s, Handle(n)) && Refines(s.tables, r) && NodeFacts(s, r, n, t) && NodeFacts(s, r, m, t)
    ensures NodeFacts(HandleStep(s, n), Update(r, n, s.nodes[n].outgoing[0]), m, t)
  {
    if m == n { HandleOwnFacts(s, r, n, t); } else { HandleOtherFacts(s, r, n, m, t); }
  }

  lemma HandlePaired(s: State, r: Relation, n: Node, p: Node, q: Node, t: Topic)
    requires PairFacts(s, r, p, q, t) && Allowed(s, Handle(n)) && Refines(s.tables, r) && n in s.tables.nodes
    requires Paired(HandleStep(s, n), Update(r, n, s.nodes[n].outgoing[0]), p, q, t)
    ensures OnItsWay(HandleStep(s, n).nodes[q], t, HandleStep(s, n).nodes[p].pubs[t])
  {
    var head := s.nodes[n].outgoing[0];
    HandledNodes(s, n, p);
    HandledNodes(s, n, q);
    HandleFrame(s, n, p);
    HandleFrame(s, n, q);
    var a := s.nodes[p].pubs[t];
    if p == n && head == AddPub(t, a) {
      assert PairIs(s.tables, r, q, t);
      HandleAddPub(s, r, n, q, t, a);
    } else if q == n && head == AddSub(t) {
      HandleAddSub(s, r, n, p, t);
    } else {
      assert Paired(s, r, p, q, t);
      HandleKeepsWay(s, n, q, t, a);
    }
  }

  lemma HandlePair(s: State, r: Relation, n: Node, p: Node, q: Node, t: Topic)
    requires Inv(s, r) && Allowed(s, Handle(n))
    ensures PairFacts(HandleStep(s, n), Update(r, n, s.nodes[n].outgoing[0]), p, q, t)
  {
    assert PairFacts(s, r, p, q, t) && PairFacts(s, r, n, n, t);
    HandleFacts(s, r, n, p, t);
    HandleFacts(s, r, n, q, t);
    if Paired(HandleStep(s, n), Update(r, n, s.nodes[n].outgoing[0]), p, q, t) { HandlePaired(s, r, n, p, q, t); }
  }

  function UpdateAt(s: State, r: Relation, ev: Event): Relation
    requires Allowed(s, ev)
  {
    if ev.Handle? then Update(r, ev.node, s.nodes[ev.node].outgoing[0]) else r
  }

  lemma StepRefines(s: State, r: Relation, ev: Event)
    requires Inv(s, r) && Allowed(s, ev)
    ensures Refines(Next(s, ev).tables, UpdateAt(s, r, ev))
  {
    if ev.Handle? {
      assert PairFacts(s, r, ev.node, ev.node, "");
      HandleRefines(s, r, ev.node);
    } else if ev.Join? {
      var n, tb := ev.node, s.tables;
      EntryRefines(tb, r, n, NodeAt(tb, n).(connected := true));
      EntryRefines(Accept(tb, n), r, n, NodeAt(Accept(tb, n), n).(name := ev.name));
    }
  }

  lemma OtherPair(s: State, r: Relation, ev: Event, p: Node, q: Node, t: Topic)
    requires PairFacts(s, r, p, q, t) && PairIs(s.tables, r, p, t) && PairIs(s.tables, r, q, t)
    requires Allowed(s, ev) && !ev.Handle?
    ensures PairFacts(Next(s, ev), r, p, q, t)
  {
    if ev.Join? { JoinPair(s, r, ev.node, ev.name, p, q, t); }
    else if ev.Respond? { RespondPair(s, r, ev.node, p, q, t); }
    else if ev.Receive? { ReceivePair(s, r, ev.node, p, q, t); }
    else if ev.Drop? { DropPair(s, r, ev.node, ev.topic, ev.address, p, q, t); }
    else { NodeStepPair(s, r, ev, p, q, t); }
  }

  lemma StepPair(s: State, r: Relation, ev: Event, p: Node, q: Node, t: Topic)
    requires Inv(s, r) && Allowed(s, ev)
    ensures PairFacts(Next(s, ev), UpdateAt(s, r, ev), p, q, t)
  {
    if ev.Handle? {
      HandlePair(s, r, ev.node, p, q, t);
    } else {
      assert PairFacts(s, r, p, q, t) && PairIs(s.tables, r, p, t) && PairIs(s.tables, r, q, t);
      OtherPair(s, r, ev, p, q, t);
    }
  }

  lemma StepKeeps(s: State, r: Relation, ev: Event)
    requires Inv(s, r) && Allowed(s, ev)
    ensures Inv(Next(s, ev), UpdateAt(s, r, ev))
  {
    StepRefines(s, r, ev);
    var s', r' := Next(s, ev), UpdateAt(s, r, ev);
    forall p, q, t ensures PairFacts(s', r', p, q, t) { StepPair(s, r, ev, p, q, t); }
  }

  /** The invariant holds in every run, for the relation the handled requests give. */
  lemma {:induction false} InvAlways(s: State, r: Relation, events: seq<Event>) returns (r': Relation)
    requires Inv(s, r)
    ensures Inv(Run(s, events), r')
    decreases |events|
  {
    if events == [] {
      r' := r;
    } else if Allowed(s, events[0]) {
      StepKeeps(s, r, events[0]);
      r' := InvAlways(Next(s, events[0]), UpdateAt(s, r, events[0]), events[1..]);
    } else {
      r' := InvAlways(s, r, events[1..]);
    }
  }

  /**
   * Matchmaking misses nobody: in every run, a live publisher the Mediator has registered under its address is connected
   * to, or on its way to, every live registered subscriber of the topic whose removal is not under way.
   */
  lemma NobodyIsMissed(events: seq<Event>, r: Relation, p: Node, q: Node, t: Topic)
    requires Indexes(Run(START, events).tables, r) && Paired(Run(START, events), r, p, q, t)
    ensures var s := Run(START, events); OnItsWay(s.nodes[q], t, s.nodes[p].pubs[t])
  {
    assert Inv(START, NOBODY);
    var r' := InvAlways(START, NOBODY, events);
    RelationUnique(Run(START, events).tables, r, r');
    assert PairFacts(Run(START, events), r, p, q, t);
  }

  /**
   * When the channels of two nodes are empty and neither is between the two steps of making the publisher or the
   * subscriber, the live subscriber of the one is connected to the live publisher of the other.
   */
  lemma DrainedIsConnected(events: seq<Event>, p: Node, q: Node, t: Topic)
    requires var s := Run(START, events); p in s.nodes && q in s.nodes
    ensures var s := Run(START, events); var P, Q := s.nodes[p], s.nodes[q];
      P.open && Q.open && t in P.pubs && t in Q.subs && t !in P.newPubs && t !in Q.newSubs
      && P.outgoing == [] && Q.outgoing == [] && Q.incoming == [] && Q.response.None?
      ==> P.pubs[t] in Q.subs[t]
  {
    assert Inv(START, NOBODY);
    var r := InvAlways(START, NOBODY, events);
    assert PairFacts(Run(START, events), r, p, q, t);
  }

  /** The Mediator tells a node of a topic only after it has handled an addSubscriber request of the node for it. */
  lemma ToldOnlyWhenAsked(events: seq<Event>, n: Node, t: Topic)
    requires n in Run(START, events).nodes
    ensures var d := Run(START, events).nodes[n]; Told(d, t) ==> t in d.asked
  {
    assert Inv(START, NOBODY);
    var r := InvAlways(START, NOBODY, events);
    assert PairFacts(Run(START, events), r, n, n, t);
  }

  /** In particular it sends a node no request and no response before the node subscribes. */
  lemma NothingBeforeSubscribing(events: seq<Event>, n: Node)
    requires n in Run(START, events).nodes
    ensures var d := Run(START, events).nodes[n]; d.asked == {} ==> d.incoming == [] && d.response.None?
  {
    var d := Run(START, events).nodes[n];
    if d.incoming != [] { ToldOnlyWhenAsked(events, n, d.incoming[0].topic); }
    if d.response.Some? { ToldOnlyWhenAsked(events, n, d.response.value.topic); }
  }
}
