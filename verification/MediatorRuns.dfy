/**
 * Whole runs of the Mediator with atomic operations. The operations of one connection come in the order its receive
 * cycle gives them: accepted, connecting callback, requests, closing callback, and nothing after it.
 */
module MediatorRuns {
  import opened MediatorTables

  datatype Event =
    | Accepted(node: Node)
    | Connecting(node: Node, name: string)
    | Publish(node: Node, topic: Topic, address: Address)
    | Subscribe(node: Node, topic: Topic)
    | Unpublish(node: Node, topic: Topic)
    | Unsubscribe(node: Node, topic: Topic)
    | Closing(node: Node)

  datatype State = State(tables: Tables, waiting: set<Node>, running: set<Node>)

  const START: State := State(Tables(map[], map[]), {}, {})

  /** What the receive cycles allow to happen next. */
  predicate Allowed(s: State, ev: Event) {
    match ev
    case Accepted(n) => n !in s.waiting && n !in s.running
    case Connecting(n, _) => n in s.waiting
    case Publish(n, _, _) => n in s.running
    case Subscribe(n, _) => n in s.running
    case Unpublish(n, _) => n in s.running
    case Unsubscribe(n, _) => n in s.running
    case Closing(n) => n in s.running
  }

  function Perform(tb: Tables, ev: Event): Tables {
    match ev
    case Accepted(n) => Accept(tb, n)
    case Connecting(n, name) => AddNode(tb, n, name)
    case Publish(n, t, a) => AddPublisher(tb, n, t, a)
    case Subscribe(n, t) => AddSubscriber(tb, n, t)
    case Unpublish(n, t) => RemovePublisher(tb, n, t)
    case Unsubscribe(n, t) => RemoveSubscriber(tb, n, t)
    case Closing(n) => RemoveNode(tb, n)
  }

  function Next(s: State, ev: Event): State {
    var s' := s.(tables := Perform(s.tables, ev));
    match ev
    case Accepted(n) => s'.(waiting := s.waiting + {n})
    case Connecting(n, _) => s'.(waiting := s.waiting - {n}, running := s.running + {n})
    case Closing(n) => s'.(running := s.running - {n})
    case _ => s'
  }

  /** The plain relation after an operation. */
  function Update(r: Relation, ev: Event): Relation {
    match ev
    case Accepted(_) | Connecting(_, _) => r
    case Publish(n, t, a) => r.(pubs := r.pubs[(n, t) := a])
    case Subscribe(n, t) => r.(subs := r.subs + {(n, t)})
    case Unpublish(n, t) => r.(pubs := r.pubs - {(n, t)})
    case Unsubscribe(n, t) => r.(subs := r.subs - {(n, t)})
    case Closing(n) => WithoutNode(r, n)
  }

  /** Every node an operation looks up is there, and every connection it uses exists. */
  predicate Safe(tb: Tables, ev: Event) {
    match ev
    case Accepted(n) => n !in tb.nodes
    case Connecting(n, _) => n in tb.nodes
    case Publish(n, t, _) => n in tb.nodes && forall s :: s in TopicAt(tb, t).subscribing ==> s in tb.nodes && tb.nodes[s].connected
    case Subscribe(n, t) =>
      n in tb.nodes && forall p :: p in TopicAt(tb, t).publishing ==> p in tb.nodes && t in tb.nodes[p].addresses
    case Unpublish(n, _) => n in tb.nodes
    case Unsubscribe(n, _) => n in tb.nodes
    case Closing(n) => n in tb.nodes && tb.nodes[n].connected
  }

  function Run(s: State, events: seq<Event>): State
    decreases |events|
  {
    if events == [] then s
    else if Allowed(s, events[0]) then Run(Next(s, events[0]), events[1..])
    else Run(s, events[1..])
  }

  /** The relation after the same events. */
  function RunRelation(s: State, r: Relation, events: seq<Event>): Relation
    decreases |events|
  {
    if events == [] then r
    else if Allowed(s, events[0]) then RunRelation(Next(s, events[0]), Update(r, events[0]), events[1..])
    else RunRelation(s, r, events[1..])
  }

  ghost predicate Inv(s: State, r: Relation) {
    && Refines(s.tables, r)
    && s.waiting !! s.running
    && s.tables.nodes.Keys == s.waiting + s.running
  }

  lemma StepKeeps(s: State, r: Relation, ev: Event)
    requires Inv(s, r) && Allowed(s, ev)
    ensures Inv(Next(s, ev), Update(r, ev)) && Safe(s.tables, ev)
  {
    var tb := s.tables;
    match ev
    case Accepted(n) => EntryRefines(tb, r, n, NodeAt(tb, n).(connected := true));
    case Connecting(n, name) => EntryRefines(tb, r, n, NodeAt(tb, n).(name := name));
    case Publish(n, t, a) =>
      AddPublisherRefines(tb, r, n, t, a);
      forall m | m in TopicAt(tb, t).subscribing ensures m in tb.nodes && tb.nodes[m].connected {
        MentionedIsConnected(tb, r, m, t);
      }
    case Subscribe(n, t) =>
      AddSubscriberRefines(tb, r, n, t);
      forall p | p in TopicAt(tb, t).publishing ensures p in tb.nodes && t in tb.nodes[p].addresses {
        assert PairIs(tb, r, p, t);
      }
    case Unpublish(n, t) => RemovePublisherRefines(tb, r, n, t);
    case Unsubscribe(n, t) => RemoveSubscriberRefines(tb, r, n, t);
    case Closing(n) => RemoveNodeRefines(tb, r, n);
  }

  /** Every run keeps the tables the indexes of the one relation that the plain set updates give. */
  lemma {:induction false} TablesRefineRelation(s: State, r: Relation, events: seq<Event>)
    requires Inv(s, r)
    ensures Inv(Run(s, events), RunRelation(s, r, events))
    decreases |events|
  {
    if events != [] {
      if Allowed(s, events[0]) {
        StepKeeps(s, r, events[0]);
        TablesRefineRelation(Next(s, events[0]), Update(r, events[0]), events[1..]);
      } else {
        TablesRefineRelation(s, r, events[1..]);
      }
    }
  }

  /** In every run from the start: the tables refine the relation, and no operation meets a missing node or connection. */
  lemma EveryRunIsSafe(events: seq<Event>, ev: Event)
    ensures Refines(Run(START, events).tables, RunRelation(START, NOBODY, events))
    ensures Allowed(Run(START, events), ev) ==> Safe(Run(START, events).tables, ev)
  {
    assert Inv(START, NOBODY);
    TablesRefineRelation(START, NOBODY, events);
    if Allowed(Run(START, events), ev) { StepKeeps(Run(START, events), RunRelation(START, NOBODY, events), ev); }
  }

  /** The name a node gives when it connects is the one in its entry until its connection closes. */
  lemma {:induction false} NameLasts(s: State, r: Relation, n: Node, name: string, events: seq<Event>)
    requires Inv(s, r) && Allowed(s, Connecting(n, name))
    requires Closing(n) !in events
    ensures var e := Run(Next(s, Connecting(n, name)), events); n in e.tables.nodes && e.tables.nodes[n].name == name
  {
    StepKeeps(s, r, Connecting(n, name));
    NameStays(Next(s, Connecting(n, name)), Update(r, Connecting(n, name)), n, events);
  }

  lemma {:induction false} NameStays(s: State, r: Relation, n: Node, events: seq<Event>)
    requires Inv(s, r) && n in s.running && Closing(n) !in events
    ensures var e := Run(s, events); n in e.tables.nodes && e.tables.nodes[n].name == s.tables.nodes[n].name
    decreases |events|
  {
    if events != [] {
      if Allowed(s, events[0]) {
        StepKeeps(s, r, events[0]);
        NameStep(s, r, n, events[0]);
        NameStays(Next(s, events[0]), Update(r, events[0]), n, events[1..]);
      } else {
        NameStays(s, r, n, events[1..]);
      }
    }
  }

  lemma NameStep(s: State, r: Relation, n: Node, ev: Event)
    requires Inv(s, r) && n in s.running && Allowed(s, ev) && ev != Closing(n)
    ensures n in Next(s, ev).tables.nodes && Next(s, ev).tables.nodes[n].name == s.tables.nodes[n].name
  {
  }

  /** After a connection's closing callback nothing mentions its node, and no further operation of it can come. */
  lemma ClosedIsForgotten(events: seq<Event>, n: Node, t: Topic, ev: Event)
    requires Allowed(Run(START, events), Closing(n))
    ensures var s := Next(Run(START, events), Closing(n));
      && !Publishes(s.tables, n, t) && !Subscribes(s.tables, n, t) && n !in s.tables.nodes
      && (Allowed(s, ev) && ev.node == n ==> ev.Accepted?)
  {
    EveryRunIsSafe(events, Closing(n));
    TablesRefineRelation(START, NOBODY, events);
    RemoveNodeRefines(Run(START, events).tables, RunRelation(START, NOBODY, events), n);
  }
}
