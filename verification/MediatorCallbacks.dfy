/**
 * From the receive cycles to the Mediator: each connection's operations are those its callbacks call, in the order the
 * connection runs them. Whatever way the connections interleave, every operation finds what it needs in the tables.
 */
module MediatorCallbacks {
  import opened MediatorTables
  import opened MediatorRuns
  import opened RpcCallbacks
  import Matchmaking
  import RpcProtocol

  /** What the Mediator reads out of the argument of a request. */
  datatype Arguments = Arguments(topic: Topic, address: Address)

  /** A connection of the Mediator: the name its node gives, and the schedule that connection and node run. */
  datatype Connection = Connection(name: string, schedule: seq<RpcProtocol.Event>)

  type Decoder = string -> Arguments

  /** The wiring of callbacks: the operation a callback of the connection of node `n` calls, if any. */
  function Operation(n: Node, name: string, r: Ran, decode: Decoder): seq<Event> {
    match r
    case RanConnecting => [Connecting(n, name)]
    case RanClosing => [Closing(n)]
    case RanRequest(Request(callback, argument)) =>
      var a := decode(argument);
      if callback == "addPublisher" then [Publish(n, a.topic, a.address)]
      else if callback == "removePublisher" then [Unpublish(n, a.topic)]
      else if callback == "removeSubscriber" then [Unsubscribe(n, a.topic)]
      else []
    case RanRequest(Call(callback, _, argument)) =>
      if callback == "addSubscriber" then [Subscribe(n, decode(argument).topic)] else []
    case RanRequest(_) => []
  }

  function Operations(n: Node, name: string, t: seq<Ran>, decode: Decoder): seq<Event> {
    if t == [] then [] else Operation(n, name, t[0], decode) + Operations(n, name, t[1..], decode)
  }

  /** How a node asks: the names its requests carry, and for addSubscriber the name of the response callback. */
  function Encode(m: Matchmaking.Request, encode: Arguments -> string): RpcProtocol.Message
    requires !m.Bye?
  {
    match m
    case AddPub(t, a) => RpcProtocol.Request("addPublisher", encode(Arguments(t, a)))
    case AddSub(t) => RpcProtocol.Call("addSubscriber", "connectSubscriberToPublishers", encode(Arguments(t, DEFAULT_ADDRESS)))
    case RemPub(t) => RpcProtocol.Request("removePublisher", encode(Arguments(t, DEFAULT_ADDRESS)))
    case RemSub(t) => RpcProtocol.Request("removeSubscriber", encode(Arguments(t, DEFAULT_ADDRESS)))
  }

  /** The callback that runs for what a node sends: for its closing message the closing callback. */
  function Callback(m: Matchmaking.Request, encode: Arguments -> string): Ran {
    if m.Bye? then RanClosing else RanRequest(Encode(m, encode))
  }

  /**
   * Names agree from end to end: what a node asks for is what the Mediator does. The callback of each request calls one
   * operation, which changes the relation, and the tables, as the request is meant to.
   */
  lemma AskedIsDone(s: Matchmaking.State, n: Node, name: string, r: Relation, encode: Arguments -> string, decode: Decoder)
    requires Matchmaking.Allowed(s, Matchmaking.Handle(n)) && forall a :: decode(encode(a)) == a
    ensures var m := s.nodes[n].outgoing[0]; var ops := Operation(n, name, Callback(m, encode), decode);
      && |ops| == 1
      && Update(r, ops[0]) == Matchmaking.Update(r, n, m)
      && Perform(s.tables, ops[0]) == Matchmaking.HandleStep(s, n).tables
  {
    var m := s.nodes[n].outgoing[0];
    if m.AddPub? { assert decode(encode(Arguments(m.topic, m.address))) == Arguments(m.topic, m.address); }
    else if !m.Bye? { assert decode(encode(Arguments(m.topic, DEFAULT_ADDRESS))) == Arguments(m.topic, DEFAULT_ADDRESS); }
  }

  /** How the Mediator tells a node of publishers, other than in a response. */
  function EncodeNotice(m: Matchmaking.Notice, encode: Matchmaking.Notice -> string): RpcProtocol.Message {
    RpcProtocol.Request("connectSubscriberToPublishers", encode(m))
  }

  /** The one request callback of a node. */
  function NodeOperation(m: RpcProtocol.Message, decode: string -> Matchmaking.Notice): seq<Matchmaking.Notice> {
    if m.Request? && m.callback == "connectSubscriberToPublishers" then [decode(m.argument)] else []
  }

  /** What the Mediator tells a node, in a request or in the response to addSubscriber, is what the node's callback gets. */
  lemma ToldIsHeard(t: Topic, m: Matchmaking.Notice, ask: Arguments -> string, encode: Matchmaking.Notice -> string,
                    decode: string -> Matchmaking.Notice)
    requires forall x :: decode(encode(x)) == x
    ensures NodeOperation(EncodeNotice(m, encode), decode) == [m]
    ensures NodeOperation(RpcProtocol.Request(Encode(Matchmaking.AddSub(t), ask).reply, encode(m)), decode) == [m]
  {
    assert decode(encode(m)) == m;
  }

  /** All the Mediator does for one connection: it is accepted and started, and the rest is up to its callbacks. */
  function Life(n: Node, c: Connection, decode: Decoder): seq<Event> {
    [Accepted(n)] + Operations(n, c.name, Trace(RpcProtocol.Initial(), c.schedule, RpcProtocol.ServerRole), decode)
  }

  /** The events of one node, in order. */
  function Of(events: seq<Event>, n: Node): seq<Event> {
    if events == [] then []
    else
      var k := |events| - 1;
      Of(events[..k], n) + if events[k].node == n then [events[k]] else []
  }

  /** The events are some interleaving of what the connections have done so far, one connection per node. */
  ghost predicate FromConnections(events: seq<Event>, connections: Node -> Connection, decode: Decoder) {
    forall n :: Of(events, n) <= Life(n, connections(n), decode)
  }

  predicate IsRequest(ev: Event) { ev.Publish? || ev.Subscribe? || ev.Unpublish? || ev.Unsubscribe? }

  /** The order every connection keeps. */
  predicate InOrder(n: Node, h: seq<Event>) {
    forall k :: 0 <= k < |h| ==>
      && h[k].node == n
      && (h[k].Accepted? <==> k == 0) && (h[k].Connecting? <==> k == 1) && (h[k].Closing? ==> k == |h| - 1)
  }

  lemma OperationKind(n: Node, name: string, r: Ran, decode: Decoder)
    requires !r.RanConnecting?
    ensures var ops := Operation(n, name, r, decode);
      && |ops| <= 1 && (r.RanClosing? ==> ops == [Closing(n)])
      && (ops != [] ==> ops[0].node == n && (r.RanRequest? ==> IsRequest(ops[0])))
  {
  }

  predicate RequestsThenClosing(n: Node, ops: seq<Event>) {
    forall k :: 0 <= k < |ops| ==> ops[k].node == n && (IsRequest(ops[k]) || (ops[k].Closing? && k == |ops| - 1))
  }

  /** Past the connecting callback an ordered trace calls requests, and the closing operation at the end. */
  lemma {:induction false} OperationsInOrder(n: Node, name: string, t: seq<Ran>, decode: Decoder)
    requires forall i :: 0 <= i < |t| ==> !t[i].RanConnecting? && (t[i].RanClosing? ==> i == |t| - 1)
    ensures RequestsThenClosing(n, Operations(n, name, t, decode))
  {
    if t != [] {
      OperationKind(n, name, t[0], decode);
      OperationsInOrder(n, name, t[1..], decode);
      var first, rest := Operation(n, name, t[0], decode), Operations(n, name, t[1..], decode);
      if t[0].RanClosing? {
        assert t[1..] == [] && first + rest == first;
      } else {
        assert first + rest == if first == [] then rest else [first[0]] + rest;
      }
    }
  }

  lemma LifeInOrder(n: Node, c: Connection, decode: Decoder)
    ensures InOrder(n, Life(n, c, decode))
  {
    var t := Trace(RpcProtocol.Initial(), c.schedule, RpcProtocol.ServerRole);
    CallbacksInOrder(c.schedule, RpcProtocol.ServerRole);
    TraceInOrder(n, c.name, t, decode);
  }

  lemma TraceInOrder(n: Node, name: string, t: seq<Ran>, decode: Decoder)
    requires Ordered(t)
    ensures InOrder(n, [Accepted(n)] + Operations(n, name, t, decode))
  {
    if t != [] {
      assert t[0].RanConnecting?;
      var rest := Operations(n, name, t[1..], decode);
      OperationsInOrder(n, name, t[1..], decode);
      assert Operation(n, name, t[0], decode) == [Connecting(n, name)];
      assert [Accepted(n)] + ([Connecting(n, name)] + rest) == [Accepted(n), Connecting(n, name)] + rest;
    } else {
      assert [Accepted(n)] + Operations(n, name, t, decode) == [Accepted(n)];
    }
  }

  /** What the events of a node say of its place in the Mediator. */
  predicate Tracks(s: State, n: Node, h: seq<Event>) {
    && (n in s.waiting <==> |h| == 1)
    && (n in s.running <==> |h| >= 2 && !h[|h| - 1].Closing?)
  }

  /** The next event of an ordered connection is allowed. */
  lemma NextAllowed(s: State, n: Node, h: seq<Event>, ev: Event, life: seq<Event>)
    requires InOrder(n, life) && h + [ev] <= life && Tracks(s, n, h)
    ensures ev.node == n && Allowed(s, ev) && Tracks(Next(s, ev), n, h + [ev])
  {
    assert ev == life[|h|];
    if h != [] { assert h[|h| - 1] == life[|h| - 1]; }
  }

  /** And leaves the other connections where they are. */
  lemma OtherTracks(s: State, m: Node, h: seq<Event>, ev: Event)
    requires Tracks(s, m, h) && ev.node != m
    ensures Tracks(Next(s, ev), m, h)
  {
  }

  /** A run with one more event. */
  lemma {:induction false} RunLast(s: State, events: seq<Event>, ev: Event)
    ensures var e := Run(s, events); Run(s, events + [ev]) == if Allowed(e, ev) then Next(e, ev) else e
    decreases |events|
  {
    if events == [] {
      assert [ev][1..] == [];
    } else {
      assert (events + [ev])[1..] == events[1..] + [ev];
      RunLast(if Allowed(s, events[0]) then Next(s, events[0]) else s, events[1..], ev);
    }
  }

  lemma OfLast(events: seq<Event>, ev: Event, n: Node)
    ensures Of(events + [ev], n) == Of(events, n) + if ev.node == n then [ev] else []
  {
    assert (events + [ev])[..|events|] == events;
  }

  /** Every connection is where its events say. */
  ghost predicate AllTrack(events: seq<Event>) { forall n :: Tracks(Run(START, events), n, Of(events, n)) }

  lemma OwnStep(before: seq<Event>, ev: Event, life: seq<Event>)
    requires Tracks(Run(START, before), ev.node, Of(before, ev.node))
    requires InOrder(ev.node, life) && Of(before + [ev], ev.node) <= life
    ensures Allowed(Run(START, before), ev)
    ensures Tracks(Run(START, before + [ev]), ev.node, Of(before + [ev], ev.node))
  {
    OfLast(before, ev, ev.node);
    NextAllowed(Run(START, before), ev.node, Of(before, ev.node), ev, life);
    RunLast(START, before, ev);
  }

  lemma OtherStep(before: seq<Event>, ev: Event, m: Node)
    requires Tracks(Run(START, before), m, Of(before, m)) && m != ev.node && Allowed(Run(START, before), ev)
    ensures Tracks(Run(START, before + [ev]), m, Of(before + [ev], m))
  {
    OfLast(before, ev, m);
    OtherTracks(Run(START, before), m, Of(before, m), ev);
    RunLast(START, before, ev);
  }

  lemma StepTracks(before: seq<Event>, ev: Event, connections: Node -> Connection, decode: Decoder)
    requires AllTrack(before) && Of(before + [ev], ev.node) <= Life(ev.node, connections(ev.node), decode)
    ensures AllTrack(before + [ev]) && Allowed(Run(START, before), ev)
  {
    LifeInOrder(ev.node, connections(ev.node), decode);
    OwnStep(before, ev, Life(ev.node, connections(ev.node), decode));
    forall m ensures Tracks(Run(START, before + [ev]), m, Of(before + [ev], m)) {
      if m != ev.node { OtherStep(before, ev, m); }
    }
  }

  /** After any interleaving of the connections each is where its events say, and none was skipped. */
  lemma {:induction false} RunTracks(events: seq<Event>, connections: Node -> Connection, decode: Decoder)
    requires FromConnections(events, connections, decode)
    ensures AllTrack(events)
    ensures events != [] ==>
      var k := |events| - 1; FromConnections(events[..k], connections, decode) && Allowed(Run(START, events[..k]), events[k])
    decreases |events|
  {
    if events != [] {
      var k := |events| - 1;
      var before, ev := events[..k], events[k];
      assert events == before + [ev];
      forall m ensures Of(before, m) <= Life(m, connections(m), decode) { OfLast(before, ev, m); }
      RunTracks(before, connections, decode);
      StepTracks(before, ev, connections, decode);
    }
  }

  lemma {:induction false} PrefixFrom(events: seq<Event>, connections: Node -> Connection, decode: Decoder, k: nat)
    requires FromConnections(events, connections, decode) && k <= |events|
    ensures FromConnections(events[..k], connections, decode)
    decreases |events|
  {
    if k < |events| {
      RunTracks(events, connections, decode);
      var before := events[..|events| - 1];
      PrefixFrom(before, connections, decode, k);
      assert before[..k] == events[..k];
    } else {
      assert events[..k] == events;
    }
  }

  /**
   * However the connections interleave, no operation is out of turn: each finds its node and every node it mentions in
   * the tables, and uses no connection that does not exist.
   */
  lemma ConnectionsAreSafe(events: seq<Event>, connections: Node -> Connection, decode: Decoder, k: nat)
    requires FromConnections(events, connections, decode) && k < |events|
    ensures var s := Run(START, events[..k]); Allowed(s, events[k]) && Safe(s.tables, events[k])
  {
    PrefixFrom(events, connections, decode, k + 1);
    RunTracks(events[..k + 1], connections, decode);
    assert events[..k + 1][..k] == events[..k];
    EveryRunIsSafe(events[..k], events[k]);
  }

  lemma {:induction false} OfGrows(events: seq<Event>, n: Node, k: nat)
    requires k <= |events|
    ensures Of(events[..k], n) <= Of(events, n)
    decreases |events|
  {
    if k < |events| {
      var before := events[..|events| - 1];
      OfGrows(before, n, k);
      assert before[..k] == events[..k];
    } else {
      assert events[..k] == events;
    }
  }

  /** removeNode is the last operation of its connection, so it is called once. */
  lemma NothingAfterClosing(events: seq<Event>, connections: Node -> Connection, decode: Decoder, j: nat, k: nat)
    requires FromConnections(events, connections, decode) && j < k < |events| && events[j].Closing?
    ensures events[k].node != events[j].node
  {
    var n := events[j].node;
    if events[k].node == n {
      var first, second := events[..j + 1], events[..k];
      assert first == events[..j] + [events[j]] && events[..k + 1] == second + [events[k]];
      OfLast(events[..j], events[j], n);
      OfLast(second, events[k], n);
      OfGrows(second, n, j + 1);
      assert second[..j + 1] == first;
      OfGrows(events, n, k + 1);
      var h, life := Of(first, n), Life(n, connections(n), decode);
      assert life[|h| - 1] == Of(events, n)[|h| - 1] == h[|h| - 1];
      LifeInOrder(n, connections(n), decode);
    }
  }
}
