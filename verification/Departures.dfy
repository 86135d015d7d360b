/** Nodes that leave: once the Mediator has handled all they sent, nothing is left of them. */
module Departures {
  import opened MediatorTables
  import opened Matchmaking
  import opened Options

  /** A node that has begun to close has its closing message last in the channel, or the Mediator has forgotten it. */
  predicate Leaving(d: NodeState, known: bool) {
    && (forall i :: 0 <= i < |d.outgoing| - 1 ==> d.outgoing[i] != Bye)
    && (d.open ==> known && Bye !in d.outgoing)
    && (!d.open && d.outgoing == [] ==> !known)
    && (!d.open && d.outgoing != [] ==> known && d.outgoing[|d.outgoing| - 1] == Bye)
  }

  predicate AllLeaving(s: State) { forall n :: n in s.nodes ==> Leaving(s.nodes[n], n in s.tables.nodes) }

  lemma NodeStepLeaves(d: NodeState, ev: Event, known: bool)
    requires Leaving(d, known) && NodeAllowed(d, ev)
    ensures Leaving(NodeStep(d, ev), known)
  {
    if Sent(d, ev).Some? && d.open {
      assert NodeStep(d, ev).outgoing == d.outgoing + [Sent(d, ev).value];
    } else {
      assert NodeStep(d, ev).outgoing == d.outgoing;
    }
  }

  lemma PopLeaves(d: NodeState, known: bool)
    requires Leaving(d, known) && d.outgoing != []
    ensures Leaving(d.(outgoing := d.outgoing[1..]), known && d.outgoing[0] != Bye)
  {
  }

  lemma HandleLeaves(s: State, r: Relation, n: Node, m: Node)
    requires Inv(s, r) && AllLeaving(s) && Allowed(s, Handle(n)) && m in s.nodes
    ensures m in HandleStep(s, n).nodes && Leaving(HandleStep(s, n).nodes[m], m in HandleStep(s, n).tables.nodes)
  {
    PairKnown(s, r, n);
    HandledNodes(s, n, m);
    HandleFrame(s, n, m);
    HandleRefines(s, r, n);
    if m == n { PopLeaves(s.nodes[n], n in s.tables.nodes); }
  }

  lemma PairKnown(s: State, r: Relation, n: Node)
    requires Inv(s, r) && Allowed(s, Handle(n))
    ensures Refines(s.tables, r) && n in s.tables.nodes
  {
    assert PairFacts(s, r, n, n, "");
  }

  lemma NextNodes(s: State, ev: Event)
    requires Allowed(s, ev) && !ev.Handle? && !ev.Join?
    ensures var s' := Next(s, ev);
      && s'.tables == s.tables && s'.nodes.Keys == s.nodes.Keys
      && (forall m :: m in s.nodes && m != ev.node ==> s'.nodes[m] == s.nodes[m])
      && (!IsNodeStep(ev) ==> s'.nodes[ev.node].open == s.nodes[ev.node].open && s'.nodes[ev.node].outgoing == s.nodes[ev.node].outgoing)
      && (IsNodeStep(ev) ==> s'.nodes[ev.node] == NodeStep(s.nodes[ev.node], ev))
  {
  }

  lemma AllHandleLeaves(s: State, r: Relation, n: Node)
    requires Inv(s, r) && AllLeaving(s) && Allowed(s, Handle(n))
    ensures AllLeaving(HandleStep(s, n))
  {
    var s' := HandleStep(s, n);
    HandledNodes(s, n, n);
    forall m | m in s'.nodes ensures Leaving(s'.nodes[m], m in s'.tables.nodes) { HandleLeaves(s, r, n, m); }
  }

  lemma JoinLeaves(s: State, n: Node, name: string)
    requires AllLeaving(s) && Allowed(s, Join(n, name))
    ensures AllLeaving(Next(s, Join(n, name)))
  {
  }

  lemma NodeStepLeavesAt(s: State, ev: Event, m: Node)
    requires Allowed(s, ev) && IsNodeStep(ev) && m in s.nodes && Leaving(s.nodes[m], m in s.tables.nodes)
    ensures Leaving(Next(s, ev).nodes[m], m in Next(s, ev).tables.nodes)
  {
    NextNodes(s, ev);
    if m == ev.node { NodeStepLeaves(s.nodes[m], ev, m in s.tables.nodes); }
  }

  lemma OtherLeavesAt(s: State, ev: Event, m: Node)
    requires Allowed(s, ev) && !ev.Handle? && !ev.Join? && m in s.nodes && Leaving(s.nodes[m], m in s.tables.nodes)
    ensures Leaving(Next(s, ev).nodes[m], m in Next(s, ev).tables.nodes)
  {
    if IsNodeStep(ev) { NodeStepLeavesAt(s, ev, m); } else { NextNodes(s, ev); }
  }

  lemma OtherLeaves(s: State, ev: Event)
    requires AllLeaving(s) && Allowed(s, ev) && !ev.Handle? && !ev.Join?
    ensures AllLeaving(Next(s, ev))
  {
    var s' := Next(s, ev);
    NextNodes(s, ev);
    forall m | m in s'.nodes ensures Leaving(s'.nodes[m], m in s'.tables.nodes) { OtherLeavesAt(s, ev, m); }
  }

  lemma StepLeaves(s: State, r: Relation, ev: Event)
    requires Inv(s, r) && AllLeaving(s) && Allowed(s, ev)
    ensures AllLeaving(Next(s, ev))
  {
    if ev.Handle? { AllHandleLeaves(s, r, ev.node); }
    else if ev.Join? { JoinLeaves(s, ev.node, ev.name); }
    else { OtherLeaves(s, ev); }
  }

  lemma {:induction false} LeavingAlways(s: State, r: Relation, events: seq<Event>) returns (r': Relation)
    requires Inv(s, r) && AllLeaving(s)
    ensures Inv(Run(s, events), r') && AllLeaving(Run(s, events))
    decreases |events|
  {
    if events == [] {
      r' := r;
    } else if Allowed(s, events[0]) {
      StepKeeps(s, r, events[0]);
      StepLeaves(s, r, events[0]);
      r' := LeavingAlways(Next(s, events[0]), UpdateAt(s, r, events[0]), events[1..]);
    } else {
      r' := LeavingAlways(s, r, events[1..]);
    }
  }

  /** When the Mediator has handled everything a departed node sent, no table mentions the node. */
  lemma DepartedIsForgotten(events: seq<Event>, n: Node, t: Topic)
    requires var s := Run(START, events); n in s.nodes && !s.nodes[n].open && s.nodes[n].outgoing == []
    ensures var tb := Run(START, events).tables;
      n !in tb.nodes && !Publishes(tb, n, t) && !Subscribes(tb, n, t)
  {
    assert Inv(START, NOBODY);
    var r := LeavingAlways(START, NOBODY, events);
    var tb := Run(START, events).tables;
    if Publishes(tb, n, t) || Subscribes(tb, n, t) { MentionedIsConnected(tb, r, n, t); }
  }
}
