/**
 * Node::disconnect from two sides at once: the ctrl+C thread calls it as a deactivation routine, and the receiving
 * thread of the node's RPC client calls it as the closing callback. The RPC pair runs underneath, step by step. The
 * Mediator does not call close() on a connection that is up; when it stops it drops the socket.
 */
module NodeShutdown {
  import opened Options
  import opened RpcProtocol
  import opened RpcSafety
  import opened RpcProgress
  import opened RpcAlone

  /** How far one thread is in Node::disconnect. */
  datatype Progress =
    | NotCalled
    | Checked       // connected_ was true
    | Marked        // connected_ stored as false; the RPC client is to be tested
    | CallsClose    // the client was connected; close() is to be called
    | InClose       // close() has been called
    | Disconnecting // the subscribers and publishers are to be disconnected
    | Completed
    | SkippedAll    // connected_ was false

  /** The subscribers of the node. */
  datatype Roster = Roster(
    live: set<string>,         // in subscribers_ and not destroyed
    disconnected: set<string>, // told to disconnect
    // Histories
    born: map<string, nat>,    // when each was registered
    inTime: set<string>,       // those registered while connected_ was true
    lastWalk: Option<nat>,     // when a disconnect last went through subscribers_
    clock: nat)

  function Register(r: Roster, n: string, connected: bool): Roster {
    r.(live := r.live + {n}, born := r.born[n := r.clock], inTime := if connected then r.inTime + {n} else r.inTime,
       clock := r.clock + 1)
  }

  /** The loop of disconnect over subscribers_. */
  function Walk(r: Roster): Roster {
    r.(disconnected := r.disconnected + r.live, lastWalk := Some(r.clock), clock := r.clock + 1)
  }

  /** Some disconnect went through subscribers_ after this subscriber was registered. */
  predicate WalkedSince(r: Roster, n: string)
    requires n in r.born
  {
    r.lastWalk.Some? && r.born[n] < r.lastWalk.value
  }

  predicate RosterInv(r: Roster) {
    && r.live <= r.born.Keys && r.inTime <= r.born.Keys && r.disconnected <= r.born.Keys
    && (forall n :: n in r.live ==> (n in r.disconnected <==> WalkedSince(r, n)))
    && (forall n :: n in r.born ==> r.born[n] < r.clock)
    && (forall n :: n in r.inTime && r.lastWalk.Some? ==> WalkedSince(r, n))
    && (r.lastWalk.Some? ==> r.lastWalk.value < r.clock)
  }

  datatype State = State(
    rpc: System,               // the node is the client
    gone: bool,                // the Mediator has dropped its socket, and its threads run no more
    constructed: bool,         // the constructor has stored connected_ as true
    connected: bool,           // Node::connected_
    ctrl: Progress,            // the ctrl+C thread
    callback: Progress,        // the receiving thread in the closing callback
    roster: Roster,
    early: bool)               // history: the closing callback called disconnect before the constructor's store

  datatype Event =
    | Rpc(event: RpcProtocol.Event)
    | Construct
    | CreateSubscriber(name: string)
    | DestroySubscriber(name: string)
    | CtrlC
    | Callback
    | MediatorGone

  predicate Done(p: Progress) { p.Completed? || p.SkippedAll? }

  /** close() is called by disconnect only, and the node's closing callback is done when disconnect is. */
  predicate RpcAllowed(s: State, ev: RpcProtocol.Event) {
    && CanStep(s.rpc, ev)
    && !ev.action.StartClose? && (s.gone ==> ev.role.ClientRole?)
    && (ev.role.ClientRole? && ev.action.Shut? && s.rpc.client.reader.InCallback? ==>
          Done(s.callback) && !ev.action.callbackCloses)
  }

  /** close() has come back to disconnect. */
  predicate CloseReturned(s: State) { s.rpc.client.closer.Returned? || s.rpc.client.closer.Skipped? }

  predicate Allowed(s: State, ev: Event) {
    match ev
    case Rpc(e) => RpcAllowed(s, e)
    case Construct => !s.constructed && !IsOpening(s.rpc.client.reader)
    case CreateSubscriber(n) => s.constructed && n !in s.roster.born
    case DestroySubscriber(n) => n in s.roster.live
    case CtrlC =>
      match s.ctrl {
        case NotCalled => s.constructed
        case InClose => CloseReturned(s)
        case Checked | Marked | CallsClose | Disconnecting => true
        case Completed | SkippedAll => false
      }
    case Callback =>
      s.rpc.client.reader.InCallback? && !Done(s.callback) && !s.callback.CallsClose? && !s.callback.InClose?
    case MediatorGone => !s.gone && !IsOpening(s.rpc.server.reader)
  }

  /** The next statement of disconnect in a thread at `p`, as far as it does not call close(). */
  function Advance(s: State, p: Progress): Progress {
    match p
    case NotCalled => if s.connected then Checked else SkippedAll
    case Checked => Marked
    case Marked => if s.rpc.client.connected then CallsClose else Disconnecting
    case CallsClose => InClose
    case InClose => Disconnecting
    case Disconnecting => Completed
    case Completed => Completed
    case SkippedAll => SkippedAll
  }

  /** The effect of that statement on what the threads share. */
  function Effect(s: State, p: Progress): State {
    if p.Checked? then s.(connected := false)
    else if p.Disconnecting? then s.(roster := Walk(s.roster))
    else s
  }

  const CALL_CLOSE: RpcProtocol.Event := RpcProtocol.Event(ClientRole, StartClose)

  function Next(s: State, ev: Event): State
    requires Allowed(s, ev)
  {
    match ev
    case Rpc(e) => s.(rpc := RpcProtocol.Next(s.rpc, e))
    case Construct => s.(constructed := true, connected := true)
    case CreateSubscriber(n) => s.(roster := Register(s.roster, n, s.connected))
    case DestroySubscriber(n) => s.(roster := s.roster.(live := s.roster.live - {n}))
    case CtrlC =>
      var s' := Effect(s, s.ctrl).(ctrl := Advance(s, s.ctrl));
      if s.ctrl.CallsClose? && CanStep(s.rpc, CALL_CLOSE) then s'.(rpc := RpcProtocol.Next(s.rpc, CALL_CLOSE)) else s'
    case Callback =>
      Effect(s, s.callback).(callback := Advance(s, s.callback),
                             early := s.early || (s.callback.NotCalled? && !s.constructed))
    case MediatorGone => s.(gone := true, rpc := System(s.rpc.client, s.rpc.server.(open := false)))
  }

  const START: State :=
    State(Initial(), false, false, false, NotCalled, NotCalled, Roster({}, {}, map[], {}, None, 0), false)

  function Run(s: State, events: seq<Event>): State
    decreases |events|
  {
    if events == [] then s
    else if Allowed(s, events[0]) then Run(Next(s, events[0]), events[1..])
    else Run(s, events[1..])
  }

  /** A thread that stored connected_ as false and will disconnect the subscribers, or has done so. */
  predicate TookOver(p: Progress) { !p.NotCalled? && !p.Checked? && !p.SkippedAll? }

  /** A closing message is on the wire, or the Mediator is gone. */
  predicate Closing(s: State) { SomeClosed(s.rpc) || s.gone }

  predicate Glue(s: State) {
    var c := s.rpc.client;
    && (s.constructed || !s.ctrl.NotCalled? ==> s.constructed && !IsOpening(c.reader))
    && (s.callback.NotCalled? || c.reader.InCallback? || c.reader.Notifying? || c.reader.Ended?)
    && (c.reader.Notifying? || c.reader.Ended? ==> Done(s.callback))
    && !s.callback.CallsClose? && !s.callback.InClose?
    && (s.ctrl.NotCalled? || s.ctrl.Checked? || s.ctrl.Marked? || s.ctrl.CallsClose? || s.ctrl.SkippedAll? ==>
          c.closer.CloserIdle?)
    && (s.ctrl.InClose? ==> !c.closer.CloserIdle?)
    && (s.ctrl.Disconnecting? || s.ctrl.Completed? ==>
          c.closer.CloserIdle? || c.closer.Returned? || c.closer.Skipped?)
    && (s.connected ==> s.constructed)
    && (TookOver(s.ctrl) || TookOver(s.callback) ==> !s.connected)
    && (s.constructed && !s.connected ==> TookOver(s.ctrl) || TookOver(s.callback))
    && (!s.callback.NotCalled? && !s.callback.SkippedAll? ==> s.constructed)
    && (s.ctrl.SkippedAll? ==> !s.connected)
    && (s.ctrl.Completed? || s.callback.Completed? <==> s.roster.lastWalk.Some?)
    && (s.ctrl.Disconnecting? || s.ctrl.Completed? ==> Closing(s))
    && (s.early ==> s.callback.SkippedAll?)
    && (s.callback.SkippedAll? && !s.early ==> !s.ctrl.NotCalled?)
  }

  /** With the Mediator gone only the client's own threads keep together. */
  predicate ConnectionInv(s: State) {
    if s.gone then ClientAlone(s.rpc.client) && !s.rpc.server.open else RpcSafety.Inv(s.rpc)
  }

  predicate Inv(s: State) { ConnectionInv(s) && Glue(s) && RosterInv(s.roster) }

  lemma RpcGlue(s: State, ev: RpcProtocol.Event)
    requires Glue(s) && RpcAllowed(s, ev)
    ensures Glue(s.(rpc := RpcProtocol.Next(s.rpc, ev)))
  {
    ThreadMoves(s.rpc.At(ev.role), s.rpc.At(Other(ev.role)), ev.action);
  }

  /** A step of either side, or of the client alone. */
  lemma RpcKeeps(s: State, ev: RpcProtocol.Event)
    requires ConnectionInv(s) && CanStep(s.rpc, ev) && (s.gone ==> ev.role.ClientRole?)
    ensures ConnectionInv(s.(rpc := RpcProtocol.Next(s.rpc, ev)))
  {
    var e, p := s.rpc.At(ev.role), s.rpc.At(Other(ev.role));
    if s.gone {
      ClientAloneKeeps(e, p, ev.action);
      ThreadMoves(e, p, ev.action);
    } else {
      ActKeeps(ev.role, e, p, ev.action);
    }
  }

  lemma GoneKeeps(s: State)
    requires Inv(s) && Allowed(s, MediatorGone)
    ensures Inv(Next(s, MediatorGone))
  {
    ServerOpened(s.rpc.client, s.rpc.server);
  }

  /** disconnect as the closing callback never calls close(): it finds the RPC client disconnected. */
  lemma CallbackGlue(s: State)
    requires Inv(s) && Allowed(s, Callback)
    ensures Glue(Next(s, Callback))
  {
    assert !s.rpc.client.connected;
  }

  /** A client that is open for use and disconnected is closing, and so a closing message is on the wire. */
  lemma DisconnectedIsClosing(s: System)
    requires RpcSafety.Inv(s) && !IsOpening(s.client.reader)
    requires !s.client.connected && (s.client.closer.CloserIdle? || s.client.closer.Skipped? || s.client.closer.Returned?)
    ensures SomeClosed(s)
  {
    CloseOnWire(ClientRole, s.client);
    CloseOnWire(ServerRole, s.server);
    PeerStillOpen(ServerRole, s.server, s.client);
  }

  /** The call of close(). */
  lemma CloseGlue(s: State)
    requires Glue(s) && s.ctrl.CallsClose?
    ensures CanStep(s.rpc, CALL_CLOSE) && Glue(Next(s, CtrlC))
  {
    ThreadMoves(s.rpc.client, s.rpc.server, StartClose);
  }

  lemma CloseKeeps(s: State)
    requires Inv(s) && s.ctrl.CallsClose?
    ensures Inv(Next(s, CtrlC))
  {
    CloseGlue(s);
    RpcKeeps(s, CALL_CLOSE);
    assert Next(s, CtrlC).rpc == RpcProtocol.Next(s.rpc, CALL_CLOSE);
  }

  lemma CtrlKeeps(s: State)
    requires Inv(s) && Allowed(s, CtrlC)
    ensures Inv(Next(s, CtrlC))
  {
    if s.ctrl.CallsClose? {
      CloseKeeps(s);
    } else {
      WalkKeeps(s.roster);
      if !s.gone && ((s.ctrl.Marked? && !s.rpc.client.connected) || s.ctrl.InClose?) { DisconnectedIsClosing(s.rpc); }
    }
  }

  lemma CallbackKeeps(s: State)
    requires Inv(s) && Allowed(s, Callback)
    ensures Inv(Next(s, Callback))
  {
    CallbackGlue(s);
    WalkKeeps(s.roster);
  }

  lemma WalkKeeps(r: Roster)
    requires RosterInv(r)
    ensures RosterInv(Walk(r))
  {
  }

  lemma RegisterKeeps(r: Roster, n: string, connected: bool)
    requires RosterInv(r) && n !in r.born && (connected ==> r.lastWalk.None?)
    ensures RosterInv(Register(r, n, connected))
  {
  }

  lemma StepKeeps(s: State, ev: Event)
    requires Inv(s) && Allowed(s, ev)
    ensures Inv(Next(s, ev))
  {
    match ev
    case Rpc(e) =>
      RpcGlue(s, e);
      RpcKeeps(s, e);
    case Construct =>
    case CreateSubscriber(n) => RegisterKeeps(s.roster, n, s.connected);
    case DestroySubscriber(n) =>
    case CtrlC => CtrlKeeps(s);
    case Callback => CallbackKeeps(s);
    case MediatorGone => GoneKeeps(s);
  }

  lemma {:induction false} InvAlways(s: State, events: seq<Event>)
    requires Inv(s)
    ensures Inv(Run(s, events))
    decreases |events|
  {
    if events != [] {
      if Allowed(s, events[0]) {
        StepKeeps(s, events[0]);
        InvAlways(Next(s, events[0]), events[1..]);
      } else {
        InvAlways(s, events[1..]);
      }
    }
  }

  lemma StartInv()
    ensures Inv(START)
  {
  }

  lemma ReachedInv(events: seq<Event>)
    ensures Inv(Run(START, events))
  {
    StartInv();
    InvAlways(START, events);
  }

  /** The closing callback never reaches a close() of its own: the client is disconnected by then. */
  lemma CallbackNeverCloses(events: seq<Event>)
    ensures var s := Run(START, events); !s.callback.CallsClose? && !s.callback.InClose?
  {
    ReachedInv(events);
  }

  /**
   * disconnect has come to its end in the ctrl+C thread: it went through subscribers_, or found the work taken over by a
   * closing callback. In both cases, once the work is done, every live subscriber registered while the node was connected
   * is disconnected; and at any time the disconnected ones are exactly those registered before the last walk.
   */
  lemma DisconnectDone(events: seq<Event>)
    ensures var s := Run(START, events); var r := s.roster;
      && r.live <= r.born.Keys
      && (forall n :: n in r.live ==> (n in r.disconnected <==> WalkedSince(r, n)))
      && (s.ctrl.Completed? || s.callback.Completed? <==> r.lastWalk.Some?)
      && (r.lastWalk.Some? ==> r.live * r.inTime <= r.disconnected)
      && (s.ctrl.SkippedAll? ==> TookOver(s.callback))
  {
    ReachedInv(events);
  }

  // ---------- Termination ----------

  function ProgressRank(p: Progress): nat {
    if p.NotCalled? then 6 else if p.Checked? then 5 else if p.Marked? then 4 else if p.CallsClose? then 3
    else if p.InClose? then 2 else if p.Disconnecting? then 1 else 0
  }

  function Remaining(s: State): nat {
    Measure(s.rpc) + ProgressRank(s.ctrl) + ProgressRank(s.callback)
    + (if s.constructed then 0 else 1) + (if s.gone then 0 else 1)
  }

  /** The user sends another request, or makes or destroys a subscriber. */
  predicate IsNew(ev: Event) {
    (ev.Rpc? && ev.event.action.Send?) || ev.CreateSubscriber? || ev.DestroySubscriber?
  }

  lemma CloseCost(s: System)
    requires CanStep(s, CALL_CLOSE)
    ensures Measure(RpcProtocol.Next(s, CALL_CLOSE)) <= Measure(s)
  {
  }

  lemma CtrlDecreases(s: State)
    requires Allowed(s, CtrlC)
    ensures Remaining(Next(s, CtrlC)) < Remaining(s)
  {
    if s.ctrl.CallsClose? && CanStep(s.rpc, CALL_CLOSE) { CloseCost(s.rpc); }
  }

  lemma RpcDecreases(s: State, ev: RpcProtocol.Event)
    requires ConnectionInv(s) && RpcAllowed(s, ev) && !ev.action.Send?
    ensures Measure(RpcProtocol.Next(s.rpc, ev)) < Measure(s.rpc)
  {
    ActDecreases(ev.role, s.rpc.At(ev.role), s.rpc.At(Other(ev.role)), ev.action);
  }

  lemma StepDecreases(s: State, ev: Event)
    requires Inv(s) && Allowed(s, ev) && !IsNew(ev)
    ensures Remaining(Next(s, ev)) < Remaining(s)
  {
    if ev.Rpc? { RpcDecreases(s, ev.event); }
    else if ev.CtrlC? { CtrlDecreases(s); }
  }

  /** Nothing is under way: no thread is inside disconnect, and what is left of the RPC connection has closed. */
  predicate Quiescent(s: State) {
    && EndpointFinished(s.rpc.client) && (s.gone || EndpointFinished(s.rpc.server))
    && Done(s.callback) && (s.ctrl.NotCalled? || Done(s.ctrl))
  }

  /** No thread of the connection can go on. */
  predicate AtHalt(s: State) {
    NextAction(s.rpc.client, s.rpc.server).None? && (s.gone || NextAction(s.rpc.server, s.rpc.client).None?)
  }

  /** A step of the client that the node's rules allow, or else the closing callback's own next step. */
  lemma ClientGoesOn(s: State) returns (ev: Event)
    requires Glue(s) && NextAction(s.rpc.client, s.rpc.server).Some?
    ensures Allowed(s, ev) && !IsNew(ev) && (ev.Rpc? || ev.Callback?)
  {
    if !s.rpc.client.reader.InCallback? {
      ev := Rpc(RpcProtocol.Event(ClientRole, NextAction(s.rpc.client, s.rpc.server).value));
    } else if Done(s.callback) {
      ev := Rpc(RpcProtocol.Event(ClientRole, Shut(true, false)));
    } else {
      ev := Callback;
    }
  }

  lemma RpcGoesOn(s: State) returns (ev: Event)
    requires Glue(s) && !AtHalt(s)
    ensures Allowed(s, ev) && !IsNew(ev) && (ev.Rpc? || ev.Callback?)
  {
    if NextAction(s.rpc.client, s.rpc.server).Some? {
      ev := ClientGoesOn(s);
    } else {
      ev := Rpc(RpcProtocol.Event(ServerRole, NextAction(s.rpc.server, s.rpc.client).value));
    }
  }

  /** close() does not come to a halt before its closing message is out, or it has found nothing to do. */
  lemma CloseGoesOn(s: State)
    requires Inv(s) && !s.gone && s.ctrl.InClose? && AtHalt(s) && !CloseReturned(s)
    ensures SomeClosed(s.rpc)
  {
    var c := s.rpc.client;
    assert NextAction(c, s.rpc.server).None?;
    CloseOnWire(ClientRole, c);
  }

  /** disconnect is under way or over in the ctrl+C thread, or the connection is closing. */
  predicate Underway(s: State) { Closing(s) || !s.ctrl.NotCalled? }

  /** disconnect ends in the ctrl+C thread only when the connection is closing. */
  lemma DoneIsClosing(s: State)
    requires Inv(s) && Done(s.ctrl)
    ensures Closing(s)
  {
    if s.ctrl.SkippedAll? && !s.gone {
      CloseOnWire(ServerRole, s.rpc.server);
      PeerStillOpen(ServerRole, s.rpc.server, s.rpc.client);
    }
  }

  /** A closing connection comes to a halt only when all that is left of it has finished. */
  lemma HaltIsFinished(s: State)
    requires Inv(s) && Closing(s) && AtHalt(s)
    ensures EndpointFinished(s.rpc.client) && (s.gone || EndpointFinished(s.rpc.server))
  {
    if s.gone { FinishesAlone(s.rpc.client, s.rpc.server); } else { StuckFinished(s.rpc); }
  }

  /** When the connection has come to a halt it is disconnect that goes on. */
  lemma CtrlGoesOn(s: State)
    requires Inv(s) && Underway(s) && !Quiescent(s) && AtHalt(s)
    ensures Allowed(s, CtrlC) && !s.ctrl.NotCalled?
  {
    if Done(s.ctrl) { DoneIsClosing(s); }
    if s.ctrl.InClose? && !CloseReturned(s) && !s.gone { CloseGoesOn(s); }
    if Closing(s) { HaltIsFinished(s); }
  }

  /** Until all is done some thread can go on, without ctrl+C being hit. */
  lemma GoesOn(s: State) returns (ev: Event)
    requires Inv(s) && Underway(s) && !Quiescent(s)
    ensures Allowed(s, ev) && !IsNew(ev) && (ev.Rpc? || ev.Callback? || (ev.CtrlC? && !s.ctrl.NotCalled?))
  {
    if AtHalt(s) {
      CtrlGoesOn(s);
      ev := CtrlC;
    } else {
      ev := RpcGoesOn(s);
    }
  }

  predicate Quiet(s: State, events: seq<Event>)
    decreases |events|
  {
    events == [] || (Allowed(s, events[0]) && !IsNew(events[0]) && Quiet(Next(s, events[0]), events[1..]))
  }

  /** A run in which the user does nothing new takes no more steps than the measure says. */
  lemma {:induction false} QuietIsBounded(s: State, events: seq<Event>)
    requires Inv(s) && Quiet(s, events)
    ensures |events| <= Remaining(s)
    decreases |events|
  {
    if events != [] {
      StepDecreases(s, events[0]);
      StepKeeps(s, events[0]);
      QuietIsBounded(Next(s, events[0]), events[1..]);
    }
  }

  lemma ClosedStays(s: System, ev: RpcProtocol.Event)
    requires CanStep(s, ev) && SomeClosed(s)
    ensures SomeClosed(RpcProtocol.Next(s, ev))
  {
    var (e, p) := Act(s.At(ev.role), s.At(Other(ev.role)), ev.action);
    assert s.At(ev.role).sent <= e.sent && p.sent == s.At(Other(ev.role)).sent;
  }

  lemma StaysUnderway(s: State, ev: Event)
    requires Underway(s) && Allowed(s, ev)
    ensures Underway(Next(s, ev))
  {
    if ev.Rpc? {
      if SomeClosed(s.rpc) { ClosedStays(s.rpc, ev.event); }
    } else if ev.CtrlC? {
      assert !Next(s, ev).ctrl.NotCalled?;
    }
  }

  /** What the threads leave alone on their way to rest. */
  predicate SameNode(s: State, e: State) {
    && e.constructed == s.constructed && e.roster.live == s.roster.live && e.roster.born == s.roster.born
    && e.roster.inTime == s.roster.inTime && e.gone == s.gone
    && (!s.ctrl.NotCalled? && !s.ctrl.SkippedAll? ==> !e.ctrl.SkippedAll?)
    && (s.ctrl.NotCalled? <==> e.ctrl.NotCalled?) && (s.constructed && e.early ==> s.early)
  }

  lemma StepSame(s: State, ev: Event)
    requires Allowed(s, ev) && (ev.Rpc? || ev.Callback? || (ev.CtrlC? && !s.ctrl.NotCalled?))
    ensures SameNode(s, Next(s, ev))
  {
  }

  /**
   * Shutdown never waits on itself: from whatever interleaving has brought disconnect under way in the ctrl+C thread, a
   * closing message on the wire, or the Mediator gone, the threads reach the end of it all; if ctrl+C was hit every
   * subscriber registered while the node was connected is disconnected then.
   */
  lemma {:induction false} ShutdownCompletes(s: State) returns (events: seq<Event>)
    requires Inv(s) && Underway(s)
    ensures Quiet(s, events)
    ensures var e := Run(s, events);
      && Inv(e) && Quiescent(e) && SameNode(s, e)
      && (!s.ctrl.NotCalled? ==> e.roster.live * e.roster.inTime <= e.roster.disconnected)
    decreases Remaining(s)
  {
    if Quiescent(s) {
      events := [];
      RestIsServed(s);
    } else {
      var ev := GoesOn(s);
      StepDecreases(s, ev);
      StepKeeps(s, ev);
      StaysUnderway(s, ev);
      StepSame(s, ev);
      var rest := ShutdownCompletes(Next(s, ev));
      events := [ev] + rest;
      assert events[1..] == rest;
    }
  }

  lemma {:induction false} LiveIsConstructed(s: State, events: seq<Event>)
    requires s.roster.live != {} ==> s.constructed
    ensures var e := Run(s, events); e.roster.live != {} ==> e.constructed
    decreases |events|
  {
    if events != [] {
      LiveIsConstructed(if Allowed(s, events[0]) then Next(s, events[0]) else s, events[1..]);
    }
  }

  /** At rest some disconnect has gone through subscribers_, or nobody came for it but a callback that was too early. */
  lemma RestIsServed(s: State)
    requires Inv(s) && Quiescent(s)
    ensures s.constructed ==> (s.roster.lastWalk.Some? <==> !s.early || !s.ctrl.NotCalled?)
    ensures !s.constructed ==> s.early && s.ctrl.NotCalled? && s.roster.lastWalk.None?
    ensures s.roster.lastWalk.Some? ==> s.roster.live * s.roster.inTime <= s.roster.disconnected
  {
  }

  lemma StuckAtRest(s: State)
    requires Inv(s) && Underway(s) && forall ev :: Allowed(s, ev) ==> IsNew(ev) || ev.MediatorGone?
    ensures Quiescent(s) && (!s.ctrl.NotCalled? ==> s.roster.live * s.roster.inTime <= s.roster.disconnected)
  {
    if Quiescent(s) {
      RestIsServed(s);
    } else {
      var ev := GoesOn(s);
    }
  }

  /** And a run that cannot go on, but for the user and the Mediator, is at that end: for every interleaving, not only for some. */
  lemma StuckIsQuiescent(events: seq<Event>)
    requires var s := Run(START, events); Underway(s) && forall ev :: Allowed(s, ev) ==> IsNew(ev) || ev.MediatorGone?
    ensures var s := Run(START, events);
      Quiescent(s) && (!s.ctrl.NotCalled? ==> s.roster.live * s.roster.inTime <= s.roster.disconnected)
  {
    ReachedInv(events);
    StuckAtRest(Run(START, events));
  }

  /**
   * When all has come to rest, a live subscriber is disconnected iff it was registered before the last time a disconnect
   * went through subscribers_. Such a walk took place iff ctrl+C was hit or the closing callback did not come before the
   * constructor's store; then it covers every subscriber registered while the node was connected.
   */
  lemma {:induction false} DisconnectedIff(events: seq<Event>, n: string)
    requires var s := Run(START, events); Quiescent(s) && n in s.roster.live
    ensures var s := Run(START, events); var r := s.roster;
      && n in r.born && (n in r.disconnected <==> WalkedSince(r, n))
      && (r.lastWalk.Some? <==> !s.early || !s.ctrl.NotCalled?)
      && (r.lastWalk.Some? && n in r.inTime ==> n in r.disconnected)
  {
    ReachedInv(events);
    LiveIsConstructed(START, events);
    RestIsServed(Run(START, events));
  }

  // ---------- Two ways to stay connected ----------

  /** A schedule of the connection as events of the node. */
  function Lifted(schedule: seq<RpcProtocol.Event>): seq<Event> {
    if schedule == [] then [] else [Rpc(schedule[0])] + Lifted(schedule[1..])
  }

  /** While the node only opens the connection, its threads are those of the connection. */
  lemma {:induction false} LiftedRun(s: State, schedule: seq<RpcProtocol.Event>)
    requires !s.gone && forall ev :: ev in schedule ==> ev.action.Open?
    ensures Run(s, Lifted(schedule)) == s.(rpc := RpcProtocol.Run(s.rpc, schedule))
    decreases |schedule|
  {
    if schedule != [] {
      var ev := schedule[0];
      assert Lifted(schedule)[1..] == Lifted(schedule[1..]);
      LiftedRun(if CanStep(s.rpc, ev) then s.(rpc := RpcProtocol.Next(s.rpc, ev)) else s, schedule[1..]);
    }
  }

  lemma {:induction false} RunAppend(s: State, first: seq<Event>, second: seq<Event>)
    ensures Run(s, first + second) == Run(Run(s, first), second)
    decreases |first|
  {
    if first == [] {
      assert first + second == second;
    } else {
      assert (first + second)[1..] == first[1..] + second;
      RunAppend(if Allowed(s, first[0]) then Next(s, first[0]) else s, first[1..], second);
    }
  }

  /** One more event at the end of a run. */
  lemma Extend(events: seq<Event>, ev: Event) returns (longer: seq<Event>)
    requires Allowed(Run(START, events), ev)
    ensures Run(START, longer) == Next(Run(START, events), ev)
  {
    longer := events + [ev];
    RunAppend(START, events, [ev]);
    assert [ev][1..] == [];
    assert Run(Next(Run(START, events), ev), []) == Next(Run(START, events), ev);
  }

  /** The connection has just been opened, and the constructor has not stored connected_. */
  lemma NodeOpens() returns (events: seq<Event>)
    ensures Run(START, events) == START.(rpc := Opened())
  {
    var schedule := OpeningRun();
    events := Lifted(schedule);
    LiftedRun(START, schedule);
  }

  /** On to rest, without ctrl+C. */
  lemma ToRest(events: seq<Event>) returns (longer: seq<Event>)
    requires Underway(Run(START, events))
    ensures var s, e := Run(START, events), Run(START, longer); Inv(e) && Quiescent(e) && SameNode(s, e)
  {
    ReachedInv(events);
    var rest := ShutdownCompletes(Run(START, events));
    longer := events + rest;
    RunAppend(START, events, rest);
  }

  /** All is at rest, and this live subscriber is connected still. */
  predicate LeftConnected(s: State, n: string) {
    Quiescent(s) && n in s.roster.live && n !in s.roster.disconnected
  }

  lemma EarlyAtRest(s: State, n: string)
    requires Inv(s) && Quiescent(s) && !s.constructed && n !in s.roster.born
    ensures Allowed(s, Construct) && Allowed(Next(s, Construct), CreateSubscriber(n))
    ensures var e := Next(Next(s, Construct), CreateSubscriber(n));
      LeftConnected(e, n) && n in e.roster.inTime && e.connected && e.early && e.ctrl.NotCalled?
  {
  }

  lemma LateAtRest(s: State, n: string)
    requires Inv(s) && Quiescent(s) && s.ctrl.Completed? && n !in s.roster.born
    ensures Allowed(s, CreateSubscriber(n)) && LeftConnected(Next(s, CreateSubscriber(n)), n)
  {
  }

  /**
   * If the Mediator stops before the node's constructor has stored connected_, the closing callback finds nothing to do:
   * here all is at rest and a subscriber made afterwards, while connected_ is true, stays connected.
   */
  lemma CallbackTooEarly(n: string) returns (events: seq<Event>)
    ensures var s := Run(START, events);
      LeftConnected(s, n) && n in s.roster.inTime && s.connected && s.early && s.ctrl.NotCalled?
  {
    events := NodeOpens();
    events := Extend(events, MediatorGone);
    events := ToRest(events);
    EarlyAtRest(Run(START, events), n);
    events := Extend(events, Construct);
    events := Extend(events, CreateSubscriber(n));
  }

  /**
   * createSubscriber does not look at connected_: a subscriber made after ctrl+C has done its work stays connected. The
   * Mediator has no part in it.
   */
  lemma SubscriberTooLate(n: string) returns (events: seq<Event>)
    ensures var s := Run(START, events); LeftConnected(s, n) && !s.gone && !s.early && !s.connected && s.ctrl.Completed?
  {
    events := NodeOpens();
    events := Extend(events, Construct);
    events := Extend(events, CtrlC);
    events := ToRest(events);
    CheckedCompletes(Run(START, events));
    LateAtRest(Run(START, events), n);
    events := Extend(events, CreateSubscriber(n));
  }

  lemma CheckedCompletes(s: State)
    requires Inv(s) && Quiescent(s) && !s.ctrl.NotCalled? && !s.ctrl.SkippedAll?
    ensures s.ctrl.Completed? && !s.connected
  {
  }
}
