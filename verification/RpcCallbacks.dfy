/** The callbacks of an endpoint, in the order in which they finish, for every schedule. */
module RpcCallbacks {
  import opened Options
  import opened RpcProtocol
  import opened RpcSafety
  import opened RpcClosing

  datatype Ran = RanConnecting | RanRequest(message: Message) | RanClosing

  /** The callback that finishes with a step of the endpoint, if one does. */
  function RanBy(e: Endpoint, a: Action): seq<Ran> {
    if a.Open? && e.reader.Connecting? then [RanConnecting]
    else if a.Finish? && e.reader.Handling? then [RanRequest(e.reader.message)]
    else if a.Shut? && e.reader.InCallback? && !(a.callbackCloses && e.connected) then [RanClosing]
    else []
  }

  function Advance(s: System, ev: Event): System { if CanStep(s, ev) then Next(s, ev) else s }

  function RanAt(s: System, ev: Event, role: Role): seq<Ran> {
    if CanStep(s, ev) && ev.role == role then RanBy(s.At(role), ev.action) else []
  }

  /** The callbacks of one endpoint along a run. */
  function Trace(s: System, schedule: seq<Event>, role: Role): seq<Ran>
    decreases |schedule|
  {
    if schedule == [] then [] else RanAt(s, schedule[0], role) + Trace(Advance(s, schedule[0]), schedule[1..], role)
  }

  function Requests(ms: seq<Message>): seq<Ran> { seq(|ms|, i requires 0 <= i < |ms| => RanRequest(ms[i])) }

  /** What the endpoint's histories say of its callbacks. */
  function Log(e: Endpoint): seq<Ran> {
    (if e.connectings > 0 then [RanConnecting] else []) + Requests(e.handled) + (if e.callbacks > 0 then [RanClosing] else [])
  }

  /** A step that runs no callback leaves the histories of callbacks alone. */
  predicate SameCallbacks(e: Endpoint, e': Endpoint) {
    e'.connectings == e.connectings && e'.handled == e.handled && e'.callbacks == e.callbacks
  }

  lemma OpenLog(role: Role, e: Endpoint, p: Endpoint, seen: bool)
    requires Local(role, e) && Enabled(e, p, Open(seen))
    ensures Log(OpenStep(e, p, seen).0) == Log(e) + RanBy(e, Open(seen))
  {
    var e' := OpenStep(e, p, seen).0;
    if e.reader.Connecting? {
      assert Requests(e.handled) == [] && Log(e) == [];
    } else {
      assert SameCallbacks(e, e');
    }
  }

  lemma FinishLog(role: Role, e: Endpoint, result: Option<string>)
    requires Local(role, e) && e.reader.Handling?
    ensures Log(FinishStep(e, result)) == Log(e) + [RanRequest(e.reader.message)]
  {
    assert Requests(e.handled + [e.reader.message]) == Requests(e.handled) + [RanRequest(e.reader.message)];
  }

  lemma ShutLog(role: Role, e: Endpoint, p: Endpoint, seen: bool, c: bool)
    requires Local(role, e) && Enabled(e, p, Shut(seen, c))
    ensures Log(ShutStep(e, p, seen, c).0) == Log(e) + RanBy(e, Shut(seen, c))
  {
    var e' := ShutStep(e, p, seen, c).0;
    if !e.reader.InCallback? { assert SameCallbacks(e, e'); }
  }

  /** A send runs no callback. */
  lemma IssueSame(e: Endpoint, p: Endpoint, m: Message, seen: bool)
    ensures var (e', p') := Issue(e, p, m, seen); SameCallbacks(e, e') && SameCallbacks(p, p')
    ensures var (e', p') := Transmit(e, p, m, seen); SameCallbacks(e, e') && SameCallbacks(p, p')
  {
  }

  lemma ReadSame(e: Endpoint)
    requires e.reader.Reading?
    ensures SameCallbacks(e, ReadStep(e))
  {
  }

  lemma CloserSame(e: Endpoint, p: Endpoint, seen: bool)
    requires Enabled(e, p, Step(seen))
    ensures var (e', p') := CloserStep(e, p, seen); SameCallbacks(e, e') && SameCallbacks(p, p')
  {
    if e.closer.CloserCleared? { IssueSame(e.(closer := CloserSent), p, Close, seen); }
  }

  lemma StepLog(role: Role, e: Endpoint, p: Endpoint, a: Action)
    requires Local(role, e) && Enabled(e, p, a)
    ensures Log(Act(e, p, a).0) == Log(e) + RanBy(e, a)
  {
    if a.Open? { OpenLog(role, e, p, a.peerSeen); }
    else if a.Read? { ReadSame(e); }
    else if a.Finish? { FinishLog(role, e, a.result); }
    else if a.Reply? { IssueSame(e.(reader := Reading), p, e.reader.response, a.peerSeen); }
    else if a.Shut? { ShutLog(role, e, p, a.peerSeen, a.callbackCloses); }
    else if a.Step? { CloserSame(e, p, a.peerSeen); }
    else if a.Send? { IssueSame(e, p, a.message, a.peerSeen); }
  }

  lemma OpenPeer(e: Endpoint, p: Endpoint, seen: bool)
    requires Enabled(e, p, Open(seen))
    ensures SameCallbacks(p, OpenStep(e, p, seen).1)
  {
    if e.reader.SendHello? { IssueSame(e.(reader := AwaitClear), p, Hello, seen); }
    else if e.reader.SendAck? { IssueSame(e.(reader := AwaitHello), p, Ack, seen); }
    else if e.reader.SendClear? { IssueSame(e.(reader := Reading), p, Clear, seen); }
  }

  /** A step runs no callback of the peer. */
  lemma PeerLog(e: Endpoint, p: Endpoint, a: Action)
    requires Enabled(e, p, a)
    ensures SameCallbacks(p, Act(e, p, a).1)
  {
    if a.Open? { OpenPeer(e, p, a.peerSeen); }
    else if a.Reply? { IssueSame(e.(reader := Reading), p, e.reader.response, a.peerSeen); }
    else if a.Shut? { if e.reader.ReaderCleared? { IssueSame(e.(reader := ClosingFd), p, Close, a.peerSeen); } }
    else if a.Step? { CloserSame(e, p, a.peerSeen); }
    else if a.Send? { IssueSame(e, p, a.message, a.peerSeen); }
  }

  lemma RunStep(s: System, ev: Event, role: Role)
    requires Inv(s)
    ensures Log(s.At(role)) + RanAt(s, ev, role) == Log(Advance(s, ev).At(role))
  {
    if CanStep(s, ev) {
      var e, p := s.At(ev.role), s.At(Other(ev.role));
      if ev.role == role { StepLog(role, e, p, ev.action); } else { PeerLog(e, p, ev.action); }
    }
  }

  lemma AdvanceKeeps(s: System, ev: Event)
    requires Inv(s)
    ensures Inv(Advance(s, ev))
  {
    if CanStep(s, ev) { ActKeeps(ev.role, s.At(ev.role), s.At(Other(ev.role)), ev.action); }
  }

  lemma RunHead(s: System, schedule: seq<Event>)
    requires schedule != []
    ensures Run(s, schedule) == Run(Advance(s, schedule[0]), schedule[1..])
  {
  }

  lemma Regroup<T>(a: seq<T>, b: seq<T>, c: seq<T>)
    ensures a + (b + c) == (a + b) + c
  {
  }

  lemma {:induction false} TraceIsLog(s: System, schedule: seq<Event>, role: Role)
    requires Inv(s)
    ensures Log(s.At(role)) + Trace(s, schedule, role) == Log(Run(s, schedule).At(role))
    decreases |schedule|
  {
    if schedule != [] {
      var s' := Advance(s, schedule[0]);
      RunStep(s, schedule[0], role);
      AdvanceKeeps(s, schedule[0]);
      RunHead(s, schedule);
      TraceIsLog(s', schedule[1..], role);
      Regroup(Log(s.At(role)), RanAt(s, schedule[0], role), Trace(s', schedule[1..], role));
    }
  }

  /** A prefix of the connecting callback, then requests, then the closing callback. */
  predicate Ordered(t: seq<Ran>) {
    forall i :: 0 <= i < |t| ==> (t[i].RanConnecting? <==> i == 0) && (t[i].RanClosing? ==> i == |t| - 1)
  }

  lemma LogOrdered(role: Role, e: Endpoint)
    requires Local(role, e)
    ensures role.ServerRole? ==> Ordered(Log(e))
    ensures role.ClientRole? ==> Ordered([RanConnecting] + Log(e))
  {
  }

  lemma InitialLog(role: Role)
    ensures Inv(Initial()) && Log(Initial().At(role)) == []
  {
  }

  /**
   * In every run the server's callbacks are the connecting callback, then the handled requests in order, then the closing
   * callback once, and nothing after it; the client's are the same without the first.
   */
  lemma CallbacksInOrder(schedule: seq<Event>, role: Role)
    ensures var t := Trace(Initial(), schedule, role);
      && t == Log(Reached(schedule).At(role))
      && (role.ServerRole? ==> Ordered(t))
      && (role.ClientRole? ==> Ordered([RanConnecting] + t))
  {
    InitialLog(role);
    TraceIsLog(Initial(), schedule, role);
    ReachedInv(schedule, role);
    LogOrdered(role, Reached(schedule).At(role));
  }
}
