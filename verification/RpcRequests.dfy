/** What becomes of a request or response: the guard that decides it, and runs in which one is lost. */
module RpcRequests {
  import opened Options
  import opened RpcProtocol
  import opened RpcSafety
  import opened RpcClosing
  import opened RpcProgress
  import opened RpcAlone

  /** The statement puts a request or a response on the wire, under sending_lock_. */
  predicate Issues(e: Endpoint, p: Endpoint, a: Action) { Enabled(e, p, a) && (a.Send? || a.Reply?) }

  function Issued(e: Endpoint, a: Action): Message
    requires a.Send? || (a.Reply? && e.reader.Replying?)
  {
    if a.Send? then a.message else e.reader.response
  }

  /** Under the lock is_connected_ says whether the own closing message is still to come. */
  lemma GuardIsHistory(schedule: seq<Event>, role: Role, a: Action)
    requires Issues(Reached(schedule).At(role), Reached(schedule).At(Other(role)), a)
    ensures var e := Reached(schedule).At(role); e.connected <==> Close !in e.sent
  {
    ReachedInv(schedule, role);
    CloseOnWire(role, Reached(schedule).At(role));
  }

  lemma IssueEarly(e: Endpoint, p: Endpoint, m: Message, seen: bool)
    ensures Issue(e, p, m, seen).0.early == if Close in e.sent then e.early else e.early + [m]
    ensures Transmit(e, p, m, seen).0.early == e.early
  {
  }

  lemma OpenEarly(e: Endpoint, p: Endpoint, seen: bool)
    requires Enabled(e, p, Open(seen))
    ensures OpenStep(e, p, seen).0.early == e.early
  {
    if OpeningSends(e.reader) { IssueEarly(e.(reader := AfterSending(e.reader)), p, OpeningMessage(e.reader), seen); }
  }

  lemma ShutEarly(e: Endpoint, p: Endpoint, seen: bool, c: bool)
    requires Enabled(e, p, Shut(seen, c))
    ensures ShutStep(e, p, seen, c).0.early == e.early
  {
    if e.reader.ReaderCleared? { IssueEarly(e.(reader := ClosingFd), p, Close, seen); }
  }

  lemma CloserEarly(e: Endpoint, p: Endpoint, seen: bool)
    requires Enabled(e, p, Step(seen))
    ensures CloserStep(e, p, seen).0.early == e.early
  {
    if e.closer.CloserCleared? { IssueEarly(e.(closer := CloserSent), p, Close, seen); }
  }

  /** No statement takes a request out of the record of early ones. */
  lemma ActEarly(e: Endpoint, p: Endpoint, a: Action)
    requires Enabled(e, p, a)
    ensures e.early <= Act(e, p, a).0.early
  {
    if a.Open? { OpenEarly(e, p, a.peerSeen); }
    else if a.Reply? { IssueEarly(e.(reader := Reading), p, e.reader.response, a.peerSeen); }
    else if a.Shut? { ShutEarly(e, p, a.peerSeen, a.callbackCloses); }
    else if a.Step? { CloserEarly(e, p, a.peerSeen); }
    else if a.Send? { IssueEarly(e, p, a.message, a.peerSeen); }
  }

  lemma StepEarly(s: System, ev: Event, role: Role)
    requires CanStep(s, ev)
    ensures var e, e' := s.At(role), Next(s, ev).At(role);
      e.early <= e'.early && (Close in e.sent ==> Close in e'.sent && e'.early == e.early)
  {
    ActEarly(s.At(ev.role), s.At(Other(ev.role)), ev.action);
  }

  /** Early requests are only added, and none once the own closing message is on the wire. */
  lemma {:induction false} EarlyGrows(s: System, schedule: seq<Event>, role: Role)
    ensures var e, e' := s.At(role), Run(s, schedule).At(role);
      e.early <= e'.early && (Close in e.sent ==> e'.early == e.early)
    decreases |schedule|
  {
    if schedule != [] {
      if CanStep(s, schedule[0]) {
        StepEarly(s, schedule[0], role);
        EarlyGrows(Next(s, schedule[0]), schedule[1..], role);
      } else {
        EarlyGrows(s, schedule[1..], role);
      }
    }
  }

  /** The poll of a send in this statement would report a peer that has hung up. */
  predicate Polls(a: Action) { (a.Open? || a.Reply? || a.Shut? || a.Step? || a.Send?) && a.peerSeen }

  /** An endpoint whose descriptor is closed, or that sees the peer's closed, puts nothing on the wire. */
  lemma ClosedIsSilent(e: Endpoint, p: Endpoint, a: Action)
    requires Enabled(e, p, a) && (!e.open || (!p.open && Polls(a)))
    ensures Act(e, p, a).0.sent == e.sent && Act(e, p, a).1 == p
  {
    if a.Open? { if OpeningSends(e.reader) { SilentSend(e.(reader := AfterSending(e.reader)), p, OpeningMessage(e.reader), a.peerSeen); } }
    else if a.Finish? { assert Act(e, p, a) == (FinishStep(e, a.result), p); }
    else if a.Reply? { SilentSend(e.(reader := Reading), p, e.reader.response, a.peerSeen); }
    else if a.Shut? { if e.reader.ReaderCleared? { SilentSend(e.(reader := ClosingFd), p, Close, a.peerSeen); } }
    else if a.Step? { if e.closer.CloserCleared? { SilentSend(e.(closer := CloserSent), p, Close, a.peerSeen); } }
    else if a.Send? { SilentSend(e, p, a.message, a.peerSeen); }
  }

  lemma SilentSend(e: Endpoint, p: Endpoint, m: Message, seen: bool)
    requires !e.open || (!p.open && seen)
    ensures Transmit(e, p, m, seen) == (e, p) && Issue(e, p, m, seen).0.sent == e.sent && Issue(e, p, m, seen).1 == p
  {
  }

  lemma IssueSends(e: Endpoint, p: Endpoint, m: Message, seen: bool)
    requires e.open && (p.open || !seen)
    ensures Issue(e, p, m, seen).0.sent == e.sent + [m] && Issue(e, p, m, seen).1.inbox == p.inbox + [m]
  {
  }

  /** Otherwise a request or response goes on the wire and into the peer's channel. */
  lemma OpenSends(e: Endpoint, p: Endpoint, a: Action)
    requires Issues(e, p, a) && e.open && (p.open || !Polls(a))
    ensures Act(e, p, a).0.sent == e.sent + [Issued(e, a)] && Act(e, p, a).1.inbox == p.inbox + [Issued(e, a)]
  {
    if a.Send? { IssueSends(e, p, a.message, a.peerSeen); }
    else { IssueSends(e.(reader := Reading), p, e.reader.response, a.peerSeen); }
  }

  /** The run that does one more statement after a prefix and then goes on. */
  function Onward(prefix: seq<Event>, ev: Event, rest: seq<Event>): System
    requires CanStep(Reached(prefix), ev)
  {
    Run(Next(Reached(prefix), ev), rest)
  }

  lemma OnwardReached(prefix: seq<Event>, ev: Event, rest: seq<Event>)
    requires CanStep(Reached(prefix), ev)
    ensures Onward(prefix, ev, rest) == Reached(prefix + [ev] + rest)
  {
    RunAppend(Initial(), prefix + [ev], rest);
    RunAppend(Initial(), prefix, [ev]);
    RunOne(Reached(prefix), ev);
  }

  /** What the statement adds to the early requests. */
  lemma IssuedEarly(prefix: seq<Event>, role: Role, a: Action)
    requires Issues(Reached(prefix).At(role), Reached(prefix).At(Other(role)), a)
    ensures var s := Reached(prefix); var e, e' := s.At(role), Next(s, Event(role, a)).At(role);
      && e'.early == (if e.connected then e.early + [Issued(e, a)] else e.early)
      && (!e.connected ==> Close in e'.sent)
  {
    GuardIsHistory(prefix, role, a);
    var e, p := Reached(prefix).At(role), Reached(prefix).At(Other(role));
    StepEarly(Reached(prefix), Event(role, a), role);
    if a.Send? { IssueEarly(e, p, a.message, a.peerSeen); }
    else { IssueEarly(e.(reader := Reading), p, e.reader.response, a.peerSeen); }
  }

  /**
   * A request or response is handled, once the peer takes its closing branch, iff is_connected_ was true when its sender
   * took the lock: then it comes right behind what was issued before it. Otherwise nothing but that is handled.
   */
  lemma RequestHandledIff(prefix: seq<Event>, role: Role, a: Action, rest: seq<Event>)
    requires Issues(Reached(prefix).At(role), Reached(prefix).At(Other(role)), a)
    requires IsShutting(Onward(prefix, Event(role, a), rest).At(Other(role)).reader)
    ensures var e, h := Reached(prefix).At(role), Onward(prefix, Event(role, a), rest).At(Other(role)).handled;
      && (e.connected <==> e.early + [Issued(e, a)] <= h)
      && (!e.connected ==> h == e.early)
  {
    IssuedEarly(prefix, role, a);
    OnwardReached(prefix, Event(role, a), rest);
    ZeroMessageLoss(prefix + [Event(role, a)] + rest, role);
    EarlyGrows(Next(Reached(prefix), Event(role, a)), rest, role);
  }

  /** The reader of an endpoint keeps a response it is about to send until it sends it. */
  lemma {:induction false} ReplyingStays(s: System, schedule: seq<Event>, role: Role)
    requires s.At(role).reader.Replying?
    requires forall ev :: ev in schedule ==> !(ev.role == role && ev.action.Reply?)
    ensures Run(s, schedule).At(role).reader == s.At(role).reader
    decreases |schedule|
  {
    if schedule != [] {
      if CanStep(s, schedule[0]) {
        ReplyingStep(s, schedule[0], role);
        ReplyingStays(Next(s, schedule[0]), schedule[1..], role);
      } else {
        ReplyingStays(s, schedule[1..], role);
      }
    }
  }

  lemma ReplyingStep(s: System, ev: Event, role: Role)
    requires CanStep(s, ev) && s.At(role).reader.Replying? && !(ev.role == role && ev.action.Reply?)
    ensures Next(s, ev).At(role).reader == s.At(role).reader
  {
    var e, p, a := s.At(ev.role), s.At(Other(ev.role)), ev.action;
    if ev.role == role { OwnReaderStays(e, p, a); } else { ThreadMoves(e, p, a); }
  }

  lemma OwnReaderStays(e: Endpoint, p: Endpoint, a: Action)
    requires Enabled(e, p, a) && e.reader.Replying? && !a.Reply?
    ensures Act(e, p, a).0.reader == e.reader
  {
    if a.Send? { IssueFrame(e, p, a.message, a.peerSeen); }
    else if a.Step? { CloserReader(e, p, a.peerSeen); }
  }

  lemma CloserReader(e: Endpoint, p: Endpoint, seen: bool)
    requires Enabled(e, p, Step(seen))
    ensures CloserStep(e, p, seen).0.reader == e.reader
  {
    if e.closer.CloserCleared? { TransmitFrame(e.(closer := CloserSent), p, Close, seen); }
  }

  /**
   * The response to a full duplex request: whatever else happens between the return of the callback and the send, it
   * carries the callback's result under the name the request gave, and its fate is that of any request. When the sender is
   * connected the peer handles it right behind what was issued before it.
   */
  lemma ResponseHandled(prefix: seq<Event>, role: Role, v: string, mid: seq<Event>, seen: bool, rest: seq<Event>)
    requires var r := Reached(prefix).At(role).reader; r.Handling? && r.message.Call?
    requires forall ev :: ev in mid ==> !(ev.role == role && ev.action.Reply?)
    requires var s := Onward(prefix, Event(role, Finish(Some(v))), mid);
      && Enabled(s.At(role), s.At(Other(role)), Reply(seen))
      && IsShutting(Run(Next(s, Event(role, Reply(seen))), rest).At(Other(role)).reader)
    ensures var s := Onward(prefix, Event(role, Finish(Some(v))), mid);
      var e, h := s.At(role), Run(Next(s, Event(role, Reply(seen))), rest).At(Other(role)).handled;
      var response := Request(Reached(prefix).At(role).reader.message.reply, v);
      && Issued(e, Reply(seen)) == response
      && (e.connected <==> e.early + [response] <= h)
  {
    var finish := Event(role, Finish(Some(v)));
    ReplyingStays(Next(Reached(prefix), finish), mid, role);
    OnwardReached(prefix, finish, mid);
    RequestHandledIff(prefix + [finish] + mid, role, Reply(seen), rest);
  }

  /** Without a callback, or for a plain request, nothing is sent: the receive cycle is back at its read. */
  lemma NothingToRespond(prefix: seq<Event>, role: Role, result: Option<string>)
    requires var r := Reached(prefix).At(role).reader; r.Handling? && (r.message.Request? || result.None?)
    ensures var s, s' := Reached(prefix), Next(Reached(prefix), Event(role, Finish(result)));
      && s'.At(Other(role)) == s.At(Other(role)) && s'.At(role).sent == s.At(role).sent
      && s'.At(role).reader.Reading?
  {
  }

  // ---------- Runs in which one is lost ----------

  /** close() up to its wait. */
  lemma CloseUpToWait() returns (schedule: seq<Event>)
    ensures var s := Reached(schedule);
      && s.client.sent == [Hello, Close] && s.client.early == s.client.late == []
      && s.client.holder.Free? && s.client.reader.Reading? && s.client.open && s.server.open
  {
    schedule := OpeningRun();
    schedule := Extend(schedule, OnClient(StartClose));
    schedule := Extend(schedule, OnClient(Step(true)));
    schedule := Extend(schedule, OnClient(Step(true)));
    schedule := Extend(schedule, OnClient(Step(true)));
    schedule := Extend(schedule, OnClient(Step(true)));
  }

  lemma RequestAfterClose(m: Message) returns (schedule: seq<Event>)
    requires IsWork(m)
    ensures var c := Reached(schedule).client; Close in c.sent && c.early == [] && c.late == [m]
  {
    schedule := CloseUpToWait();
    schedule := Extend(schedule, OnClient(Send(m, true)));
  }

  /**
   * sendRequest does not look at is_connected_, so a request issued after the own closing message still goes on the wire
   * and is lost: here is a run that closes both sides and leaves one unhandled.
   */
  lemma LateRequestLost(m: Message) returns (schedule: seq<Event>)
    requires IsWork(m)
    ensures var s := Reached(schedule); Finished(s) && m in s.client.sent && s.server.handled == []
  {
    var prefix := RequestAfterClose(m);
    ReachedInv(prefix, ClientRole);
    var rest := ClosingCompletes(Reached(prefix));
    schedule := prefix + rest;
    RunAppend(Initial(), prefix, rest);
    LateIsSent(prefix, rest, m);
  }

  lemma CallThenLock(call: Message) returns (schedule: seq<Event>)
    requires call.Call?
    ensures Reached(schedule) == CallAndLock(call)
  {
    schedule := OpeningRun();
    schedule := Extend(schedule, OnServer(Send(call, true)));
    schedule := Extend(schedule, OnClient(StartClose));
    schedule := Extend(schedule, OnClient(Step(true)));
  }

  function CallAndLock(call: Message): System {
    System(Opened().client.(holder := ByCloser, closer := CloserLocked, inbox := [call]),
           Opened().server.(sent := [Ack, Clear, call], early := [call]))
  }

  /** The server has sent a call, and the client has called close(), before the client reads. */
  lemma CallThenClose(call: Message) returns (schedule: seq<Event>)
    requires call.Call?
    ensures Reached(schedule) == CallAndClose(call)
  {
    schedule := CallThenLock(call);
    schedule := Extend(schedule, OnClient(Step(true)));
    schedule := Extend(schedule, OnClient(Step(true)));
    schedule := Extend(schedule, OnClient(Step(true)));
  }

  function CallAndClose(call: Message): System {
    System(Opened().client.(connected := false, closer := Waiting, inbox := [call], sent := [Hello, Close]),
           Opened().server.(inbox := [Close], sent := [Ack, Clear, call], early := [call]))
  }

  lemma ResponseIssuedLate(call: Message, result: string) returns (schedule: seq<Event>)
    requires call.Call?
    ensures var s := Reached(schedule);
      && Close in s.client.sent && s.client.early == [] && s.client.late == [Request(call.reply, result)]
      && s.server.early == [call]
  {
    schedule := CallThenClose(call);
    schedule := Extend(schedule, OnClient(Read));
    schedule := Extend(schedule, OnClient(Finish(Some(result))));
    schedule := Extend(schedule, OnClient(Reply(true)));
  }

  /**
   * A full duplex request that is issued early is handled, but its response is lost when the handling side has sent its
   * own closing message by then: here for any such request and any result.
   */
  lemma ResponseLost(call: Message, result: string) returns (schedule: seq<Event>)
    requires call.Call?
    ensures var s := Reached(schedule);
      && Finished(s) && call in s.client.handled
      && Request(call.reply, result) in s.client.sent && s.server.handled == []
  {
    var prefix := ResponseIssuedLate(call, result);
    ReachedInv(prefix, ClientRole);
    var rest := ClosingCompletes(Reached(prefix));
    schedule := prefix + rest;
    RunAppend(Initial(), prefix, rest);
    EarlyIsHandled(prefix, rest, call);
    LateIsSent(prefix, rest, Request(call.reply, result));
  }

  /** An early request of the server is handled in the end. */
  lemma EarlyIsHandled(prefix: seq<Event>, rest: seq<Event>, m: Message)
    requires m in Reached(prefix).server.early && Finished(Reached(prefix + rest))
    ensures m in Reached(prefix + rest).client.handled
  {
    RunAppend(Initial(), prefix, rest);
    EarlyGrows(Reached(prefix), rest, ServerRole);
    ZeroMessageLoss(prefix + rest, ServerRole);
  }

  /** A late message of the client is on the wire, and the server handles none. */
  lemma LateIsSent(prefix: seq<Event>, rest: seq<Event>, m: Message)
    requires Close in Reached(prefix).client.sent && Reached(prefix).client.early == [] && m in Reached(prefix).client.late
    requires Finished(Reached(prefix + rest))
    ensures m in Reached(prefix + rest).client.sent && Reached(prefix + rest).server.handled == []
  {
    RunAppend(Initial(), prefix, rest);
    LogsStay(Reached(prefix), rest);
    ZeroMessageLoss(prefix + rest, ClientRole);
    ReachedInv(prefix + rest, ClientRole);
    var c := Reached(prefix + rest).client;
    CloseOnWire(ClientRole, c);
    var i :| 0 <= i < |Reached(prefix).client.late| && Reached(prefix).client.late[i] == m;
    assert c.late[i] == m;
    assert c.sent[|HandshakeSent(ClientRole, c.reader) + c.early| + 1 + i] == m;
  }
}
