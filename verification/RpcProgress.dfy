/** Closing terminates: a measure bounds every run, and a run that cannot go on has closed both sides. */
module RpcProgress {
  import opened Options
  import opened RpcProtocol
  import opened RpcSafety
  import opened RpcClosing

  /** A full duplex request is dearer than the response it may cause, and every message dearer than reading it. */
  function Weight(m: Message): nat { if m.Call? then 5 else if m.Request? then 2 else 1 }

  function Pending(ms: seq<Message>): nat { if ms == [] then 0 else Weight(ms[0]) + Pending(ms[1..]) }

  function ReaderRank(r: Reader): nat {
    if r.Ended? || r.SelfWait? then 0
    else if r.Notifying? then 7
    else if r.InCallback? then 8
    else if r.FdClosed? then 9
    else if r.ClosingFd? then 10
    else if r.ReaderCleared? then 12
    else if r.ReaderLocked? then 13
    else if r.WantLock? then 14
    else if r.Reading? then 20
    else if r.Replying? then 23
    else if r.Handling? then (if r.message.Call? then 24 else 21)
    else if r.SendClear? then 35
    else if r.AwaitClear? then 36
    else if r.Connecting? then 37
    else if r.SendHello? || r.AwaitHello? then 38
    else if r.MarkConnected? then 39
    else 40
  }

  function CloserRank(c: Closer): nat {
    match c
    case CloserIdle => 8
    case PassedCheck => 7
    case CloserLocked => 6
    case CloserCleared => 5
    case CloserSent => 3
    case Waiting => 2
    case Returned | Skipped => 0
  }

  function Effort(e: Endpoint): nat { Pending(e.inbox) + ReaderRank(e.reader) + CloserRank(e.closer) }

  function Measure(s: System): nat { Effort(s.client) + Effort(s.server) }

  lemma PendingAppend(ms: seq<Message>, m: Message)
    ensures Pending(ms + [m]) == Pending(ms) + Weight(m)
  {
    if ms == [] {
      assert [m][1..] == [];
    } else {
      PendingAppend(ms[1..], m);
      assert (ms + [m])[1..] == ms[1..] + [m];
    }
  }

  lemma TransmitCost(e: Endpoint, p: Endpoint, m: Message, seen: bool)
    ensures var (e', p') := Transmit(e, p, m, seen);
      Effort(e') == Effort(e) && Effort(p') <= Effort(p) + Weight(m)
  {
    PendingAppend(p.inbox, m);
  }

  /** The total effort of an endpoint and its peer. */
  function Total(ep: (Endpoint, Endpoint)): nat { Effort(ep.0) + Effort(ep.1) }

  lemma OpenSendDecreases(e: Endpoint, p: Endpoint, seen: bool)
    requires OpeningSends(e.reader)
    ensures Total(OpenSend(e, p, seen)) < Total((e, p))
  {
    TransmitCost(e.(reader := AfterSending(e.reader)), p, OpeningMessage(e.reader), seen);
  }

  lemma OpenDecreases(e: Endpoint, p: Endpoint, seen: bool)
    requires Enabled(e, p, Open(seen))
    ensures Total(OpenStep(e, p, seen)) < Total((e, p))
  {
    if OpeningSends(e.reader) { OpenSendDecreases(e, p, seen); } else { OpenReadDecreases(e); }
  }

  lemma OpenReadDecreases(e: Endpoint)
    requires IsOpening(e.reader) && !OpeningSends(e.reader)
    requires e.reader.AwaitAck? || e.reader.AwaitClear? || e.reader.AwaitHello? ==> e.inbox != []
    ensures Effort(OpenRead(e)) < Effort(e)
  {
    if e.inbox != [] { TakeDecreases(e, e.inbox[0]); }
  }

  lemma TakeDecreases(e: Endpoint, m: Message)
    requires e.inbox != [] && e.inbox[0] == m
    ensures Pending(e.inbox[1..]) < Pending(e.inbox)
  {
  }

  lemma IssueCost(e: Endpoint, p: Endpoint, m: Message, seen: bool)
    ensures Total(Issue(e, p, m, seen)) <= Total((e, p)) + Weight(m)
  {
    TransmitCost(e, p, m, seen);
    var (e', p') := Transmit(e, p, m, seen);
    assert p' == Issue(e, p, m, seen).1;
  }

  lemma ReplyDecreases(e: Endpoint, p: Endpoint, seen: bool)
    requires Enabled(e, p, Reply(seen)) && e.reader.response.Request?
    ensures Total(Act(e, p, Reply(seen))) < Total((e, p))
  {
    var e0 := e.(reader := Reading);
    IssueCost(e0, p, e.reader.response, seen);
    assert Effort(e0) + 3 == Effort(e);
  }

  lemma ShutDecreases(e: Endpoint, p: Endpoint, seen: bool, callbackCloses: bool)
    requires Enabled(e, p, Shut(seen, callbackCloses))
    ensures Total(ShutStep(e, p, seen, callbackCloses)) < Total((e, p))
  {
    if e.reader.ReaderCleared? { TransmitCost(e.(reader := ClosingFd), p, Close, seen); }
    else { ShutQuietlyDecreases(e, callbackCloses); }
  }

  lemma ShutQuietlyDecreases(e: Endpoint, callbackCloses: bool)
    requires IsShutting(e.reader) && !e.reader.ReaderCleared? && !e.reader.SelfWait? && !e.reader.Ended?
    ensures Effort(ShutQuietly(e, callbackCloses)) < Effort(e)
  {
  }

  lemma CloserDecreases(e: Endpoint, p: Endpoint, seen: bool)
    requires Enabled(e, p, Step(seen))
    ensures Total(CloserStep(e, p, seen)) < Total((e, p))
  {
    if e.closer.CloserCleared? { TransmitCost(e.(closer := CloserSent), p, Close, seen); }
  }

  lemma ReadDecreases(e: Endpoint)
    requires e.reader.Reading?
    ensures Effort(ReadStep(e)) < Effort(e)
  {
  }

  lemma FinishDecreases(e: Endpoint, result: Option<string>)
    requires e.reader.Handling?
    ensures Effort(FinishStep(e, result)) < Effort(e)
  {
  }

  /** Every step but a new request of a user thread makes the measure smaller. */
  lemma ActDecreases(role: Role, e: Endpoint, p: Endpoint, a: Action)
    requires Enabled(e, p, a) && !a.Send? && ReaderFits(role, e.reader)
    ensures Total(Act(e, p, a)) < Total((e, p))
  {
    if a.Open? { OpenDecreases(e, p, a.peerSeen); }
    else if a.Read? { ReadDecreases(e); }
    else if a.Finish? { FinishDecreases(e, a.result); }
    else if a.Reply? { ReplyDecreases(e, p, a.peerSeen); }
    else if a.Shut? { ShutDecreases(e, p, a.peerSeen, a.callbackCloses); }
    else if a.Step? { CloserDecreases(e, p, a.peerSeen); }
  }

  /** No thread is on its way through closing: both receive cycles have ended and no close() waits. */
  predicate Finished(s: System) { EndpointFinished(s.client) && EndpointFinished(s.server) }

  predicate EndpointFinished(e: Endpoint) {
    e.reader.Ended? && (e.closer.CloserIdle? || e.closer.Returned? || e.closer.Skipped?)
  }

  /** The step an endpoint can take next on its own, if there is one, the reader before the closer. */
  function NextAction(e: Endpoint, p: Endpoint): Option<Action> {
    if Enabled(e, p, Open(true)) then Some(Open(true))
    else if Enabled(e, p, Read) then Some(Read)
    else if Enabled(e, p, Finish(None)) then Some(Finish(None))
    else if Enabled(e, p, Reply(true)) then Some(Reply(true))
    else if Enabled(e, p, Shut(true, true)) then Some(Shut(true, true))
    else if Enabled(e, p, Step(true)) then Some(Step(true))
    else None
  }

  /** An endpoint with nothing left to do is waiting for its channel or has finished. */
  lemma IdleEndpoint(role: Role, e: Endpoint, p: Endpoint)
    requires PairInv(role, e, p) && NextAction(e, p).None?
    ensures EndpointFinished(e) || (e.inbox == [] && !IsShutting(e.reader))
  {
  }

  /** Once a closing message is on the wire some thread can go on until both sides have closed: nobody deadlocks. */
  lemma NoDeadlock(role: Role, e: Endpoint, p: Endpoint)
    requires PairInv(role, e, p) && ClosedOut(e)
    requires NextAction(e, p).None? && NextAction(p, e).None?
    ensures EndpointFinished(e) && EndpointFinished(p)
  {
    IdleEndpoint(role, e, p);
    IdleEndpoint(Other(role), p, e);
    CloseReaches(role, e, p);
    if ClosedOut(p) { CloseReaches(Other(role), p, e); }
  }

  lemma CloseReaches(role: Role, e: Endpoint, p: Endpoint)
    requires PairInv(role, e, p) && ClosedOut(e)
    ensures p.inbox == [] ==> IsShutting(p.reader)
  {
    CloseOnWire(role, e);
    assert Close !in p.handled;
  }

  predicate SomeClosed(s: System) { Close in s.client.sent || Close in s.server.sent }

  predicate Stuck(s: System) { NextAction(s.client, s.server).None? && NextAction(s.server, s.client).None? }

  /** Every event of the schedule is enabled when its turn comes and none is a new request. */
  predicate Quiet(s: System, schedule: seq<Event>)
    decreases |schedule|
  {
    schedule == [] ||
    (CanStep(s, schedule[0]) && !schedule[0].action.Send? && Quiet(Next(s, schedule[0]), schedule[1..]))
  }

  lemma QuietRun(s: System, schedule: seq<Event>)
    requires Inv(s) && Quiet(s, schedule)
    ensures |schedule| + Measure(Run(s, schedule)) <= Measure(s)
    ensures Inv(Run(s, schedule))
    ensures SomeClosed(s) ==> SomeClosed(Run(s, schedule))
    decreases |schedule|
  {
    if schedule != [] {
      QuietStep(s, schedule[0]);
      QuietRun(Next(s, schedule[0]), schedule[1..]);
    }
  }

  /**
   * Closing terminates: after any prefix with a closing message on the wire, and with no new requests, a run takes at
   * most as many further steps as the measure says, and a run that cannot go on has closed both sides and released
   * every waiting close().
   */
  lemma {:induction false} ClosingTerminates(prefix: seq<Event>, schedule: seq<Event>)
    requires SomeClosed(Reached(prefix)) && Quiet(Reached(prefix), schedule)
    ensures |schedule| <= Measure(Reached(prefix))
    ensures var s := Run(Reached(prefix), schedule); Stuck(s) ==> Finished(s)
  {
    ReachedInv(prefix, ClientRole);
    QuietRun(Reached(prefix), schedule);
    var s := Run(Reached(prefix), schedule);
    if Stuck(s) { StuckFinished(s); }
  }

  /** The first step some endpoint can take. */
  function Pick(s: System): (ev: Event)
    requires !Stuck(s)
    ensures CanStep(s, ev) && !ev.action.Send?
  {
    if NextAction(s.client, s.server).Some? then Event(ClientRole, NextAction(s.client, s.server).value)
    else Event(ServerRole, NextAction(s.server, s.client).value)
  }

  lemma StuckFinished(s: System)
    requires Inv(s) && SomeClosed(s) && Stuck(s)
    ensures Finished(s)
  {
    CloseOnWire(ClientRole, s.client);
    CloseOnWire(ServerRole, s.server);
    if ClosedOut(s.client) { NoDeadlock(ClientRole, s.client, s.server); }
    else { NoDeadlock(ServerRole, s.server, s.client); }
  }

  lemma QuietStep(s: System, ev: Event)
    requires Inv(s) && CanStep(s, ev) && !ev.action.Send?
    ensures Inv(Next(s, ev)) && Measure(Next(s, ev)) < Measure(s)
    ensures SomeClosed(s) ==> SomeClosed(Next(s, ev))
  {
    var e, p := s.At(ev.role), s.At(Other(ev.role));
    ActDecreases(ev.role, e, p, ev.action);
    ActKeeps(ev.role, e, p, ev.action);
  }

  /** And such a run exists, from every reachable state with a closing message on the wire. */
  lemma ClosingCompletes(s: System) returns (schedule: seq<Event>)
    requires Inv(s) && SomeClosed(s)
    ensures Quiet(s, schedule) && Finished(Run(s, schedule))
    decreases Measure(s)
  {
    if Stuck(s) {
      StuckFinished(s);
      schedule := [];
    } else {
      var ev := Pick(s);
      QuietStep(s, ev);
      var rest := ClosingCompletes(Next(s, ev));
      schedule := [ev] + rest;
      assert schedule[1..] == rest;
    }
  }

  /** Once the client's closing message is out, its early requests stay as they are and its late ones stay on the wire. */
  lemma {:induction false} LogsStay(s: System, schedule: seq<Event>)
    requires Close in s.client.sent
    ensures var c := Run(s, schedule).client;
      s.client.late <= c.late && c.early == s.client.early && Close in c.sent
    decreases |schedule|
  {
    if schedule != [] {
      LogsStay(if CanStep(s, schedule[0]) then Next(s, schedule[0]) else s, schedule[1..]);
    }
  }

  lemma {:induction false} RunAppend(s: System, first: seq<Event>, second: seq<Event>)
    ensures Run(s, first + second) == Run(Run(s, first), second)
    decreases |first|
  {
    if first == [] {
      assert first + second == second;
    } else {
      assert (first + second)[1..] == first[1..] + second;
      RunAppend(if CanStep(s, first[0]) then Next(s, first[0]) else s, first[1..], second);
    }
  }

  function OnClient(a: Action): Event { Event(ClientRole, a) }
  function OnServer(a: Action): Event { Event(ServerRole, a) }

  lemma RunOne(s: System, ev: Event)
    requires CanStep(s, ev)
    ensures Run(s, [ev]) == Next(s, ev)
  {
    assert [ev][1..] == [];
    assert Run(Next(s, ev), []) == Next(s, ev);
  }

  /** One more event at the end of a schedule. */
  lemma Extend(schedule: seq<Event>, ev: Event) returns (longer: seq<Event>)
    requires CanStep(Reached(schedule), ev)
    ensures longer == schedule + [ev] && Reached(longer) == Next(Reached(schedule), ev)
  {
    longer := schedule + [ev];
    RunAppend(Initial(), schedule, [ev]);
    RunOne(Reached(schedule), ev);
  }

  function HalfOpened(): System {
    System(Fresh(ClientRole).(connected := true, reader := AwaitClear, sent := [Hello]),
           Fresh(ServerRole).(reader := AwaitHello, inbox := [Hello], sent := [Ack]))
  }

  /** Both sides have opened the connection, and nothing else has happened. */
  function Opened(): System {
    System(Fresh(ClientRole).(connected := true, reader := Reading, sent := [Hello]),
           Fresh(ServerRole).(reader := Reading, sent := [Ack, Clear], connectings := 1))
  }

  lemma HalfOpeningRun() returns (schedule: seq<Event>)
    ensures forall ev :: ev in schedule ==> ev.action.Open?
    ensures Reached(schedule) == HalfOpened()
  {
    schedule := [];
    schedule := Extend(schedule, OnServer(Open(true)));
    schedule := Extend(schedule, OnClient(Open(true)));
    schedule := Extend(schedule, OnClient(Open(true)));
    schedule := Extend(schedule, OnClient(Open(true)));
  }

  lemma OpeningRun() returns (schedule: seq<Event>)
    ensures forall ev :: ev in schedule ==> ev.action.Open?
    ensures Reached(schedule) == Opened()
  {
    schedule := HalfOpeningRun();
    schedule := Extend(schedule, OnServer(Open(true)));
    schedule := Extend(schedule, OnServer(Open(true)));
    schedule := Extend(schedule, OnServer(Open(true)));
    schedule := Extend(schedule, OnClient(Open(true)));
  }
}
