/**
 * The RPC socket pair as a state machine: two endpoints joined by two FIFO channels. Each endpoint has a thread that
 * opens the connection and then runs the receive cycle (the reader), one thread that may call close() (the closer), and
 * any number of threads that send requests. A step is one access to state that another thread can observe, so a run is
 * an arbitrary interleaving at the granularity of single statements inside and outside sending_lock_.
 */
module RpcProtocol {
  import opened Options

  datatype Role = ClientRole | ServerRole

  datatype Message =
    | Ack
    | Hello
    | Clear
    | Request(callback: string, argument: string)
    | Call(callback: string, reply: string, argument: string)
    | Close

  /** Who holds sending_lock_ across several steps. A single send holds it for one step only. */
  datatype Holder = Free | ByCloser | ByReader

  datatype Closer =
    | CloserIdle      // close() not called
    | PassedCheck     // is_connected_ was read as true, sending_lock_ not yet taken
    | CloserLocked    // sending_lock_ taken
    | CloserCleared   // is_connected_ stored as false
    | CloserSent      // closing message sent, or its send failed
    | Waiting         // sending_lock_ released, waiting for closing_message_received_
    | Returned        // close() returned after the wait
    | Skipped         // close() found is_connected_ false and returned at once

  datatype Reader =
    // connectToServer
    | AwaitAck | MarkConnected | SendHello | AwaitClear
    // startConnection
    | SendAck | AwaitHello | Connecting | SendClear
    // receiveCycle
    | Reading
    | Handling(message: Message)
    | Replying(response: Message)
    // the closing branch of receiveCycle
    | WantLock        // a closing message, or the end of the stream, was read
    | ReaderLocked    // sending_lock_ taken
    | ReaderCleared   // is_connected_ stored as false, closing message to be sent
    | ClosingFd       // the descriptor is to be closed
    | FdClosed        // the descriptor is closed, sending_lock_ to be released
    | InCallback      // the closing callback is running
    | SelfWait        // a close() called by the closing callback waits for this very thread
    | Notifying       // closing_message_received_ is to be set
    | Ended

  datatype Endpoint = Endpoint(
    connected: bool,          // is_connected_
    open: bool,               // is_open_, and the state of the descriptor
    signaled: bool,           // closing_message_received_
    holder: Holder,
    closer: Closer,
    reader: Reader,
    inbox: seq<Message>,      // the channel towards this endpoint
    // Histories
    sent: seq<Message>,       // everything this endpoint put on the wire
    early: seq<Message>,      // requests issued before the own closing message was on the wire, delivered or not
    late: seq<Message>,       // requests put on the wire after the own closing message
    handled: seq<Message>,    // requests whose callback has finished
    connectings: nat,         // runs of the connecting callback
    callbacks: nat,           // runs of the closing callback
    strayRead: bool,          // a handshake read took a wrong message, or the receive cycle took a handshake message
    endOfStream: bool)        // the receive cycle read the end of the stream

  datatype Action =
    | Open(peerSeen: bool)                        // next statement of connectToServer or startConnection
    | Read                                        // receiveMessage of the receive cycle
    | Finish(result: Option<string>)              // the running request callback returns; None: no callback, no response
    | Reply(peerSeen: bool)                       // the response of a full duplex request is sent
    | Shut(peerSeen: bool, callbackCloses: bool)  // next statement of the closing branch of the receive cycle
    | StartClose                                  // close() reads is_connected_
    | Step(peerSeen: bool)                        // next statement of close()
    | Send(message: Message, peerSeen: bool)      // some user thread runs sendRequest

  predicate IsWork(m: Message) { m.Request? || m.Call? }

  predicate IsOpening(r: Reader) {
    r.AwaitAck? || r.MarkConnected? || r.SendHello? || r.AwaitClear? ||
    r.SendAck? || r.AwaitHello? || r.Connecting? || r.SendClear?
  }

  /** The reader is in the closing branch of the receive cycle or past it. */
  predicate IsShutting(r: Reader) {
    r.WantLock? || r.ReaderLocked? || r.ReaderCleared? || r.ClosingFd? || r.FdClosed? || r.InCallback? || r.SelfWait? ||
    r.Notifying? || r.Ended?
  }

  function Fresh(role: Role): Endpoint {
    Endpoint(role.ServerRole?, true, false, Free, CloserIdle, if role.ClientRole? then AwaitAck else SendAck,
             [], [], [], [], [], 0, 0, false, false)
  }

  predicate Enabled(e: Endpoint, p: Endpoint, a: Action) {
    match a
    case Open(_) =>
      IsOpening(e.reader) && (e.reader.AwaitAck? || e.reader.AwaitClear? || e.reader.AwaitHello? ==> e.inbox != [])
    case Read => e.reader.Reading? && (e.inbox != [] || !p.open)
    case Finish(_) => e.reader.Handling?
    case Reply(_) => e.reader.Replying? && e.holder.Free?
    case Shut(_, _) =>
      IsShutting(e.reader) && !e.reader.SelfWait? && !e.reader.Ended? && (e.reader.WantLock? ==> e.holder.Free?)
    case StartClose => e.closer.CloserIdle? && !IsOpening(e.reader)
    case Step(_) =>
      match e.closer {
        case PassedCheck => e.holder.Free?
        case CloserLocked | CloserCleared | CloserSent => true
        case Waiting => e.signaled
        case CloserIdle | Returned | Skipped => false
      }
    case Send(m, _) => IsWork(m) && !IsOpening(e.reader) && e.holder.Free?
  }

  /** sendMessage throws on a closed socket, and when the poll reports that the peer has hung up. */
  predicate SendFails(e: Endpoint, p: Endpoint, peerSeen: bool) { !e.open || (!p.open && peerSeen) }

  function Transmit(e: Endpoint, p: Endpoint, m: Message, peerSeen: bool): (r: (Endpoint, Endpoint))
    ensures e.sent <= r.0.sent && r.1.sent == p.sent
    ensures e.late <= r.0.late && r.1.late == p.late
    ensures r.1.early == p.early && (Close in e.sent ==> r.0.early == e.early)
  {
    if SendFails(e, p, peerSeen) then (e, p)
    else (e.(sent := e.sent + [m]), p.(inbox := p.inbox + [m]))
  }

  /** sendRequest: the request is recorded as early when the own closing message is not yet on the wire. */
  function Issue(e: Endpoint, p: Endpoint, m: Message, peerSeen: bool): (r: (Endpoint, Endpoint))
    ensures e.sent <= r.0.sent && r.1.sent == p.sent
    ensures e.late <= r.0.late && r.1.late == p.late
    ensures r.1.early == p.early && (Close in e.sent ==> r.0.early == e.early)
  {
    var (e', p') := Transmit(e, p, m, peerSeen);
    if Close !in e.sent then (e'.(early := e.early + [m]), p')
    else if SendFails(e, p, peerSeen) then (e', p')
    else (e'.(late := e.late + [m]), p')
  }

  predicate OpeningSends(r: Reader) { r.SendHello? || r.SendAck? || r.SendClear? }

  function OpenStep(e: Endpoint, p: Endpoint, seen: bool): (r: (Endpoint, Endpoint))
    requires Enabled(e, p, Open(seen))
    ensures e.sent <= r.0.sent && r.1.sent == p.sent
    ensures e.late <= r.0.late && r.1.late == p.late
    ensures r.1.early == p.early && (Close in e.sent ==> r.0.early == e.early)
  {
    if OpeningSends(e.reader) then OpenSend(e, p, seen) else (OpenRead(e), p)
  }

  function OpenSend(e: Endpoint, p: Endpoint, seen: bool): (r: (Endpoint, Endpoint))
    requires OpeningSends(e.reader)
    ensures e.sent <= r.0.sent && r.1.sent == p.sent
    ensures e.late <= r.0.late && r.1.late == p.late
    ensures r.1.early == p.early && (Close in e.sent ==> r.0.early == e.early)
  {
    match e.reader
    case SendHello => Transmit(e.(reader := AwaitClear), p, Hello, seen)
    case SendAck => Transmit(e.(reader := AwaitHello), p, Ack, seen)
    case SendClear => Transmit(e.(reader := Reading), p, Clear, seen)
  }

  function OpenRead(e: Endpoint): (r: Endpoint)
    requires IsOpening(e.reader) && !OpeningSends(e.reader)
    requires e.reader.AwaitAck? || e.reader.AwaitClear? || e.reader.AwaitHello? ==> e.inbox != []
    ensures r.sent == e.sent && r.late == e.late && r.early == e.early
  {
    match e.reader
    case AwaitAck => TakeHandshake(e, Ack, MarkConnected)
    case MarkConnected => e.(connected := true, reader := SendHello)
    case AwaitClear => TakeHandshake(e, Clear, Reading)
    case AwaitHello => TakeHandshake(e, Hello, Connecting)
    case Connecting => e.(connectings := e.connectings + 1, reader := SendClear)
  }

  /** A handshake read takes whatever message comes first and does not look at it. */
  function TakeHandshake(e: Endpoint, expected: Message, next: Reader): Endpoint
    requires e.inbox != []
  {
    e.(inbox := e.inbox[1..], reader := next, strayRead := e.strayRead || e.inbox[0] != expected)
  }

  predicate IsHandshake(m: Message) { m.Ack? || m.Hello? || m.Clear? }

  /** Where the receive cycle goes with a message: it passes over what is neither a request nor a closing message. */
  function AfterReading(m: Message): Reader {
    if m.Close? then WantLock else if IsHandshake(m) then Reading else Handling(m)
  }

  function ReadStep(e: Endpoint): (r: Endpoint)
    requires e.reader.Reading?
    ensures r.sent == e.sent && r.late == e.late && r.early == e.early
  {
    if e.inbox == [] then e.(reader := WantLock, endOfStream := true)
    else
      var m := e.inbox[0];
      e.(inbox := e.inbox[1..], reader := AfterReading(m), strayRead := e.strayRead || IsHandshake(m))
  }

  function FinishStep(e: Endpoint, result: Option<string>): Endpoint
    requires e.reader.Handling?
  {
    var m := e.reader.message;
    var next := if m.Call? && result.Some? then Replying(Request(m.reply, result.value)) else Reading;
    e.(handled := e.handled + [m], reader := next)
  }

  function ShutStep(e: Endpoint, p: Endpoint, seen: bool, callbackCloses: bool): (r: (Endpoint, Endpoint))
    requires Enabled(e, p, Shut(seen, callbackCloses))
    ensures e.sent <= r.0.sent && r.1.sent == p.sent
    ensures e.late <= r.0.late && r.1.late == p.late
    ensures r.1.early == p.early && (Close in e.sent ==> r.0.early == e.early)
  {
    if e.reader.ReaderCleared? then Transmit(e.(reader := ClosingFd), p, Close, seen)
    else (ShutQuietly(e, callbackCloses), p)
  }

  function ShutQuietly(e: Endpoint, callbackCloses: bool): (r: Endpoint)
    requires IsShutting(e.reader) && !e.reader.ReaderCleared? && !e.reader.SelfWait? && !e.reader.Ended?
    ensures r.sent == e.sent && r.late == e.late && r.early == e.early
  {
    match e.reader
    case WantLock => e.(holder := ByReader, reader := ReaderLocked)
    case ReaderLocked =>
      if e.connected then e.(connected := false, reader := ReaderCleared) else e.(reader := ClosingFd)
    case ClosingFd => e.(open := false, reader := FdClosed)
    case FdClosed => e.(holder := Free, reader := InCallback)
    case InCallback =>
      if callbackCloses && e.connected then e.(reader := SelfWait)
      else e.(callbacks := e.callbacks + 1, reader := Notifying)
    case Notifying => e.(signaled := true, reader := Ended)
  }

  function CloserStep(e: Endpoint, p: Endpoint, seen: bool): (r: (Endpoint, Endpoint))
    requires Enabled(e, p, Step(seen))
    ensures e.sent <= r.0.sent && r.1.sent == p.sent
    ensures e.late <= r.0.late && r.1.late == p.late
    ensures r.1.early == p.early && (Close in e.sent ==> r.0.early == e.early)
  {
    if e.closer.CloserCleared? then Transmit(e.(closer := CloserSent), p, Close, seen)
    else (CloseQuietly(e), p)
  }

  function CloseQuietly(e: Endpoint): (r: Endpoint)
    requires e.closer.PassedCheck? || e.closer.CloserLocked? || e.closer.CloserSent? || e.closer.Waiting?
    ensures r.sent == e.sent && r.late == e.late && r.early == e.early
  {
    match e.closer
    case PassedCheck => e.(holder := ByCloser, closer := CloserLocked)
    case CloserLocked => e.(connected := false, closer := CloserCleared)
    case CloserSent => e.(holder := Free, closer := Waiting)
    case Waiting => e.(closer := Returned)
  }

  /** One step of endpoint `e` with peer `p`. */
  function Act(e: Endpoint, p: Endpoint, a: Action): (r: (Endpoint, Endpoint))
    requires Enabled(e, p, a)
    ensures e.sent <= r.0.sent && r.1.sent == p.sent
    ensures e.late <= r.0.late && r.1.late == p.late
    ensures r.1.early == p.early && (Close in e.sent ==> r.0.early == e.early)
  {
    match a
    case Open(seen) => OpenStep(e, p, seen)
    case Read => (ReadStep(e), p)
    case Finish(result) => (FinishStep(e, result), p)
    case Reply(seen) => Issue(e.(reader := Reading), p, e.reader.response, seen)
    case Shut(seen, callbackCloses) => ShutStep(e, p, seen, callbackCloses)
    case StartClose => (e.(closer := if e.connected then PassedCheck else Skipped), p)
    case Step(seen) => CloserStep(e, p, seen)
    case Send(m, seen) => Issue(e, p, m, seen)
  }

  datatype System = System(client: Endpoint, server: Endpoint) {
    function At(r: Role): Endpoint { if r.ClientRole? then client else server }
  }

  datatype Event = Event(role: Role, action: Action)

  function Other(r: Role): Role { if r.ClientRole? then ServerRole else ClientRole }

  predicate CanStep(s: System, ev: Event) { Enabled(s.At(ev.role), s.At(Other(ev.role)), ev.action) }

  function Next(s: System, ev: Event): System
    requires CanStep(s, ev)
  {
    var (e, p) := Act(s.At(ev.role), s.At(Other(ev.role)), ev.action);
    if ev.role.ClientRole? then System(e, p) else System(p, e)
  }

  function Initial(): System { System(Fresh(ClientRole), Fresh(ServerRole)) }

  /** The state after offering the events of a schedule in turn; an event that is not enabled leaves the state alone. */
  function Run(s: System, schedule: seq<Event>): System
    decreases |schedule|
  {
    if schedule == [] then s
    else if CanStep(s, schedule[0]) then Run(Next(s, schedule[0]), schedule[1..])
    else Run(s, schedule[1..])
  }
}
