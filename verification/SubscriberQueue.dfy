/**
 * A Subscriber's bounded queue between its receiving thread, its spinning thread and its destructor, and the streams of
 * the publishers that feed it.
 */
module SubscriberQueue {
  import opened Options

  type PublisherUri = string

  /** A queued message: the publisher it came from, its number among what that publisher published, and its contents. */
  datatype Entry = Item(publisher: PublisherUri, index: nat, value: string) | Dummy

  const UINT32_LIMIT: nat := 0x1_0000_0000

  datatype Spinner =
    | NotSpinning
    | LoopHead              // before `while (connected_)`
    | WantQueue             // connected_ was true; the queue is to be locked and tested
    | Waiting               // in the wait of the condition variable
    | Woken                 // out of the wait, the predicate to be tested again
    | Holding(entry: Entry) // took an entry; connected_ to be tested
    | InCallback(entry: Entry)
    | Stopped

  datatype Receiver = NotReceiving | Receiving | ReceiverStopped

  datatype Destructor =
    | Alive
    | Cleared               // connected_ stored as false; joining the receiving thread
    | Joining               // the dummy is pushed; joining the spinning thread
    | Destroyed

  /** What the object's fields and threads amount to. */
  datatype Core = Core(
    queueSize: nat,
    queue: seq<Entry>,
    connected: bool,
    signaled: bool,         // the waiting thread has been notified
    spinner: Spinner,
    receiver: Receiver,
    destructor: Destructor)

  function NewCore(queueSize: nat): Core { Core(queueSize, [], true, false, NotSpinning, NotReceiving, Alive) }

  /** queue_size_ + 1 in 32-bit unsigned arithmetic. */
  function Limit(queueSize: nat): nat { (queueSize + 1) % UINT32_LIMIT }

  /** The front entries go until the size is no more than the limit. */
  function Trimmed(queue: seq<Entry>, limit: nat): seq<Entry> {
    if |queue| > limit then queue[|queue| - limit..] else queue
  }

  function Notified(c: Core): Core { if c.spinner.Waiting? then c.(signaled := true) else c }

  /** The receiving thread adds a message, dropping from the front, and notifies if the queue was empty. */
  function Pushed(c: Core, e: Entry): Core {
    var c' := c.(queue := Trimmed(c.queue, Limit(c.queueSize)) + [e]);
    if |c'.queue| == 1 then Notified(c') else c'
  }

  /** The next step of the spinning thread; None where it blocks or is not there. */
  function Spun(c: Core): Option<Core> {
    match c.spinner
    case LoopHead => Some(c.(spinner := if c.connected then WantQueue else Stopped))
    case WantQueue => Some(TakeOrWait(c))
    case Waiting => if c.signaled then Some(c.(spinner := Woken, signaled := false)) else None
    case Woken => Some(TakeOrWait(c))
    case Holding(e) => Some(c.(spinner := if c.connected then InCallback(e) else LoopHead))
    case InCallback(_) => Some(c.(spinner := LoopHead))
    case NotSpinning | Stopped => None
  }

  function TakeOrWait(c: Core): Core {
    if c.queue == [] then c.(spinner := Waiting, signaled := false)
    else c.(spinner := Holding(c.queue[0]), queue := c.queue[1..])
  }

  predicate CanJoinReceiver(c: Core) { c.destructor.Cleared? && !c.receiver.Receiving? }

  /** The destructor has joined the receiving thread: if there is a spinning thread it gets the dummy. */
  function JoinedReceiver(c: Core): Core {
    if c.spinner.NotSpinning? then c.(destructor := Destroyed)
    else Notified(c.(destructor := Joining, queue := c.queue + [Dummy]))
  }

  // ---------- The system ----------

  /** A publisher and its connection to this subscriber. */
  datatype Feed = Feed(
    published: seq<string>,
    accepted: Option<nat>,  // how much was published before the connection was accepted
    closed: Option<nat>,    // how much was published when the publisher erased the connection
    stream: seq<Entry>)     // sent on the connection and not yet received

  datatype State = State(
    core: Core,
    feeds: map<PublisherUri, Feed>,
    // Histories
    received: seq<Entry>,      // everything the receiving thread pushed
    gone: nat,                 // how many of these have left the queue, dropped or taken
    holding: nat,              // the position in `received` of the message the spinning thread took last
    delivered: seq<nat>,       // the positions of the messages the callback got
    drops: seq<(nat, nat)>,    // the position of each dropped message, and of the one whose push dropped it
    lastPops: nat)             // entries taken after connected_ was cleared

  datatype Event =
    | NewPublisher(uri: PublisherUri)
    | Accept(uri: PublisherUri)
    | Publish(uri: PublisherUri, value: string)
    | HangUp(uri: PublisherUri)
    | StartReceiving
    | Receive(uri: PublisherUri)
    | EndReceiving
    | StartSpinning
    | Spin
    | SpuriousWakeup
    | Disconnect
    | Destroy
    | JoinReceiver
    | JoinSpinner

  predicate Allowed(s: State, ev: Event) {
    var c := s.core;
    match ev
    case NewPublisher(u) => u !in s.feeds
    case Accept(u) => u in s.feeds && s.feeds[u].accepted.None?
    case Publish(u, _) => u in s.feeds
    case HangUp(u) => u in s.feeds && s.feeds[u].closed.None?
    case StartReceiving => c.receiver.NotReceiving? && c.destructor.Alive?
    case Receive(u) => c.receiver.Receiving? && u in s.feeds && s.feeds[u].stream != []
    case EndReceiving => c.receiver.Receiving? && !c.connected
    case StartSpinning => c.spinner.NotSpinning? && c.destructor.Alive?
    case Spin => Spun(c).Some?
    case SpuriousWakeup => c.spinner.Waiting?
    case Disconnect => true
    case Destroy => c.destructor.Alive?
    case JoinReceiver => CanJoinReceiver(c)
    case JoinSpinner => c.destructor.Joining? && c.spinner.Stopped?
  }

  function Published(f: Feed, u: PublisherUri, v: string): Feed {
    var f' := f.(published := f.published + [v]);
    if f.accepted.Some? && f.closed.None? then f'.(stream := f.stream + [Item(u, |f.published|, v)]) else f'
  }

  function ReceiveStep(s: State, u: PublisherUri): State
    requires u in s.feeds && s.feeds[u].stream != []
  {
    var f := s.feeds[u];
    var limit := Limit(s.core.queueSize);
    var dropped := if |s.core.queue| > limit then |s.core.queue| - limit else 0;
    s.(core := Pushed(s.core, f.stream[0]),
       feeds := s.feeds[u := f.(stream := f.stream[1..])],
       received := s.received + [f.stream[0]],
       gone := s.gone + dropped,
       drops := s.drops + seq(dropped, i requires 0 <= i => (s.gone + i, |s.received|)))
  }

  function SpinStep(s: State): State
    requires Spun(s.core).Some?
  {
    var c, c' := s.core, Spun(s.core).value;
    var s' := s.(core := c');
    if (c.spinner.WantQueue? || c.spinner.Woken?) && c.queue != [] then
      s'.(gone := s.gone + (if c.queue[0].Item? then 1 else 0), holding := s.gone,
          lastPops := s.lastPops + if c.connected then 0 else 1)
    else if c'.spinner.InCallback? then s'.(delivered := s.delivered + [s.holding])
    else s'
  }

  function Next(s: State, ev: Event): State
    requires Allowed(s, ev)
  {
    var c := s.core;
    match ev
    case NewPublisher(u) => s.(feeds := s.feeds[u := Feed([], None, None, [])])
    case Accept(u) => s.(feeds := s.feeds[u := s.feeds[u].(accepted := Some(|s.feeds[u].published|))])
    case Publish(u, v) => s.(feeds := s.feeds[u := Published(s.feeds[u], u, v)])
    case HangUp(u) => s.(feeds := s.feeds[u := s.feeds[u].(closed := Some(|s.feeds[u].published|))])
    case StartReceiving => s.(core := c.(receiver := Receiving))
    case Receive(u) => ReceiveStep(s, u)
    case EndReceiving => s.(core := c.(receiver := ReceiverStopped))
    case StartSpinning => s.(core := c.(spinner := LoopHead))
    case Spin => SpinStep(s)
    case SpuriousWakeup => s.(core := c.(spinner := Woken, signaled := false))
    case Disconnect => s.(core := c.(connected := false))
    case Destroy => s.(core := c.(connected := false, destructor := Cleared))
    case JoinReceiver => s.(core := JoinedReceiver(c))
    case JoinSpinner => s.(core := c.(destructor := Destroyed))
  }

  function Start(queueSize: nat): State { State(NewCore(queueSize), map[], [], 0, 0, [], [], 0) }

  function Run(s: State, events: seq<Event>): State
    decreases |events|
  {
    if events == [] then s
    else if Allowed(s, events[0]) then Run(Next(s, events[0]), events[1..])
    else Run(s, events[1..])
  }
}
