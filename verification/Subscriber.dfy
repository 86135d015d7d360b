/** The Subscriber object: its queue, flags and threads' positions, changed in place. */
module Subscribers {
  import opened SubscriberQueue
  import opened SubscriberProofs

  class Subscriber {
    const queueSize: nat
    var messageQueue: seq<Entry>
    var connected: bool
    var signaled: bool
    var spinner: Spinner
    var receiver: Receiver
    var destructor: Destructor

    ghost function View(): Core
      reads this
    {
      Core(queueSize, messageQueue, connected, signaled, spinner, receiver, destructor)
    }

    constructor (queueSize: nat)
      ensures View() == NewCore(queueSize)
    {
      this.queueSize := queueSize;
      messageQueue, connected, signaled := [], true, false;
      spinner, receiver, destructor := NotSpinning, NotReceiving, Alive;
    }

    method NotifyOne()
      modifies this`signaled
      ensures View() == Notified(old(View()))
    {
      if spinner.Waiting? { signaled := true; }
    }

    /** The locked section of receiveMessagesUntilDisconnect. */
    method Push(e: Entry)
      modifies this`messageQueue, this`signaled
      ensures View() == Pushed(old(View()), e)
    {
      var limit := (queueSize + 1) % UINT32_LIMIT;
      while |messageQueue| > limit
        invariant |messageQueue| <= |old(messageQueue)| && signaled == old(signaled)
        invariant messageQueue == old(messageQueue)[|old(messageQueue)| - |messageQueue|..]
        invariant |old(messageQueue)| <= limit ==> messageQueue == old(messageQueue)
        invariant |old(messageQueue)| > limit ==> |messageQueue| >= limit
      {
        messageQueue := messageQueue[1..];
      }
      assert messageQueue == Trimmed(old(messageQueue), limit);
      messageQueue := messageQueue + [e];
      if |messageQueue| == 1 { NotifyOne(); }
    }

    /** Take the front message, or wait for one. */
    method TakeOrWait()
      modifies this`messageQueue, this`signaled, this`spinner
      ensures View() == SubscriberQueue.TakeOrWait(old(View()))
    {
      if messageQueue == [] {
        spinner, signaled := Waiting, false;
      } else {
        spinner := Holding(messageQueue[0]);
        messageQueue := messageQueue[1..];
      }
    }

    /** Next step of executeCallbacksUntilDisconnect; false where the thread blocks. */
    method Spin() returns (moved: bool)
      modifies this`messageQueue, this`signaled, this`spinner
      ensures moved <==> Spun(old(View())).Some?
      ensures View() == if moved then Spun(old(View())).value else old(View())
    {
      moved := true;
      match spinner {
        case LoopHead => spinner := if connected then WantQueue else Stopped;
        case WantQueue => TakeOrWait();
        case Waiting => if signaled { spinner, signaled := Woken, false; } else { moved := false; }
        case Woken => TakeOrWait();
        case Holding(e) => spinner := if connected then InCallback(e) else LoopHead;
        case InCallback(_) => spinner := LoopHead;
        case NotSpinning => moved := false;
        case Stopped => moved := false;
      }
    }

    method Disconnect()
      modifies this`connected
      ensures View() == old(View()).(connected := false)
    {
      connected := false;
    }

    /** The destructor past the join of the receiving thread: the dummy releases a waiting spinning thread. */
    method ReleaseSpinner()
      requires CanJoinReceiver(View())
      modifies this
      ensures View() == JoinedReceiver(old(View()))
    {
      if spinner.NotSpinning? {
        destructor := Destroyed;
      } else {
        messageQueue := messageQueue + [Dummy];
        destructor := Joining;
        NotifyOne();
      }
    }

    /** The destructor, with the two threads it joins run to their ends: it returns, whatever they were at. */
    method Destroy()
      requires destructor.Alive?
      modifies this
      ensures destructor.Destroyed? && !connected && !receiver.Receiving? && (spinner.NotSpinning? || spinner.Stopped?)
    {
      connected := false;
      destructor := Cleared;
      if receiver.Receiving? { receiver := ReceiverStopped; }
      ReleaseSpinner();
      if destructor.Destroyed? { return; }
      while !spinner.Stopped?
        invariant destructor.Joining? && !connected && !receiver.Receiving? && !spinner.NotSpinning?
        invariant AboutToTake(spinner) ==> messageQueue != []
        invariant spinner.Waiting? ==> signaled
        decreases if spinner.Stopped? then 0 else if spinner.LoopHead? then 1
                  else if spinner.Holding? || spinner.InCallback? then 2 else if spinner.Waiting? then 4 else 3
      {
        var _ := Spin();
      }
      destructor := Destroyed;
    }

    /** The object's part in an event; the publishers and their streams are its surroundings. */
    method Perform(s: State, ev: Event)
      requires Allowed(s, ev) && View() == s.core
      modifies this
      ensures View() == Next(s, ev).core
    {
      match ev {
        case StartReceiving => receiver := Receiving;
        case Receive(u) => Push(s.feeds[u].stream[0]);
        case EndReceiving => receiver := ReceiverStopped;
        case StartSpinning => spinner := LoopHead;
        case Spin => var _ := Spin();
        case SpuriousWakeup => spinner, signaled := Woken, false;
        case Disconnect => Disconnect();
        case Destroy => connected, destructor := false, Cleared;
        case JoinReceiver => ReleaseSpinner();
        case JoinSpinner => destructor := Destroyed;
        case NewPublisher(_) =>
        case Accept(_) =>
        case Publish(_, _) =>
        case HangUp(_) =>
      }
    }
  }

  /** An object driven through any run is where the state machine is, so the theorems about runs are about its fields. */
  method Execute(queueSize: nat, events: seq<Event>) returns (subscriber: Subscriber, s: State)
    ensures s == Run(Start(queueSize), events) && subscriber.View() == s.core
  {
    subscriber := new Subscriber(queueSize);
    s := Start(queueSize);
    for i := 0 to |events|
      invariant fresh(subscriber) && subscriber.View() == s.core
      invariant Run(s, events[i..]) == Run(Start(queueSize), events)
    {
      assert events[i..][0] == events[i] && events[i..][1..] == events[i + 1..];
      if Allowed(s, events[i]) {
        subscriber.Perform(s, events[i]);
        s := Next(s, events[i]);
      }
    }
  }
}
