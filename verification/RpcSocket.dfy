/** The socket object itself: its fields, and the statements of its threads as methods that change them in place. */
module RpcSocket {
  import opened RpcProtocol
  import opened RpcClosing

  class BsonRPCSocket {
    const role: Role
    var isConnected: bool
    var isOpen: bool
    var closingMessageReceived: bool
    var sendingLock: Holder
    var closer: Closer
    var reader: Reader
    var inbox: seq<Message>
    ghost var sent: seq<Message>
    ghost var early: seq<Message>
    ghost var late: seq<Message>
    ghost var handled: seq<Message>
    ghost var connectings: nat
    ghost var callbacks: nat
    ghost var strayRead: bool
    ghost var endOfStream: bool

    ghost function View(): Endpoint
      reads this
    {
      Endpoint(isConnected, isOpen, closingMessageReceived, sendingLock, closer, reader, inbox,
               sent, early, late, handled, connectings, callbacks, strayRead, endOfStream)
    }

    constructor (role: Role)
      ensures this.role == role && View() == Fresh(role)
    {
      this.role := role;
      isConnected, isOpen, closingMessageReceived := role.ServerRole?, true, false;
      sendingLock, closer := Free, CloserIdle;
      reader := if role.ClientRole? then AwaitAck else SendAck;
      inbox, sent, early, late, handled := [], [], [], [], [];
      connectings, callbacks, strayRead, endOfStream := 0, 0, false, false;
    }

    method SendMessage(peer: BsonRPCSocket, m: Message, peerSeen: bool) returns (thrown: bool)
      requires this != peer
      modifies this`sent, peer`inbox
      ensures (View(), peer.View()) == Transmit(old(View()), old(peer.View()), m, peerSeen)
      ensures thrown == SendFails(old(View()), old(peer.View()), peerSeen)
    {
      thrown := !isOpen || (!peer.isOpen && peerSeen);
      if !thrown {
        sent := sent + [m];
        peer.inbox := peer.inbox + [m];
      }
    }

    method SendRequest(peer: BsonRPCSocket, m: Message, peerSeen: bool)
      requires this != peer && sendingLock.Free?
      modifies this`sent, this`early, this`late, peer`inbox
      ensures (View(), peer.View()) == Issue(old(View()), old(peer.View()), m, peerSeen)
    {
      ghost var closed := Close in sent;
      var thrown := SendMessage(peer, m, peerSeen);
      if !closed { early := early + [m]; } else if !thrown { late := late + [m]; }
    }

    method ReceiveMessage() returns (m: Message)
      requires inbox != []
      modifies this`inbox
      ensures m == old(inbox)[0] && inbox == old(inbox)[1..]
    {
      m := inbox[0];
      inbox := inbox[1..];
    }

    /** Next statement of connectToServer or startConnection. */
    method Connect(peer: BsonRPCSocket, peerSeen: bool)
      requires this != peer && Enabled(View(), peer.View(), Open(peerSeen))
      modifies this, peer`inbox
      ensures (View(), peer.View()) == Act(old(View()), old(peer.View()), Open(peerSeen))
    {
      if reader.SendHello? || reader.SendAck? || reader.SendClear? {
        ConnectSend(peer, peerSeen);
      } else {
        ConnectRead();
      }
    }

    method ConnectSend(peer: BsonRPCSocket, peerSeen: bool)
      requires this != peer && OpeningSends(reader)
      modifies this, peer`inbox
      ensures (View(), peer.View()) == OpenSend(old(View()), old(peer.View()), peerSeen)
    {
      if reader.SendHello? {
        reader := AwaitClear;
        var _ := SendMessage(peer, Hello, peerSeen);
      } else if reader.SendAck? {
        reader := AwaitHello;
        var _ := SendMessage(peer, Ack, peerSeen);
      } else {
        reader := Reading;
        var _ := SendMessage(peer, Clear, peerSeen);
      }
    }

    /** A handshake read does not look at what it gets. */
    method TakeHandshake(expected: Message, next: Reader)
      requires inbox != []
      modifies this`inbox, this`reader, this`strayRead
      ensures View() == RpcProtocol.TakeHandshake(old(View()), expected, next)
    {
      var m := ReceiveMessage();
      strayRead := strayRead || m != expected;
      reader := next;
    }

    method ConnectRead()
      requires IsOpening(reader) && !OpeningSends(reader)
      requires reader.AwaitAck? || reader.AwaitClear? || reader.AwaitHello? ==> inbox != []
      modifies this`isConnected, this`connectings, this`inbox, this`reader, this`strayRead
      ensures View() == OpenRead(old(View()))
    {
      if reader.AwaitAck? {
        TakeHandshake(Ack, MarkConnected);
      } else if reader.MarkConnected? {
        isConnected := true;
        reader := SendHello;
      } else if reader.AwaitClear? {
        TakeHandshake(Clear, Reading);
      } else if reader.AwaitHello? {
        TakeHandshake(Hello, Connecting);
      } else {
        connectings := connectings + 1;
        reader := SendClear;
      }
    }

    /** receiveCycle up to the branch: one message, or the end of the stream, which reads as an empty message. */
    method Receive(peer: BsonRPCSocket)
      requires this != peer && Enabled(View(), peer.View(), Read)
      modifies this`inbox, this`reader, this`strayRead, this`endOfStream
      ensures (View(), peer.View()) == Act(old(View()), old(peer.View()), Read)
    {
      if inbox == [] {
        endOfStream := true;
        reader := WantLock;
      } else {
        var m := ReceiveMessage();
        reader := AfterReading(m);
        strayRead := strayRead || IsHandshake(m);
      }
    }

    /** Next statement of the closing branch of receiveCycle. */
    method Shutdown(peer: BsonRPCSocket, peerSeen: bool, callbackCloses: bool)
      requires this != peer && Enabled(View(), peer.View(), Shut(peerSeen, callbackCloses))
      modifies this, peer`inbox
      ensures (View(), peer.View()) == Act(old(View()), old(peer.View()), Shut(peerSeen, callbackCloses))
    {
      if reader.ReaderCleared? {
        reader := ClosingFd;
        var _ := SendMessage(peer, Close, peerSeen);
      } else {
        ShutdownLocally(callbackCloses);
      }
    }

    method ShutdownLocally(callbackCloses: bool)
      requires IsShutting(reader) && !reader.ReaderCleared? && !reader.SelfWait? && !reader.Ended?
      modifies this`isConnected, this`isOpen, this`sendingLock, this`callbacks, this`closingMessageReceived, this`reader
      ensures View() == ShutQuietly(old(View()), callbackCloses)
    {
      if reader.WantLock? || reader.ReaderLocked? || reader.ClosingFd? || reader.FdClosed? {
        ShutdownLocked();
      } else if reader.InCallback? {
        if callbackCloses && isConnected { reader := SelfWait; } else { callbacks := callbacks + 1; reader := Notifying; }
      } else {
        closingMessageReceived := true;
        reader := Ended;
      }
    }

    /** From lock() to unlock(). */
    method ShutdownLocked()
      requires reader.WantLock? || reader.ReaderLocked? || reader.ClosingFd? || reader.FdClosed?
      modifies this`isConnected, this`isOpen, this`sendingLock, this`reader
      ensures View() == ShutQuietly(old(View()), false)
    {
      if reader.WantLock? {
        sendingLock, reader := ByReader, ReaderLocked;
      } else if reader.ReaderLocked? {
        if isConnected { isConnected, reader := false, ReaderCleared; } else { reader := ClosingFd; }
      } else if reader.ClosingFd? {
        isOpen, reader := false, FdClosed;
      } else {
        sendingLock, reader := Free, InCallback;
      }
    }

    /** Next statement of close() past its check. */
    method ContinueClose(peer: BsonRPCSocket, peerSeen: bool)
      requires this != peer && Enabled(View(), peer.View(), Step(peerSeen))
      modifies this, peer`inbox
      ensures (View(), peer.View()) == Act(old(View()), old(peer.View()), Step(peerSeen))
    {
      if closer.CloserCleared? {
        closer := CloserSent;
        var _ := SendMessage(peer, Close, peerSeen);
      } else {
        CloseLocally();
      }
    }

    method CloseLocally()
      requires closer.PassedCheck? || closer.CloserLocked? || closer.CloserSent? || closer.Waiting?
      modifies this`isConnected, this`sendingLock, this`closer
      ensures View() == CloseQuietly(old(View()))
    {
      if closer.PassedCheck? {
        sendingLock, closer := ByCloser, CloserLocked;
      } else if closer.CloserLocked? {
        isConnected, closer := false, CloserCleared;
      } else if closer.CloserSent? {
        sendingLock, closer := Free, Waiting;
      } else {
        closer := Returned;
      }
    }

    method Perform(peer: BsonRPCSocket, a: Action)
      requires this != peer && Enabled(View(), peer.View(), a)
      modifies this, peer`inbox
      ensures (View(), peer.View()) == Act(old(View()), old(peer.View()), a)
    {
      match a {
        case Open(seen) => Connect(peer, seen);
        case Read => Receive(peer);
        case Finish(result) =>
          var m := reader.message;
          handled := handled + [m];
          if m.Call? && result.Some? { reader := Replying(Request(m.reply, result.value)); } else { reader := Reading; }
        case Reply(seen) =>
          var response := reader.response;
          reader := Reading;
          SendRequest(peer, response, seen);
        case Shut(seen, callbackCloses) => Shutdown(peer, seen, callbackCloses);
        case StartClose => closer := if isConnected then PassedCheck else Skipped;
        case Step(seen) => ContinueClose(peer, seen);
        case Send(m, seen) => SendRequest(peer, m, seen);
      }
    }

    /** The scheduler's test whether the next statement of a thread of this socket would block. */
    method CanPerform(peer: BsonRPCSocket, a: Action) returns (can: bool)
      ensures can == Enabled(View(), peer.View(), a)
    {
      match a {
        case Open(_) => can := IsOpening(reader) && (reader.AwaitAck? || reader.AwaitClear? || reader.AwaitHello? ==> inbox != []);
        case Read => can := reader.Reading? && (inbox != [] || !peer.isOpen);
        case Finish(_) => can := reader.Handling?;
        case Reply(_) => can := reader.Replying? && sendingLock.Free?;
        case Shut(_, _) =>
          can := IsShutting(reader) && !reader.SelfWait? && !reader.Ended? && (reader.WantLock? ==> sendingLock.Free?);
        case StartClose => can := closer.CloserIdle? && !IsOpening(reader);
        case Step(_) =>
          can := match closer {
            case PassedCheck => sendingLock.Free?
            case CloserLocked | CloserCleared | CloserSent => true
            case Waiting => closingMessageReceived
            case CloserIdle | Returned | Skipped => false
          };
        case Send(m, _) => can := IsWork(m) && !IsOpening(reader) && sendingLock.Free?;
      }
    }
  }

  /**
   * Two fresh sockets driven through an arbitrary schedule end where the state machine does, so every theorem about
   * reached states is one about the fields of these objects.
   */
  method Execute(schedule: seq<Event>) returns (client: BsonRPCSocket, server: BsonRPCSocket)
    ensures System(client.View(), server.View()) == Reached(schedule)
  {
    client := new BsonRPCSocket(ClientRole);
    server := new BsonRPCSocket(ServerRole);
    var i := 0;
    while i < |schedule|
      invariant 0 <= i <= |schedule| && fresh(client) && fresh(server) && client != server
      invariant Run(System(client.View(), server.View()), schedule[i..]) == Reached(schedule)
    {
      var Event(role, a) := schedule[i];
      assert schedule[i..][1..] == schedule[i + 1..];
      if role.ClientRole? {
        var can := client.CanPerform(server, a);
        if can { client.Perform(server, a); }
      } else {
        var can := server.CanPerform(client, a);
        if can { server.Perform(client, a); }
      }
      i := i + 1;
    }
  }
}
