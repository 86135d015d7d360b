/** What every run of the RPC socket pair keeps, and what follows for closing and opening. */
module RpcSafety {
  import opened Options
  import opened RpcProtocol

  predicate AllWork(ms: seq<Message>) { forall i :: 0 <= i < |ms| ==> IsWork(ms[i]) }

  /** The handshake messages an endpoint has sent so far. */
  function HandshakeSent(role: Role, r: Reader): seq<Message> {
    if role.ClientRole? then
      if r.AwaitAck? || r.MarkConnected? || r.SendHello? then [] else [Hello]
    else
      if r.SendAck? then [] else if r.AwaitHello? || r.Connecting? || r.SendClear? then [Ack] else [Ack, Clear]
  }

  /** The handshake messages an endpoint has read so far. */
  function HandshakeTaken(role: Role, r: Reader): seq<Message> {
    if role.ClientRole? then
      if r.AwaitAck? then [] else if r.MarkConnected? || r.SendHello? || r.AwaitClear? then [Ack] else [Ack, Clear]
    else
      if r.SendAck? || r.AwaitHello? then [] else [Hello]
  }

  function Current(r: Reader): seq<Message> { if r.Handling? then [r.message] else [] }

  /** Everything an endpoint has taken out of its channel. */
  function Taken(role: Role, e: Endpoint): seq<Message> {
    HandshakeTaken(role, e.reader) + e.handled + Current(e.reader) + (if IsShutting(e.reader) then [Close] else [])
  }

  predicate ClearedByCloser(e: Endpoint) {
    e.closer.CloserCleared? || e.closer.CloserSent? || e.closer.Waiting? || e.closer.Returned?
  }

  predicate ClearedByReader(e: Endpoint) {
    e.reader.ReaderCleared? || e.reader.ClosingFd? || e.reader.FdClosed? || e.reader.InCallback? ||
    e.reader.Notifying? || e.reader.Ended?
  }

  /** The endpoint's closing message is on the wire, sent by whichever thread won the lock. */
  predicate ClosedOut(e: Endpoint) {
    e.closer.CloserSent? || e.closer.Waiting? || e.closer.Returned? || (ClearedByReader(e) && !e.reader.ReaderCleared?)
  }

  predicate ReaderFits(role: Role, r: Reader) {
    && !r.SelfWait?
    && (role.ClientRole? ==> !r.SendAck? && !r.AwaitHello? && !r.Connecting? && !r.SendClear?)
    && (role.ServerRole? ==> !r.AwaitAck? && !r.MarkConnected? && !r.SendHello? && !r.AwaitClear?)
    && (r.Handling? ==> IsWork(r.message))
    && (r.Replying? ==> r.response.Request?)
  }

  /** How the threads of an endpoint fit together, whatever its peer does. */
  predicate Threads(role: Role, e: Endpoint) {
    && ReaderFits(role, e.reader)
    && (IsOpening(e.reader) ==> e.closer.CloserIdle?)
    && (e.holder.ByCloser? <==> e.closer.CloserLocked? || e.closer.CloserCleared? || e.closer.CloserSent?)
    && (e.holder.ByReader? <==>
        e.reader.ReaderLocked? || e.reader.ReaderCleared? || e.reader.ClosingFd? || e.reader.FdClosed?)
    && (e.connected <==>
        !ClearedByCloser(e) && !ClearedByReader(e) && !e.reader.AwaitAck? && !e.reader.MarkConnected?)
    && (e.open <==> !e.reader.FdClosed? && !e.reader.InCallback? && !e.reader.Notifying? && !e.reader.Ended?)
    && (e.reader.ReaderCleared? ==> !ClearedByCloser(e))
    && (e.signaled <==> e.reader.Ended?)
    && (e.closer.Returned? ==> e.signaled)
    && (e.closer.Skipped? ==> !e.connected)
  }

  /** What one endpoint keeps about its own fields. */
  predicate Local(role: Role, e: Endpoint) {
    && Threads(role, e)
    && (IsOpening(e.reader) ==> e.early == [] && e.handled == [])
    && e.callbacks == (if e.reader.Notifying? || e.reader.Ended? then 1 else 0)
    && e.connectings == (if role.ServerRole? && !e.reader.SendAck? && !e.reader.AwaitHello? && !e.reader.Connecting? then 1 else 0)
    && !e.strayRead && !e.endOfStream
    && AllWork(e.early) && AllWork(e.late) && AllWork(e.handled)
    && e.sent == HandshakeSent(role, e.reader) + e.early + (if ClosedOut(e) then [Close] + e.late else [])
    && (!ClosedOut(e) ==> e.late == [])
  }

  /** The channel from `p` to `e` loses and reorders nothing. */
  predicate Link(role: Role, e: Endpoint, p: Endpoint) { p.sent == Taken(role, e) + e.inbox }

  predicate Inv(s: System) {
    && Local(ClientRole, s.client) && Local(ServerRole, s.server)
    && Link(ClientRole, s.client, s.server) && Link(ServerRole, s.server, s.client)
  }

  predicate PairInv(role: Role, e: Endpoint, p: Endpoint) {
    Local(role, e) && Local(Other(role), p) && Link(role, e, p) && Link(Other(role), p, e)
  }

  lemma CloseOnWire(role: Role, e: Endpoint)
    requires Local(role, e)
    ensures Close in e.sent <==> ClosedOut(e)
  {
    if ClosedOut(e) {
      assert e.sent[|HandshakeSent(role, e.reader)| + |e.early|] == Close;
    }
  }

  /** As long as the own closing message is not on the wire the peer has not closed its descriptor. */
  lemma PeerStillOpen(role: Role, e: Endpoint, p: Endpoint)
    requires PairInv(role, e, p)
    ensures IsShutting(p.reader) ==> ClosedOut(e)
    ensures !ClosedOut(e) ==> p.open
  {
    if IsShutting(p.reader) {
      var t := Taken(Other(role), p);
      assert t[|t| - 1] == Close;
      assert e.sent[|t| - 1] == Close;
      CloseOnWire(role, e);
    }
  }

  /** After its handshake messages an endpoint sends nothing but requests and its closing message. */
  lemma BodyAt(role: Role, e: Endpoint, k: nat)
    requires Local(role, e) && |HandshakeSent(role, e.reader)| <= k < |e.sent|
    ensures IsWork(e.sent[k]) || e.sent[k] == Close
  {
    var h := HandshakeSent(role, e.reader) + e.early;
    if k < |h| {
      assert e.sent[k] == e.early[k - |HandshakeSent(role, e.reader)|];
    } else if k > |h| {
      assert e.sent[k] == e.late[k - |h| - 1];
    }
  }

  /** A handshake read finds the message it is meant for. */
  lemma HandshakeHead(role: Role, e: Endpoint, p: Endpoint)
    requires PairInv(role, e, p) && e.inbox != []
    ensures e.reader.AwaitAck? ==> e.inbox[0] == Ack
    ensures e.reader.AwaitClear? ==> e.inbox[0] == Clear
    ensures e.reader.AwaitHello? ==> e.inbox[0] == Hello
  {
    if e.reader.AwaitAck? || e.reader.AwaitClear? || e.reader.AwaitHello? {
      assert e.inbox[0] == p.sent[|Taken(role, e)|];
      var h := HandshakeSent(Other(role), p.reader);
      assert IsOpening(p.reader) ==> p.sent == h;
    }
  }

  /** The receive cycle finds a request or the closing message, and never the end of the stream. */
  lemma CycleHead(role: Role, e: Endpoint, p: Endpoint)
    requires PairInv(role, e, p) && e.reader.Reading?
    ensures e.inbox == [] ==> p.open
    ensures e.inbox != [] ==> IsWork(e.inbox[0]) || e.inbox[0] == Close
  {
    var t := Taken(role, e);
    if e.inbox == [] {
      CloseOnWire(Other(role), p);
      assert Close !in t by {
        assert Close !in e.handled;
      }
    } else {
      assert e.inbox[0] == p.sent[|t|];
      assert IsOpening(p.reader) ==> p.sent == HandshakeSent(Other(role), p.reader);
      BodyAt(Other(role), p, |t|);
    }
  }

  /** A send that takes place extends the wire and the peer's channel alike. */
  lemma TransmitLink(role: Role, e: Endpoint, p: Endpoint, m: Message, seen: bool)
    requires Link(Other(role), p, e)
    ensures var (e', p') := Transmit(e, p, m, seen); Link(Other(role), p', e')
  {
    assert e.sent + [m] == Taken(Other(role), p) + (p.inbox + [m]);
  }

  lemma OpenReadKeeps(role: Role, e: Endpoint, p: Endpoint)
    requires PairInv(role, e, p) && Enabled(e, p, Open(true)) && !OpeningSends(e.reader)
    ensures PairInv(role, OpenRead(e), p)
  {
    if e.inbox != [] { HandshakeHead(role, e, p); }
    var e' := OpenRead(e);
    assert Taken(role, e') + e'.inbox == Taken(role, e) + e.inbox;
  }

  function OpeningMessage(r: Reader): Message { if r.SendHello? then Hello else if r.SendAck? then Ack else Clear }

  function AfterSending(r: Reader): Reader { if r.SendHello? then AwaitClear else if r.SendAck? then AwaitHello else Reading }

  /** The sender's own side of a handshake message that goes out. */
  lemma OpenSendLocal(role: Role, e: Endpoint, e': Endpoint)
    requires Local(role, e) && OpeningSends(e.reader)
    requires e' == e.(reader := AfterSending(e.reader), sent := e.sent + [OpeningMessage(e.reader)])
    ensures Local(role, e') && Taken(role, e') == Taken(role, e)
  {
    assert e'.sent == HandshakeSent(role, e'.reader);
  }

  lemma OpenSendKeeps(role: Role, e: Endpoint, p: Endpoint, m: Message, next: Reader, seen: bool)
    requires PairInv(role, e, p)
    requires OpeningSends(e.reader) && m == OpeningMessage(e.reader) && next == AfterSending(e.reader)
    ensures var (e', p') := Transmit(e.(reader := next), p, m, seen); PairInv(role, e', p')
  {
    PeerStillOpen(role, e, p);
    var e0 := e.(reader := next);
    TransmitLink(role, e0, p, m, seen);
    OpenSendLocal(role, e, Transmit(e0, p, m, seen).0);
  }

  lemma OpenKeeps(role: Role, e: Endpoint, p: Endpoint, seen: bool)
    requires PairInv(role, e, p) && Enabled(e, p, Open(seen))
    ensures var (e', p') := OpenStep(e, p, seen); PairInv(role, e', p')
  {
    if e.reader.SendHello? { OpenSendKeeps(role, e, p, Hello, AwaitClear, seen); }
    else if e.reader.SendAck? { OpenSendKeeps(role, e, p, Ack, AwaitHello, seen); }
    else if e.reader.SendClear? { OpenSendKeeps(role, e, p, Clear, Reading, seen); }
    else { OpenReadKeeps(role, e, p); }
  }

  lemma ReadLocal(role: Role, e: Endpoint)
    requires Local(role, e) && e.reader.Reading?
    requires e.inbox != [] && (IsWork(e.inbox[0]) || e.inbox[0] == Close)
    ensures Local(role, ReadStep(e))
    ensures Taken(role, ReadStep(e)) == Taken(role, e) + [e.inbox[0]]
  {
  }

  lemma ReadKeeps(role: Role, e: Endpoint, p: Endpoint)
    requires PairInv(role, e, p) && Enabled(e, p, Read)
    ensures PairInv(role, ReadStep(e), p)
  {
    CycleHead(role, e, p);
    if e.inbox != [] {
      ReadLocal(role, e);
      ReadLink(Taken(role, e), e.inbox);
    }
  }

  lemma ReadLink(taken: seq<Message>, inbox: seq<Message>)
    requires inbox != []
    ensures taken + inbox == taken + [inbox[0]] + inbox[1..]
  {
  }

  lemma FinishKeeps(role: Role, e: Endpoint, p: Endpoint, result: Option<string>)
    requires PairInv(role, e, p) && e.reader.Handling?
    ensures PairInv(role, FinishStep(e, result), p)
  {
    var e' := FinishStep(e, result);
    assert Taken(role, e') == Taken(role, e);
  }

  lemma IssueKeeps(role: Role, e: Endpoint, p: Endpoint, m: Message, seen: bool)
    requires PairInv(role, e, p) && !IsOpening(e.reader) && e.holder.Free? && IsWork(m)
    ensures var (e', p') := Issue(e, p, m, seen); PairInv(role, e', p')
  {
    CloseOnWire(role, e);
    PeerStillOpen(role, e, p);
    TransmitLink(role, e, p, m, seen);
    IssueLocal(role, e, p, m, seen);
    var (e', p') := Issue(e, p, m, seen);
    assert Taken(role, e') == Taken(role, e);
    assert Taken(Other(role), p') == Taken(Other(role), p);
  }

  lemma IssueLocal(role: Role, e: Endpoint, p: Endpoint, m: Message, seen: bool)
    requires Local(role, e) && !IsOpening(e.reader) && e.holder.Free? && IsWork(m)
    requires Close in e.sent <==> ClosedOut(e)
    requires !ClosedOut(e) ==> p.open
    ensures Local(role, Issue(e, p, m, seen).0)
  {
    var e' := Issue(e, p, m, seen).0;
    var h := HandshakeSent(role, e.reader);
    if !ClosedOut(e) {
      assert e'.sent == h + e'.early + [];
    } else if !SendFails(e, p, seen) {
      assert e'.sent == h + e'.early + ([Close] + e'.late);
    }
  }

  lemma ReplyClosingKeeps(role: Role, e: Endpoint, p: Endpoint, seen: bool)
    requires PairInv(role, e, p) && e.reader.ReaderCleared?
    ensures var (e', p') := Transmit(e.(reader := ClosingFd), p, Close, seen); PairInv(role, e', p')
  {
    PeerStillOpen(role, e, p);
    var e0 := e.(reader := ClosingFd);
    assert Taken(role, e0) == Taken(role, e);
    TransmitLink(role, e0, p, Close, seen);
    var e' := Transmit(e0, p, Close, seen).0;
    assert e'.sent == HandshakeSent(role, e.reader) + e.early + ([Close] + e'.late);
  }

  /** Wire and channel as before. */
  predicate SameWire(role: Role, e: Endpoint, e': Endpoint) {
    Taken(role, e') == Taken(role, e) && e'.sent == e.sent && e'.inbox == e.inbox
  }

  lemma LockedKeeps(role: Role, e: Endpoint)
    requires Local(role, e) && (e.reader.ReaderLocked? || e.reader.ClosingFd? || e.reader.FdClosed?)
    ensures Local(role, ShutQuietly(e, true)) && SameWire(role, e, ShutQuietly(e, true))
    ensures ShutQuietly(e, false) == ShutQuietly(e, true)
  {
  }

  lemma UnlockedKeeps(role: Role, e: Endpoint, callbackCloses: bool)
    requires Local(role, e) && ((e.reader.WantLock? && e.holder.Free?) || e.reader.InCallback? || e.reader.Notifying?)
    ensures Local(role, ShutQuietly(e, callbackCloses)) && SameWire(role, e, ShutQuietly(e, callbackCloses))
  {
  }

  /** The closing branch up to its send, and after it, leaves wire and channel alone. */
  lemma ShutQuietlyKeeps(role: Role, e: Endpoint, p: Endpoint, callbackCloses: bool)
    requires Local(role, e) && Enabled(e, p, Shut(true, callbackCloses)) && !e.reader.ReaderCleared?
    ensures Local(role, ShutQuietly(e, callbackCloses)) && SameWire(role, e, ShutQuietly(e, callbackCloses))
  {
    if e.reader.ReaderLocked? || e.reader.ClosingFd? || e.reader.FdClosed? { LockedKeeps(role, e); }
    else { UnlockedKeeps(role, e, callbackCloses); }
  }

  lemma ShutKeeps(role: Role, e: Endpoint, p: Endpoint, seen: bool, callbackCloses: bool)
    requires PairInv(role, e, p) && Enabled(e, p, Shut(seen, callbackCloses))
    ensures var (e', p') := ShutStep(e, p, seen, callbackCloses); PairInv(role, e', p')
  {
    if e.reader.ReaderCleared? { ReplyClosingKeeps(role, e, p, seen); }
    else { ShutQuietlyKeeps(role, e, p, callbackCloses); }
  }

  lemma CloseQuietlyKeeps(role: Role, e: Endpoint, p: Endpoint)
    requires Local(role, e) && Enabled(e, p, Step(true)) && !e.closer.CloserCleared?
    ensures Local(role, CloseQuietly(e)) && SameWire(role, e, CloseQuietly(e))
  {
  }

  lemma FirstClosingKeeps(role: Role, e: Endpoint, p: Endpoint, seen: bool)
    requires PairInv(role, e, p) && e.closer.CloserCleared?
    ensures var (e', p') := Transmit(e.(closer := CloserSent), p, Close, seen); PairInv(role, e', p')
  {
    PeerStillOpen(role, e, p);
    var e0 := e.(closer := CloserSent);
    assert Taken(role, e0) == Taken(role, e);
    TransmitLink(role, e0, p, Close, seen);
    var e' := Transmit(e0, p, Close, seen).0;
    assert !ClosedOut(e) ==> e'.sent == HandshakeSent(role, e.reader) + e.early + ([Close] + e'.late);
  }

  lemma CloserKeeps(role: Role, e: Endpoint, p: Endpoint, seen: bool)
    requires PairInv(role, e, p) && Enabled(e, p, Step(seen))
    ensures var (e', p') := CloserStep(e, p, seen); PairInv(role, e', p')
  {
    if e.closer.CloserCleared? { FirstClosingKeeps(role, e, p, seen); }
    else { CloseQuietlyKeeps(role, e, p); }
  }

  lemma ReplyKeeps(role: Role, e: Endpoint, p: Endpoint, seen: bool)
    requires PairInv(role, e, p) && Enabled(e, p, Reply(seen))
    ensures var (e', p') := Issue(e.(reader := Reading), p, e.reader.response, seen); PairInv(role, e', p')
  {
    var e0 := e.(reader := Reading);
    assert Taken(role, e0) == Taken(role, e);
    IssueKeeps(role, e0, p, e.reader.response, seen);
  }

  lemma StartCloseKeeps(role: Role, e: Endpoint)
    requires Local(role, e) && e.closer.CloserIdle? && !IsOpening(e.reader)
    ensures var e' := e.(closer := if e.connected then PassedCheck else Skipped);
      Local(role, e') && SameWire(role, e, e')
  {
  }

  lemma ActKeeps(role: Role, e: Endpoint, p: Endpoint, a: Action)
    requires PairInv(role, e, p) && Enabled(e, p, a)
    ensures var (e', p') := Act(e, p, a); PairInv(role, e', p')
  {
    if a.Open? { OpenKeeps(role, e, p, a.peerSeen); }
    else if a.Read? { ReadKeeps(role, e, p); }
    else if a.Finish? { FinishKeeps(role, e, p, a.result); }
    else if a.Reply? { ReplyKeeps(role, e, p, a.peerSeen); }
    else if a.Shut? { ShutKeeps(role, e, p, a.peerSeen, a.callbackCloses); }
    else if a.StartClose? { StartCloseKeeps(role, e); }
    else if a.Step? { CloserKeeps(role, e, p, a.peerSeen); }
    else { IssueKeeps(role, e, p, a.message, a.peerSeen); }
  }

  lemma InvAlways(s: System, schedule: seq<Event>)
    requires Inv(s)
    ensures Inv(Run(s, schedule))
    decreases |schedule|
  {
    if schedule != [] {
      var ev := schedule[0];
      if CanStep(s, ev) {
        ActKeeps(ev.role, s.At(ev.role), s.At(Other(ev.role)), ev.action);
        InvAlways(Next(s, ev), schedule[1..]);
      } else {
        InvAlways(s, schedule[1..]);
      }
    }
  }
}
