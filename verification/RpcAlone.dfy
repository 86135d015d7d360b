/**
 * An endpoint whose peer is gone: the descriptor was closed without a closing message, and the peer's threads run no
 * more. What the endpoint's own threads keep does not depend on the peer, and they come to their end all the same.
 */
module RpcAlone {
  import opened Options
  import opened RpcProtocol
  import opened RpcSafety
  import opened RpcProgress

  /** How far a step takes the two threads of an endpoint. */
  predicate Moves(e: Endpoint, e': Endpoint, a: Action) {
    && (IsOpening(e'.reader) ==> IsOpening(e.reader))
    && (e.reader.InCallback? && !a.Shut? ==> e'.reader.InCallback?)
    && (e.reader.InCallback? && a.Shut? && !a.callbackCloses ==> e'.reader.Notifying?)
    && (e.reader.Notifying? || e.reader.Ended? ==> e'.reader.Notifying? || e'.reader.Ended?)
    && (e'.reader.Notifying? || e'.reader.Ended? ==>
          e.reader.Notifying? || e.reader.Ended? || (a.Shut? && e.reader.InCallback?))
    && (e'.closer.CloserIdle? <==> e.closer.CloserIdle? && !a.StartClose?)
    && (e.closer.Returned? || e.closer.Skipped? ==> e'.closer == e.closer)
  }

  /** A peer that has at most got another message. */
  predicate Untouched(p: Endpoint, p': Endpoint) { p' == p.(inbox := p'.inbox) }

  /** A send moves no thread. */
  lemma TransmitFrame(e: Endpoint, p: Endpoint, m: Message, seen: bool)
    ensures var (e', p') := Transmit(e, p, m, seen);
      e'.reader == e.reader && e'.closer == e.closer && Untouched(p, p')
  {
  }

  lemma IssueFrame(e: Endpoint, p: Endpoint, m: Message, seen: bool)
    ensures var (e', p') := Issue(e, p, m, seen);
      e'.reader == e.reader && e'.closer == e.closer && Untouched(p, p')
  {
  }

  lemma OpenReadMoves(e: Endpoint)
    requires IsOpening(e.reader) && !OpeningSends(e.reader)
    requires e.reader.AwaitAck? || e.reader.AwaitClear? || e.reader.AwaitHello? ==> e.inbox != []
    ensures Moves(e, OpenRead(e), Open(true))
  {
    match e.reader
    case AwaitAck =>
    case MarkConnected =>
    case AwaitClear =>
    case AwaitHello =>
    case Connecting =>
  }

  lemma LockedMoves(e: Endpoint, c: bool)
    requires e.reader.WantLock? || e.reader.ReaderLocked? || e.reader.ClosingFd? || e.reader.FdClosed?
    ensures Moves(e, ShutQuietly(e, c), Shut(true, c))
  {
  }

  lemma UnlockedMoves(e: Endpoint, c: bool)
    requires e.reader.InCallback? || e.reader.Notifying?
    ensures Moves(e, ShutQuietly(e, c), Shut(true, c))
  {
  }

  lemma ShutQuietlyMoves(e: Endpoint, c: bool)
    requires IsShutting(e.reader) && !e.reader.ReaderCleared? && !e.reader.SelfWait? && !e.reader.Ended?
    ensures Moves(e, ShutQuietly(e, c), Shut(true, c))
  {
    if e.reader.InCallback? || e.reader.Notifying? { UnlockedMoves(e, c); } else { LockedMoves(e, c); }
  }

  lemma OpenMoves(e: Endpoint, p: Endpoint, seen: bool)
    requires Enabled(e, p, Open(seen))
    ensures var (e', p') := OpenStep(e, p, seen); Moves(e, e', Open(seen)) && Untouched(p, p')
  {
    if e.reader.SendHello? { TransmitFrame(e.(reader := AwaitClear), p, Hello, seen); }
    else if e.reader.SendAck? { TransmitFrame(e.(reader := AwaitHello), p, Ack, seen); }
    else if e.reader.SendClear? { TransmitFrame(e.(reader := Reading), p, Clear, seen); }
    else { OpenReadMoves(e); }
  }

  lemma ShutMoves(e: Endpoint, p: Endpoint, seen: bool, c: bool)
    requires Enabled(e, p, Shut(seen, c))
    ensures var (e', p') := ShutStep(e, p, seen, c); Moves(e, e', Shut(seen, c)) && Untouched(p, p')
  {
    if e.reader.ReaderCleared? { TransmitFrame(e.(reader := ClosingFd), p, Close, seen); }
    else { ShutQuietlyMoves(e, c); }
  }

  lemma CloserMoves(e: Endpoint, p: Endpoint, seen: bool)
    requires Enabled(e, p, Step(seen))
    ensures var (e', p') := CloserStep(e, p, seen); Moves(e, e', Step(seen)) && Untouched(p, p')
  {
    if e.closer.CloserCleared? { TransmitFrame(e.(closer := CloserSent), p, Close, seen); }
  }

  lemma ReadMoves(e: Endpoint)
    requires e.reader.Reading?
    ensures Moves(e, ReadStep(e), Read)
  {
  }

  lemma FinishMoves(e: Endpoint, result: Option<string>)
    requires e.reader.Handling?
    ensures Moves(e, FinishStep(e, result), Finish(result))
  {
  }

  lemma ThreadMoves(e: Endpoint, p: Endpoint, a: Action)
    requires Enabled(e, p, a)
    ensures var (e', p') := Act(e, p, a); Moves(e, e', a) && Untouched(p, p')
  {
    if a.Open? { OpenMoves(e, p, a.peerSeen); }
    else if a.Read? { ReadMoves(e); }
    else if a.Finish? { FinishMoves(e, a.result); }
    else if a.Reply? { IssueFrame(e.(reader := Reading), p, e.reader.response, a.peerSeen); }
    else if a.Shut? { ShutMoves(e, p, a.peerSeen, a.callbackCloses); }
    else if a.Step? { CloserMoves(e, p, a.peerSeen); }
    else if a.Send? { IssueFrame(e, p, a.message, a.peerSeen); }
  }

  lemma IssueThreads(role: Role, e: Endpoint, p: Endpoint, m: Message, seen: bool)
    requires Threads(role, e)
    ensures Threads(role, Issue(e, p, m, seen).0) && Threads(role, Transmit(e, p, m, seen).0)
  {
  }

  lemma OpenThreads(role: Role, e: Endpoint, p: Endpoint, seen: bool)
    requires Threads(role, e) && Enabled(e, p, Open(seen))
    ensures Threads(role, OpenStep(e, p, seen).0)
  {
    if OpeningSends(e.reader) {
      var e0 := e.(reader := AfterSending(e.reader));
      IssueThreads(role, e0, p, OpeningMessage(e.reader), seen);
    }
  }

  lemma ReadThreads(role: Role, e: Endpoint)
    requires Threads(role, e) && e.reader.Reading?
    ensures Threads(role, ReadStep(e))
  {
  }

  lemma FinishThreads(role: Role, e: Endpoint, result: Option<string>)
    requires Threads(role, e) && e.reader.Handling?
    ensures Threads(role, FinishStep(e, result))
  {
  }

  lemma LockedThreads(role: Role, e: Endpoint, c: bool)
    requires Threads(role, e) && (e.reader.ReaderLocked? || e.reader.ClosingFd? || e.reader.FdClosed?)
    ensures Threads(role, ShutQuietly(e, c))
  {
  }

  lemma UnlockedThreads(role: Role, e: Endpoint, c: bool)
    requires Threads(role, e) && ((e.reader.WantLock? && e.holder.Free?) || e.reader.InCallback? || e.reader.Notifying?)
    ensures Threads(role, ShutQuietly(e, c))
  {
  }

  lemma ShutThreads(role: Role, e: Endpoint, p: Endpoint, seen: bool, c: bool)
    requires Threads(role, e) && Enabled(e, p, Shut(seen, c))
    ensures Threads(role, ShutStep(e, p, seen, c).0)
  {
    if e.reader.ReaderCleared? { IssueThreads(role, e.(reader := ClosingFd), p, Close, seen); }
    else if e.reader.ReaderLocked? || e.reader.ClosingFd? || e.reader.FdClosed? { LockedThreads(role, e, c); }
    else { UnlockedThreads(role, e, c); }
  }

  lemma CloserThreads(role: Role, e: Endpoint, p: Endpoint, seen: bool)
    requires Threads(role, e) && Enabled(e, p, Step(seen))
    ensures Threads(role, CloserStep(e, p, seen).0)
  {
    if e.closer.CloserCleared? { IssueThreads(role, e.(closer := CloserSent), p, Close, seen); }
  }

  /** Every statement keeps the threads of its endpoint together, whatever state the peer is in. */
  lemma ThreadsKeep(role: Role, e: Endpoint, p: Endpoint, a: Action)
    requires Threads(role, e) && Enabled(e, p, a)
    ensures Threads(role, Act(e, p, a).0)
  {
    if a.Open? { OpenThreads(role, e, p, a.peerSeen); }
    else if a.Read? { ReadThreads(role, e); }
    else if a.Finish? { FinishThreads(role, e, a.result); }
    else if a.Reply? { IssueThreads(role, e.(reader := Reading), p, e.reader.response, a.peerSeen); }
    else if a.Shut? { ShutThreads(role, e, p, a.peerSeen, a.callbackCloses); }
    else if a.Step? { CloserThreads(role, e, p, a.peerSeen); }
    else if a.Send? { IssueThreads(role, e, p, a.message, a.peerSeen); }
  }

  /** The client alone: if it is still opening, the message it waits for is in its channel. */
  predicate ClientAlone(e: Endpoint) {
    Threads(ClientRole, e) && (IsOpening(e.reader) ==> e.reader.AwaitClear? && e.inbox != [])
  }

  /** While it is still opening it leaves its channel alone. */
  lemma WaitsForMessage(e: Endpoint, p: Endpoint, a: Action)
    requires ClientAlone(e) && IsOpening(e.reader) && Enabled(e, p, a)
    ensures IsOpening(Act(e, p, a).0.reader) ==> Act(e, p, a).0.reader == e.reader && Act(e, p, a).0.inbox == e.inbox
  {
    assert a.Open?;
    assert Act(e, p, a) == (OpenRead(e), p);
  }

  lemma ClientAloneKeeps(e: Endpoint, p: Endpoint, a: Action)
    requires ClientAlone(e) && Enabled(e, p, a)
    ensures ClientAlone(Act(e, p, a).0)
  {
    ThreadsKeep(ClientRole, e, p, a);
    ThreadMoves(e, p, a);
    if IsOpening(e.reader) { WaitsForMessage(e, p, a); }
  }

  /** Once the server has opened its side, the client has what it needs to open its own. */
  lemma ServerOpened(e: Endpoint, p: Endpoint)
    requires PairInv(ClientRole, e, p) && !IsOpening(p.reader)
    ensures ClientAlone(e)
  {
    if IsOpening(e.reader) {
      assert e.sent == HandshakeSent(ClientRole, e.reader);
      assert |p.sent| >= 2;
    }
  }

  /** A client alone that can do nothing has finished: its receive cycle reads the end of the stream, and close() returns. */
  lemma FinishesAlone(e: Endpoint, p: Endpoint)
    requires ClientAlone(e) && !p.open && NextAction(e, p).None?
    ensures EndpointFinished(e)
  {
  }
}
