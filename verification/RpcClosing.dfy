/** The promises of the closing and opening routines, for every schedule. */
module RpcClosing {
  import opened RpcProtocol
  import opened RpcSafety

  function Reached(schedule: seq<Event>): System { Run(Initial(), schedule) }

  lemma ReachedInv(schedule: seq<Event>, role: Role)
    ensures Inv(Reached(schedule))
    ensures PairInv(role, Reached(schedule).At(role), Reached(schedule).At(Other(role)))
  {
    InvAlways(Initial(), schedule);
  }

  /** A sequence determines what precedes its first closing message. */
  lemma FirstClose(xs: seq<Message>, x: seq<Message>, ys: seq<Message>, y: seq<Message>)
    requires AllWork(xs) && AllWork(ys) && xs + [Close] + x == ys + [Close] + y
    ensures xs == ys
  {
    var all := xs + [Close] + x;
    assert all[|xs|] == Close && (ys + [Close] + y)[|ys|] == Close;
    assert xs == all[..|xs|] && ys == all[..|ys|];
  }

  /** Requests followed by anything, on a wire whose first closing message comes right after `early`. */
  lemma WorkPrefix(handled: seq<Message>, rest: seq<Message>, early: seq<Message>, late: seq<Message>)
    requires AllWork(handled)
    requires handled + rest == early || handled + rest == early + [Close] + late
    ensures handled <= early
  {
    var wire := handled + rest;
    assert wire == early + [Close] + late ==> wire[|early|] == Close;
    assert forall i :: 0 <= i < |handled| && i < |early| ==> handled[i] == wire[i] == early[i];
  }

  /** What both ends say about the wire from `e` to `p` once the handshake messages are cut off. */
  lemma WireBody(role: Role, e: Endpoint, p: Endpoint)
    requires PairInv(role, e, p) && !IsOpening(e.reader) && !IsOpening(p.reader)
    ensures p.handled + (Current(p.reader) + (if IsShutting(p.reader) then [Close] else []) + p.inbox)
         == e.early + (if ClosedOut(e) then [Close] + e.late else [])
  {
    var h := HandshakeSent(role, e.reader);
    var body := p.handled + (Current(p.reader) + (if IsShutting(p.reader) then [Close] else []) + p.inbox);
    var wire := e.early + (if ClosedOut(e) then [Close] + e.late else []);
    assert e.sent == h + body;
    Cancel(h, body, wire);
  }

  lemma Cancel(h: seq<Message>, x: seq<Message>, y: seq<Message>)
    requires h + x == h + y
    ensures x == y
  {
    assert x == (h + x)[|h|..];
    assert y == (h + y)[|h|..];
  }

  /** While the sender is opening nothing but its handshake is on the wire, so the receiver has handled nothing. */
  lemma OpeningHandlesNothing(role: Role, e: Endpoint, p: Endpoint)
    requires PairInv(role, e, p) && (IsOpening(e.reader) || IsOpening(p.reader))
    ensures p.handled == [] && !IsShutting(p.reader)
  {
    if !IsOpening(p.reader) {
      assert e.sent == HandshakeSent(role, e.reader);
      assert |e.sent| <= |HandshakeTaken(Other(role), p.reader)|;
    }
  }

  /** The requests a receive cycle has handled are, in order, the first ones its peer issued. */
  lemma HandledPrefix(role: Role, e: Endpoint, p: Endpoint)
    requires PairInv(role, e, p)
    ensures p.handled <= e.early
    ensures IsShutting(p.reader) ==> p.handled == e.early
  {
    if IsOpening(e.reader) || IsOpening(p.reader) {
      OpeningHandlesNothing(role, e, p);
    } else {
      WireBody(role, e, p);
      var rest := Current(p.reader) + (if IsShutting(p.reader) then [Close] else []) + p.inbox;
      assert ClosedOut(e) ==> p.handled + rest == e.early + [Close] + e.late;
      WorkPrefix(p.handled, rest, e.early, e.late);
      if IsShutting(p.reader) {
        PeerStillOpen(role, e, p);
        assert p.handled + rest == p.handled + [Close] + p.inbox;
        FirstClose(p.handled, p.inbox, e.early, e.late);
      }
    }
  }

  /**
   * Zero message loss: whatever the interleaving, the handled requests are an ordered prefix of the requests the peer
   * issued before its closing message, and all of them once the receive cycle takes its closing branch.
   */
  lemma ZeroMessageLoss(schedule: seq<Event>, role: Role)
    ensures var sender, receiver := Reached(schedule).At(role), Reached(schedule).At(Other(role));
      && receiver.handled <= sender.early
      && (IsShutting(receiver.reader) ==> receiver.handled == sender.early)
  {
    ReachedInv(schedule, role);
    HandledPrefix(role, Reached(schedule).At(role), Reached(schedule).At(Other(role)));
  }

  lemma WorkHasNoClose(ms: seq<Message>)
    requires AllWork(ms)
    ensures multiset(ms)[Close] == 0
  {
    assert Close !in ms;
  }

  lemma WireCount(h: seq<Message>, early: seq<Message>, late: seq<Message>, closed: bool)
    requires Close !in h && AllWork(early) && AllWork(late)
    ensures multiset(h + early + (if closed then [Close] + late else []))[Close] == if closed then 1 else 0
  {
    WorkHasNoClose(early);
    WorkHasNoClose(late);
    assert multiset([Close] + late)[Close] == 1;
  }

  lemma CountCloses(role: Role, e: Endpoint)
    requires Local(role, e)
    ensures multiset(e.sent)[Close] == if ClosedOut(e) then 1 else 0
  {
    WireCount(HandshakeSent(role, e.reader), e.early, e.late, ClosedOut(e));
  }

  /**
   * One closing message per direction and one run of the closing callback, whichever thread wins. When the receive cycle
   * won, the descriptor is closed before close() comes to its send, so that send fails.
   */
  lemma ClosesOnce(schedule: seq<Event>, role: Role)
    ensures var e := Reached(schedule).At(role);
      && multiset(e.sent)[Close] <= 1
      && (e.reader.Ended? ==> multiset(e.sent)[Close] == 1 && e.callbacks == 1)
      && e.callbacks <= 1
      && (e.closer.CloserCleared? && Close in e.sent ==> !e.open)
  {
    ReachedInv(schedule, role);
    var e := Reached(schedule).At(role);
    CountCloses(role, e);
    CloseOnWire(role, e);
  }

  /**
   * close() returns from its wait only after the own callback has run and everything the peer issued before its closing
   * message is handled; if the peer never got past the check of its own close(), also only after the peer has handled
   * every request issued before the closing message.
   */
  lemma CloseReturnsLast(schedule: seq<Event>, role: Role)
    ensures var e, p := Reached(schedule).At(role), Reached(schedule).At(Other(role));
      e.closer.Returned? ==>
        && e.reader.Ended? && e.callbacks == 1 && e.handled == p.early
        && (!ClearedByCloser(p) ==> p.handled == e.early)
  {
    ReachedInv(schedule, role);
    var e, p := Reached(schedule).At(role), Reached(schedule).At(Other(role));
    if e.closer.Returned? {
      HandledPrefix(role, e, p);
      HandledPrefix(Other(role), p, e);
      PeerStillOpen(Other(role), p, e);
      CloseOnWire(Other(role), p);
    }
  }

  /**
   * A descriptor is closed only after the peer's closing message was taken and the own one is on the wire. Hence the
   * receive cycle never reads the end of the stream, and a request issued before the own closing message finds both
   * descriptors open.
   */
  lemma DescriptorsCloseInOrder(schedule: seq<Event>, role: Role)
    ensures var e, p := Reached(schedule).At(role), Reached(schedule).At(Other(role));
      && (!e.open ==> IsShutting(e.reader) && Close in e.sent && Close in p.sent)
      && !e.endOfStream
      && (Enabled(e, p, Read) ==> e.inbox != [])
      && (Close !in e.sent ==> forall seen :: !SendFails(e, p, seen))
  {
    ReachedInv(schedule, role);
    var e, p := Reached(schedule).At(role), Reached(schedule).At(Other(role));
    CloseOnWire(role, e);
    CloseOnWire(Other(role), p);
    PeerStillOpen(role, e, p);
    PeerStillOpen(Other(role), p, e);
    if e.reader.Reading? { CycleHead(role, e, p); }
  }

  /**
   * Handshake reads take only handshake messages and receive cycles never see one. The connecting callback has finished
   * before connectToServer returns, and before the server starts its receive cycle, where all its other callbacks run.
   */
  lemma OpeningSeparates(schedule: seq<Event>)
    ensures var s := Reached(schedule);
      && !s.client.strayRead && !s.server.strayRead
      && s.server.connectings <= 1
      && (!IsOpening(s.client.reader) ==> s.server.connectings == 1)
      && (!IsOpening(s.server.reader) ==> s.server.connectings == 1)
  {
    ReachedInv(schedule, ClientRole);
    var s := Reached(schedule);
    if !IsOpening(s.client.reader) {
      assert |s.server.sent| >= 2;
      assert IsOpening(s.server.reader) ==> s.server.sent == HandshakeSent(ServerRole, s.server.reader);
    }
  }

  /** A close() called by the closing callback finds the endpoint disconnected, so it does not wait for its own thread. */
  lemma CallbackNeverWaits(schedule: seq<Event>, role: Role)
    ensures var e := Reached(schedule).At(role);
      !e.reader.SelfWait? && (e.reader.InCallback? ==> !e.connected)
  {
    ReachedInv(schedule, role);
  }

  /** A close() on an endpoint that is not connected has returned after its first statement; any other comes to its wait. */
  lemma CloseSkipsIff(schedule: seq<Event>, role: Role)
    requires CanStep(Reached(schedule), Event(role, StartClose))
    ensures var e, e' := Reached(schedule).At(role), Next(Reached(schedule), Event(role, StartClose)).At(role);
      (e'.closer.Skipped? <==> ClearedByReader(e)) && (e'.closer.PassedCheck? <==> !ClearedByReader(e))
  {
    ReachedInv(schedule, role);
  }
}
