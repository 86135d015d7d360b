/** The framing socket: sendMessage and receiveMessage as loops over a byte channel. */
module BsonSockets {
  import opened Framing

  /** One direction of a connection: the bytes sent and not yet received. */
  class Channel {
    var bytes: seq<byte>

    constructor ()
      ensures bytes == []
    {
      bytes := [];
    }

    /** recv(): any non-empty prefix that fits the buffer, or nothing at the end of the stream. */
    method Recv(limit: nat) returns (data: seq<byte>)
      requires limit > 0
      modifies this
      ensures data + bytes == old(bytes) && |data| <= limit
      ensures data == [] <==> old(bytes) == []
    {
      if bytes == [] { return []; }
      var size: nat :| 1 <= size <= limit && size <= |bytes|;
      data := bytes[..size];
      bytes := bytes[size..];
    }
  }

  /** Bytes taken from the store are taken from the stream as a whole. */
  lemma StoredPrefix(stored: seq<byte>, coming: seq<byte>, n: nat)
    requires n <= |stored|
    ensures (stored + coming)[..n] == stored[..n] && (stored + coming)[n..] == stored[n..] + coming
  {
  }

  datatype SendResult = Complete | SocketClosed | PeerHungUp | Errno | Unfinished

  class BsonSocket {
    const RECEIVE_BUFFER_SIZE: nat := 4
    var isOpen: bool
    var storage: seq<byte>      // storage_bson_
    const incoming: Channel
    const outgoing: Channel

    constructor (incoming: Channel, outgoing: Channel)
      ensures isOpen && storage == [] && this.incoming == incoming && this.outgoing == outgoing
    {
      isOpen, storage := true, [];
      this.incoming, this.outgoing := incoming, outgoing;
    }

    method Close()
      modifies this`isOpen
      ensures !isOpen
    {
      isOpen := false;
    }

    /** One of the two sending loops; `results` are the values the successive send() calls return. */
    method SendLoop(data: seq<byte>, results: seq<int>) returns (r: SendResult)
      requires |data| < SIZE_LIMIT && Legal(|data|, 0, results)
      modifies outgoing
      ensures var s := LastOffsetLoop(data, 0, |data|, results);
        && outgoing.bytes == old(outgoing.bytes) + s.emitted
        && r == (match s case Sent(_) => Complete case Failed(_) => Errno case Blocked(_) => Unfinished)
    {
      ghost var all := LastOffsetLoop(data, 0, |data|, results);
      ghost var out := [];
      var sendSize: nat, missing: nat, rest := 0, |data|, results;
      assert Prepend(out, all) == all;
      while missing > 0
        invariant sendSize <= |data| && Legal(|data|, sendSize, rest)
        invariant outgoing.bytes == old(outgoing.bytes) + out
        invariant Prepend(out, LastOffsetLoop(data, sendSize, missing, rest)) == all
        decreases |rest|
      {
        if rest == [] { return Unfinished; }
        var result := rest[0];
        if result == -1 { return Errno; }
        var chunk := data[sendSize..sendSize + result];
        OneMore(out, data, sendSize, missing, rest, out + chunk, rest[1..]);
        assert outgoing.bytes + chunk == old(outgoing.bytes) + (out + chunk);
        outgoing.bytes, out := outgoing.bytes + chunk, out + chunk;
        missing := if result <= missing then missing - result else missing + SIZE_LIMIT - result;
        sendSize, rest := result, rest[1..];
      }
      r := Complete;
    }

    /**
     * sendMessage: when the header and the body each need at most two calls, exactly the frame goes out. `hungUp` says
     * whether the poll reports that the peer has closed.
     */
    method SendMessage(body: seq<byte>, hungUp: bool, headerResults: seq<int>, bodyResults: seq<int>)
        returns (r: SendResult)
      requires |body| < SIZE_LIMIT && Legal(HEADER_SIZE, 0, headerResults) && Legal(|body|, 0, bodyResults)
      modifies outgoing
      ensures !isOpen ==> r == SocketClosed
      ensures isOpen && hungUp ==> r == PeerHungUp
      ensures r == SocketClosed || r == PeerHungUp ==> outgoing.bytes == old(outgoing.bytes)
      ensures r == Complete <==> isOpen && !hungUp && Ends(HEADER_SIZE, 0, HEADER_SIZE, headerResults)
                                 && Ends(|body|, 0, |body|, bodyResults)
      ensures isOpen && !hungUp ==>
        var header := LastOffsetLoop(ToBytes(|body|, HEADER_SIZE), 0, HEADER_SIZE, headerResults);
        var rest := LastOffsetLoop(body, 0, |body|, bodyResults);
        && outgoing.bytes == old(outgoing.bytes) + (header.emitted + if header.Sent? then rest.emitted else [])
        && (r == Errno <==> header.Failed? || (header.Sent? && rest.Failed?))
      ensures r == Complete && Calls(HEADER_SIZE, 0, HEADER_SIZE, headerResults) <= 2
              && Calls(|body|, 0, |body|, bodyResults) <= 2
              ==> outgoing.bytes == old(outgoing.bytes) + Frame(body)
    {
      if !isOpen { return SocketClosed; }
      if hungUp { return PeerHungUp; }
      var header := ToBytes(|body|, HEADER_SIZE);
      EndsIsSent(header, 0, HEADER_SIZE, headerResults);
      EndsIsSent(body, 0, |body|, bodyResults);
      r := SendLoop(header, headerResults);
      if r != Complete { return; }
      r := SendLoop(body, bodyResults);
      if r == Complete && Calls(HEADER_SIZE, 0, HEADER_SIZE, headerResults) <= 2 && Calls(|body|, 0, |body|, bodyResults) <= 2 {
        TwoCallsExact(header, headerResults);
        TwoCallsExact(body, bodyResults);
      }
    }

    /** Receive until `size` bytes are stored; false when the stream ends first. */
    method Fill(size: nat) returns (enough: bool)
      modifies this`storage, incoming
      ensures storage + incoming.bytes == old(storage + incoming.bytes)
      ensures enough <==> size <= old(|storage + incoming.bytes|)
      ensures enough ==> |storage| >= size && (|storage| <= size + 3 || storage == old(storage))
      ensures !enough ==> incoming.bytes == []
    {
      while |storage| < size
        invariant storage + incoming.bytes == old(storage + incoming.bytes)
        invariant |storage| < size + RECEIVE_BUFFER_SIZE || storage == old(storage)
        decreases size - |storage|
      {
        var received := incoming.Recv(RECEIVE_BUFFER_SIZE);
        storage := storage + received;
        if received == [] { return false; }
      }
      enough := true;
    }

    /**
     * receiveMessage: the outcome depends only on the bytes stored and to come, however they are cut into receives. At
     * most three bytes beyond the message are left in the store.
     */
    method ReceiveMessage() returns (r: Received)
      modifies this`storage, incoming
      ensures !isOpen ==> r == NotOpen && storage == old(storage) && incoming.bytes == old(incoming.bytes)
      ensures isOpen ==> (r, storage + incoming.bytes) == Extract(old(storage + incoming.bytes))
      ensures r.Message? && |r.body| < INT_LIMIT && old(|storage|) <= 3 ==> |storage| <= 3
      ensures r.PeerClosed? ==> incoming.bytes == []
    {
      if !isOpen { return NotOpen; }
      ghost var all := storage + incoming.bytes;
      var enough := Fill(HEADER_SIZE);
      if !enough { return PeerClosed; }
      StoredPrefix(storage, incoming.bytes, HEADER_SIZE);
      var size := FromBytes(storage[..HEADER_SIZE]);
      storage := storage[HEADER_SIZE..];
      ghost var rest := all[HEADER_SIZE..];
      assert storage + incoming.bytes == rest;
      enough := Fill(size);
      if !enough { return PeerClosed; }
      StoredPrefix(storage, incoming.bytes, size);
      var body := storage[..size];
      var erased := Narrow(size);
      if erased < 0 { return UndefinedErase; }
      StoredPrefix(storage, incoming.bytes, erased);
      storage := storage[erased..];
      r := Message(body);
    }
  }

  /** Every message has a length an int can hold, as the format of a document in BSON demands. */
  predicate AllShort(bodies: seq<seq<byte>>) { forall i :: 0 <= i < |bodies| ==> |bodies[i]| < INT_LIMIT }

  lemma NextFrame(bodies: seq<seq<byte>>, i: nat, tail: seq<byte>)
    requires i < |bodies|
    ensures Stream(bodies[i..]) + tail == Frame(bodies[i]) + (Stream(bodies[i + 1..]) + tail)
  {
    assert bodies[i..][0] == bodies[i] && bodies[i..][1..] == bodies[i + 1..];
  }

  /**
   * Round trip: a fresh receiver takes from the stream of any messages exactly these, in order, then sees the end, also
   * when the stream is cut off inside a further message `torn`. At every moment the stored bytes and the bytes to come are
   * the encoding of the messages not yet returned.
   */
  method ReceiveAll(socket: BsonSocket, bodies: seq<seq<byte>>, ghost torn: seq<byte>, ghost cut: nat)
      returns (received: seq<seq<byte>>, last: Received)
    requires socket.isOpen && socket.storage == [] && AllShort(bodies)
    requires |torn| < SIZE_LIMIT && cut < |Frame(torn)|
    requires socket.incoming.bytes == Stream(bodies) + Frame(torn)[..cut]
    modifies socket`storage, socket.incoming
    ensures received == bodies && last == PeerClosed && socket.incoming.bytes == []
    ensures cut == 0 ==> socket.storage == []
  {
    received := [];
    ghost var tail := Frame(torn)[..cut];
    while |received| < |bodies|
      invariant |received| <= |bodies| && received == bodies[..|received|]
      invariant socket.storage + socket.incoming.bytes == Stream(bodies[|received|..]) + tail
      invariant |socket.storage| <= 3
    {
      var i := |received|;
      NextFrame(bodies, i, tail);
      FrameRoundTrip(bodies[i], Stream(bodies[i + 1..]) + tail);
      var r := socket.ReceiveMessage();
      received := received + [r.body];
    }
    assert Stream([]) + tail == tail;
    TruncatedFrame(torn, cut);
    last := socket.ReceiveMessage();
  }

  /** A list of send() results on which a loop over `n` bytes ends without an error and after at most two calls. */
  predicate TwoCalls(n: nat, results: seq<int>) {
    n < SIZE_LIMIT && Legal(n, 0, results) && Ends(n, 0, n, results) && Calls(n, 0, n, results) <= 2
  }

  /** End to end: what one socket sends in such calls the socket at the other end receives, message by message. */
  method Exchange(sender: BsonSocket, receiver: BsonSocket, bodies: seq<seq<byte>>,
                  headerResults: seq<seq<int>>, bodyResults: seq<seq<int>>)
      returns (received: seq<seq<byte>>)
    requires sender.outgoing == receiver.incoming && sender.outgoing.bytes == [] && receiver.storage == []
    requires sender.isOpen && receiver.isOpen && AllShort(bodies)
    requires |headerResults| == |bodyResults| == |bodies|
    requires forall i :: 0 <= i < |bodies| ==> TwoCalls(HEADER_SIZE, headerResults[i]) && TwoCalls(|bodies[i]|, bodyResults[i])
    modifies receiver`storage, sender.outgoing
    ensures received == bodies
  {
    var i := 0;
    while i < |bodies|
      invariant 0 <= i <= |bodies| && sender.outgoing.bytes == Stream(bodies[..i])
      invariant receiver.storage == []
    {
      assert bodies[..i + 1] == bodies[..i] + [bodies[i]];
      StreamAppend(bodies[..i], bodies[i]);
      var r := sender.SendMessage(bodies[i], false, headerResults[i], bodyResults[i]);
      i := i + 1;
    }
    assert bodies[..i] == bodies;
    var last;
    assert Stream(bodies) + Frame([])[..0] == Stream(bodies);
    received, last := ReceiveAll(receiver, bodies, [], 0);
  }
}
