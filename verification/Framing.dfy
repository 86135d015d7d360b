/** Length-prefixed framing over a byte stream: what the sending and receiving loops of the socket compute. */
module Framing {

  newtype byte = x: int | 0 <= x < 256

  /** The number of values of size_t, and the first length that static_cast<int> does not keep. */
  const SIZE_LIMIT: nat := 0x1_0000_0000_0000_0000
  const INT_LIMIT: nat := 0x8000_0000
  const UINT_LIMIT: nat := 0x1_0000_0000
  const HEADER_SIZE: nat := 8

  /** The object representation of a size_t on a little-endian host. */
  function ToBytes(n: nat, width: nat): (bs: seq<byte>)
    ensures |bs| == width
  {
    if width == 0 then [] else [(n % 256) as byte] + ToBytes(n / 256, width - 1)
  }

  function FromBytes(bs: seq<byte>): nat { if bs == [] then 0 else bs[0] as nat + 256 * FromBytes(bs[1..]) }

  function Range(width: nat): nat { if width == 0 then 1 else 256 * Range(width - 1) }

  lemma {:induction false} BytesRoundTrip(n: nat, width: nat)
    requires n < Range(width)
    ensures FromBytes(ToBytes(n, width)) == n
  {
    if width > 0 {
      BytesRoundTrip(n / 256, width - 1);
      assert ToBytes(n, width)[1..] == ToBytes(n / 256, width - 1);
    }
  }

  lemma SizeRange()
    ensures Range(8) == SIZE_LIMIT
  {
    assert Range(4) == 0x1_0000_0000;
  }

  /** One encoded message: its size in eight bytes, then its bytes. */
  function Frame(body: seq<byte>): seq<byte> { ToBytes(|body|, HEADER_SIZE) + body }

  function Stream(bodies: seq<seq<byte>>): seq<byte> {
    if bodies == [] then [] else Frame(bodies[0]) + Stream(bodies[1..])
  }

  lemma {:induction false} StreamAppend(bodies: seq<seq<byte>>, body: seq<byte>)
    ensures Stream(bodies + [body]) == Stream(bodies) + Frame(body)
  {
    if bodies == [] {
      assert [body][1..] == [];
    } else {
      assert (bodies + [body])[1..] == bodies[1..] + [body];
      StreamAppend(bodies[1..], body);
    }
  }

  // ---------- Receiving ----------

  datatype Received =
    | Message(body: seq<byte>)
    | PeerClosed                // the stream ended first
    | NotOpen
    | UndefinedErase            // the narrowed length is negative, so the erased range is not a range

  /** static_cast<int> of a size. */
  function Narrow(size: nat): int {
    var low := size % UINT_LIMIT;
    if low < INT_LIMIT then low else low - UINT_LIMIT
  }

  /** The outcome of receiveMessage on all bytes it may see, stored and still to come, and the bytes left after it. */
  function Extract(all: seq<byte>): (Received, seq<byte>) {
    if |all| < HEADER_SIZE then (PeerClosed, all)
    else
      var size, rest := FromBytes(all[..HEADER_SIZE]), all[HEADER_SIZE..];
      if |rest| < size then (PeerClosed, rest)
      else if Narrow(size) < 0 then (UndefinedErase, rest)
      else (Message(rest[..size]), rest[Narrow(size)..])
  }

  lemma ExtractBehind(header: seq<byte>, body: seq<byte>, rest: seq<byte>)
    requires |header| == HEADER_SIZE && FromBytes(header) == |body|
    ensures var k := Narrow(|body|);
      Extract(header + body + rest) == if k < 0 then (UndefinedErase, body + rest) else (Message(body), (body + rest)[k..])
  {
    var all := header + body + rest;
    assert all[..HEADER_SIZE] == header;
    assert all[HEADER_SIZE..] == body + rest;
    assert (body + rest)[..|body|] == body;
  }

  lemma ExtractFrame(body: seq<byte>, rest: seq<byte>)
    requires |body| < SIZE_LIMIT
    ensures var k := Narrow(|body|);
      Extract(Frame(body) + rest) == if k < 0 then (UndefinedErase, body + rest) else (Message(body), (body + rest)[k..])
  {
    SizeRange();
    BytesRoundTrip(|body|, HEADER_SIZE);
    ExtractBehind(ToBytes(|body|, HEADER_SIZE), body, rest);
  }

  /** A frame comes back as its message, and the stream goes on behind it, exactly for lengths an int can hold. */
  lemma FrameRoundTrip(body: seq<byte>, rest: seq<byte>)
    requires |body| < SIZE_LIMIT
    ensures Extract(Frame(body) + rest) == (Message(body), rest) <==> |body| < INT_LIMIT
  {
    ExtractFrame(body, rest);
    assert (body + rest)[|body|..] == rest;
    if |body| >= INT_LIMIT && Narrow(|body|) >= 0 {
      assert |(body + rest)[Narrow(|body|)..]| > |rest|;
    }
  }

  /** Lengths an int cannot hold: up to 2^32 the erased range is none, and a little beyond too little is erased. */
  lemma OversizedFrame(body: seq<byte>, rest: seq<byte>)
    requires INT_LIMIT <= |body| < UINT_LIMIT + INT_LIMIT
    ensures |body| < UINT_LIMIT ==> Extract(Frame(body) + rest).0 == UndefinedErase
    ensures |body| >= UINT_LIMIT ==> Extract(Frame(body) + rest) == (Message(body), (body + rest)[|body| - UINT_LIMIT..])
  {
    ExtractFrame(body, rest);
  }

  /** A complete length, and fewer bytes behind it than it says. */
  lemma ExtractShort(header: seq<byte>, part: seq<byte>)
    requires |header| == HEADER_SIZE && |part| < FromBytes(header)
    ensures Extract(header + part).0 == PeerClosed
  {
    var all := header + part;
    assert all[..HEADER_SIZE] == header && all[HEADER_SIZE..] == part;
  }

  /** A stream that ends inside a message gives no message. */
  lemma TruncatedFrame(body: seq<byte>, k: nat)
    requires |body| < SIZE_LIMIT && k < |Frame(body)|
    ensures Extract(Frame(body)[..k]).0 == PeerClosed
  {
    if k >= HEADER_SIZE {
      SizeRange();
      BytesRoundTrip(|body|, HEADER_SIZE);
      CutFrame(body, k);
      ExtractShort(ToBytes(|body|, HEADER_SIZE), body[..k - HEADER_SIZE]);
    }
  }

  lemma CutFrame(body: seq<byte>, k: nat)
    requires HEADER_SIZE <= k <= |Frame(body)|
    ensures Frame(body)[..k] == ToBytes(|body|, HEADER_SIZE) + body[..k - HEADER_SIZE]
  {
  }

  /** The layout on the wire: eight bytes of length, the least significant first, then the message. */
  lemma FrameLayout(body: seq<byte>)
    requires |body| < SIZE_LIMIT
    ensures var f := Frame(body);
      |f| == 8 + |body| && f[8..] == body && FromBytes(f[..8]) == |body| && f[0] as nat == |body| % 256
  {
    SizeRange();
    BytesRoundTrip(|body|, HEADER_SIZE);
    assert Frame(body)[..8] == ToBytes(|body|, HEADER_SIZE);
  }

  // ---------- Sending ----------

  datatype Sending<T> =
    | Sent(emitted: seq<T>)     // the loop ended
    | Failed(emitted: seq<T>)   // send() returned -1
    | Blocked(emitted: seq<T>)  // the results considered are used up and the loop goes on

  function Prepend<T>(xs: seq<T>, s: Sending<T>): Sending<T> {
    match s
    case Sent(e) => Sent(xs + e)
    case Failed(e) => Failed(xs + e)
    case Blocked(e) => Blocked(xs + e)
  }

  lemma PrependTwice<T>(xs: seq<T>, ys: seq<T>, s: Sending<T>)
    ensures Prepend(xs, Prepend(ys, s)) == Prepend(xs + ys, s)
  {
    assert xs + (ys + s.emitted) == xs + ys + s.emitted;
  }

  /** Results send() may return when the loop asks for all but the last `last` of `n` bytes. */
  predicate Legal(n: nat, last: nat, results: seq<int>)
    decreases |results|
  {
    results == [] || results[0] == -1 || (1 <= results[0] <= n - last && Legal(n, results[0], results[1..]))
  }

  /** Subtraction of size_t values wraps. */
  function Minus(m: nat, k: nat): nat
    requires k < SIZE_LIMIT
  {
    if k <= m then m - k else m + SIZE_LIMIT - k
  }

  /** The loop as written: the offset is the result of the last call, and the count of missing bytes is a size_t. */
  function LastOffsetLoop<T>(data: seq<T>, last: nat, missing: nat, results: seq<int>): Sending<T>
    requires last <= |data| < SIZE_LIMIT && Legal(|data|, last, results)
    decreases |results|
  {
    if missing == 0 then Sent([])
    else if results == [] then Blocked([])
    else if results[0] == -1 then Failed([])
    else
      Prepend(data[last..last + results[0]],
              LastOffsetLoop(data, results[0], Minus(missing, results[0]), results[1..]))
  }

  /** The loop as intended: the offset is the number of bytes sent so far. */
  function CumulativeLoop<T>(data: seq<T>, done: nat, results: seq<int>): Sending<T>
    requires done <= |data|
    decreases |results|
  {
    if done == |data| then Sent([])
    else if results == [] then Blocked([])
    else if results[0] < 0 || done + results[0] > |data| then Failed([])
    else Prepend(data[done..done + results[0]], CumulativeLoop(data, done + results[0], results[1..]))
  }

  /** How many calls the loop as written makes. */
  function Calls(n: nat, last: nat, missing: nat, results: seq<int>): nat
    requires last <= n < SIZE_LIMIT && Legal(n, last, results)
    decreases |results|
  {
    if missing == 0 || results == [] then 0
    else if results[0] == -1 then 1
    else 1 + Calls(n, results[0], Minus(missing, results[0]), results[1..])
  }

  /** Whether the loop as written ends on these results without an error. */
  predicate Ends(n: nat, last: nat, missing: nat, results: seq<int>)
    requires last <= n < SIZE_LIMIT && Legal(n, last, results)
    decreases |results|
  {
    missing == 0 ||
    (results != [] && results[0] != -1 && Ends(n, results[0], Minus(missing, results[0]), results[1..]))
  }

  lemma {:induction false} EndsIsSent<T>(data: seq<T>, last: nat, missing: nat, results: seq<int>)
    requires last <= |data| < SIZE_LIMIT && Legal(|data|, last, results)
    ensures Ends(|data|, last, missing, results) <==> LastOffsetLoop(data, last, missing, results).Sent?
    decreases |results|
  {
    if missing != 0 && results != [] && results[0] != -1 {
      EndsIsSent(data, results[0], Minus(missing, results[0]), results[1..]);
    }
  }

  /** The loop as intended emits the rest of the data whenever it ends. */
  lemma {:induction false} CumulativeExact<T>(data: seq<T>, done: nat, results: seq<int>)
    requires done <= |data|
    ensures var s := CumulativeLoop(data, done, results); s.Sent? ==> s.emitted == data[done..]
    decreases |results|
  {
    if done < |data| && results != [] && results[0] >= 0 && done + results[0] <= |data| {
      CumulativeExact(data, done + results[0], results[1..]);
      assert data[done..done + results[0]] + data[done + results[0]..] == data[done..];
    }
  }

  /** With at most two calls both loops emit the data, whatever it is. */
  lemma TwoCallsExact<T>(data: seq<T>, results: seq<int>)
    requires |data| < SIZE_LIMIT && Legal(|data|, 0, results)
    requires Ends(|data|, 0, |data|, results) && Calls(|data|, 0, |data|, results) <= 2
    ensures LastOffsetLoop(data, 0, |data|, results) == CumulativeLoop(data, 0, results) == Sent(data)
  {
    if |data| > 0 {
      var n, r, tail := |data|, results[0], results[1..];
      if r < n {
        assert Calls(n, tail[0], n - r - tail[0], tail[1..]) == 0;
        assert Ends(n, tail[0], n - r - tail[0], tail[1..]);
        assert tail[0] == n - r;
        assert LastOffsetLoop(data, r, n - r, tail) == Sent(data[r..] + []);
        assert CumulativeLoop(data, r, tail) == Prepend(data[r..r + tail[0]], CumulativeLoop(data, n, tail[1..]));
        assert data[0..r] + (data[r..] + []) == data;
      } else {
        assert data[0..r] + [] == data;
      }
    }
  }

  /** What send() says it took in the first `n` calls. */
  function Taken(results: seq<int>, n: nat): nat {
    if n == 0 || results == [] || results[0] < 0 then 0 else results[0] + Taken(results[1..], n - 1)
  }

  /** However the loop as written ends, it has put on the wire as many bytes as its calls took. */
  lemma {:induction false} EmittedLength<T>(data: seq<T>, last: nat, missing: nat, results: seq<int>)
    requires last <= |data| < SIZE_LIMIT && Legal(|data|, last, results)
    ensures |LastOffsetLoop(data, last, missing, results).emitted| == Taken(results, Calls(|data|, last, missing, results))
    decreases |results|
  {
    if missing != 0 && results != [] && results[0] != -1 {
      EmittedLength(data, results[0], Minus(missing, results[0]), results[1..]);
    }
  }

  /** And up to its second call these are the first bytes of the data, also when it ends in an error. */
  lemma TwoCallsPrefix<T>(data: seq<T>, results: seq<int>)
    requires |data| < SIZE_LIMIT && Legal(|data|, 0, results) && Calls(|data|, 0, |data|, results) <= 2
    ensures LastOffsetLoop(data, 0, |data|, results).emitted <= data
  {
    if data != [] && results != [] && results[0] != -1 {
      OneCall(data, 0, |data|, results);
      SecondCall(data, results[0], results[1..]);
    }
  }

  lemma SecondCall<T>(data: seq<T>, r: nat, tail: seq<int>)
    requires 1 <= r <= |data| < SIZE_LIMIT && Legal(|data|, r, tail) && Calls(|data|, r, |data| - r, tail) <= 1
    ensures data[0..r] + LastOffsetLoop(data, r, |data| - r, tail).emitted <= data
  {
    if r < |data| && tail != [] && tail[0] != -1 {
      var q := tail[0];
      OneCall(data, r, |data| - r, tail);
      assert Calls(|data|, q, |data| - r - q, tail[1..]) == 0;
      assert LastOffsetLoop(data, q, |data| - r - q, tail[1..]).emitted == [];
      assert data[0..r] + (data[r..r + q] + []) == data[..r + q];
    }
  }

  /** The third call starts at the result of the second, not at the sum of the first two. */
  lemma ThirdOffset(n: nat, results: seq<int>)
    requires n < SIZE_LIMIT && Legal(n, 0, results)
    requires Ends(n, 0, n, results) && Calls(n, 0, n, results) > 2
    ensures |results| > 2
    ensures var r, q := results[0], results[1];
      1 <= r && 1 <= q && r + q < n && Legal(n, q, results[2..]) && Ends(n, q, n - r - q, results[2..])
  {
    var r, q := results[0], results[1];
    assert results[1..][1..] == results[2..];
    assert Calls(n, r, n - r, results[1..]) == 1 + Calls(n, q, n - r - q, results[2..]);
    assert Ends(n, r, n - r, results[1..]);
    assert Ends(n, q, n - r - q, results[2..]);
  }

  lemma OneCall<T>(data: seq<T>, last: nat, missing: nat, results: seq<int>)
    requires last <= |data| < SIZE_LIMIT && Legal(|data|, last, results) && missing != 0
    requires results != [] && results[0] != -1
    ensures LastOffsetLoop(data, last, missing, results)
         == Prepend(data[last..last + results[0]], LastOffsetLoop(data, results[0], Minus(missing, results[0]), results[1..]))
  {
  }

  /** One call more, behind what the calls before it emitted. */
  lemma OneMore<T>(out: seq<T>, data: seq<T>, last: nat, missing: nat, results: seq<int>, out': seq<T>, rest: seq<int>)
    requires last <= |data| < SIZE_LIMIT && Legal(|data|, last, results) && missing != 0
    requires results != [] && results[0] != -1 && rest == results[1..]
    requires out' == out + data[last..last + results[0]]
    ensures Prepend(out, LastOffsetLoop(data, last, missing, results))
         == Prepend(out', LastOffsetLoop(data, results[0], Minus(missing, results[0]), rest))
  {
    OneCall(data, last, missing, results);
    PrependTwice(out, data[last..last + results[0]], LastOffsetLoop(data, results[0], Minus(missing, results[0]), rest));
  }

  lemma JoinSlices<T>(data: seq<T>, i: nat, j: nat)
    requires i <= j <= |data|
    ensures data[..j] == data[0..i] + data[i..j]
  {
  }

  /** The first two calls emit what they should. */
  lemma FirstTwoCalls(data: seq<byte>, results: seq<int>, others: seq<int>, r: nat, q: nat)
    requires |data| < SIZE_LIMIT && 1 <= r && 1 <= q && r + q < |data| && Legal(|data|, 0, results)
    requires results != [] && results[0] == r && others == results[1..] && others != [] && others[0] == q
    requires Legal(|data|, r, others) && Legal(|data|, q, others[1..])
    ensures LastOffsetLoop(data, 0, |data|, results)
         == Prepend(data[..r + q], LastOffsetLoop(data, q, |data| - r - q, others[1..]))
  {
    OneCall(data, 0, |data|, results);
    JoinSlices(data, r, r + q);
    OneMore(data[0..r], data, r, |data| - r, others, data[..r + q], others[1..]);
  }

  /** After two calls that do not finish, the byte at the result of the second is sent in place of the next one. */
  lemma EmittedThere(data: seq<byte>, results: seq<int>)
    requires var n := |data|; n < SIZE_LIMIT && Legal(n, 0, results) && Ends(n, 0, n, results) && Calls(n, 0, n, results) > 2
    ensures |results| > 2 && 1 <= results[0] && 1 <= results[1] && results[0] + results[1] < |data|
    ensures var s := LastOffsetLoop(data, 0, |data|, results);
      s.Sent? && results[0] + results[1] < |s.emitted| && s.emitted[results[0] + results[1]] == data[results[1]]
  {
    ThirdOffset(|data|, results);
    assert results[1..][1..] == results[2..];
    FirstTwoCalls(data, results, results[1..], results[0], results[1]);
    ThirdCall(data, results[1], |data| - results[0] - results[1], results[2..]);
  }

  /** From the third call on the offset is too small: some message of this length is garbled. */
  lemma ThirdCallGarbles(n: nat, results: seq<int>) returns (data: seq<byte>)
    requires n < SIZE_LIMIT && Legal(n, 0, results)
    requires Ends(n, 0, n, results) && Calls(n, 0, n, results) > 2
    ensures |data| == n && LastOffsetLoop(data, 0, n, results) != Sent(data)
  {
    ThirdOffset(n, results);
    var at := results[0] + results[1];
    data := seq(n, i => if i == at then 1 as byte else 0);
    EmittedThere(data, results);
  }

  /** A call at offset `last` emits the byte at that offset first. */
  lemma ThirdCall(data: seq<byte>, last: nat, missing: nat, results: seq<int>)
    requires last <= |data| < SIZE_LIMIT && Legal(|data|, last, results) && missing != 0 && Ends(|data|, last, missing, results)
    ensures last < |data| && LastOffsetLoop(data, last, missing, results).Sent?
    ensures var e := LastOffsetLoop(data, last, missing, results).emitted; e != [] && e[0] == data[last]
  {
    EndsIsSent(data, last, missing, results);
    assert data[last..last + results[0]][0] == data[last];
  }

  /** The loop as written sends every message of a length correctly on a list of results iff it needs at most two calls. */
  lemma SendExactIff(n: nat, results: seq<int>)
    requires n < SIZE_LIMIT && Legal(n, 0, results) && Ends(n, 0, n, results)
    ensures (forall data: seq<byte> | |data| == n :: LastOffsetLoop(data, 0, n, results) == Sent(data))
       <==> Calls(n, 0, n, results) <= 2
  {
    if Calls(n, 0, n, results) <= 2 {
      forall data: seq<byte> | |data| == n ensures LastOffsetLoop(data, 0, n, results) == Sent(data) {
        TwoCallsExact(data, results);
      }
    } else {
      var data := ThirdCallGarbles(n, results);
    }
  }
}
