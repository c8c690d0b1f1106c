// Message framing of the per-run and control sockets: a four byte little-endian
// length, then the payload (pkg/ipc/conn.go). Payloads are the marshalled bytes.
module Framing {
  import opened Picked

  newtype Byte = b: int | 0 <= b < 256

  type Bytes = seq<Byte>

  const MAX_MESSAGE_SIZE := 8 * 1024 * 1024

  // ---- The header -----------------------------------------------------------

  function PutUint32(n: nat): (h: Bytes)
    requires n < 0x1_0000_0000
    ensures |h| == 4
  {
    [(n % 0x100) as Byte, (n / 0x100 % 0x100) as Byte, (n / 0x1_0000 % 0x100) as Byte, (n / 0x100_0000) as Byte]
  }

  function Uint32(h: Bytes): nat
    requires |h| == 4
  {
    h[0] as int + 0x100 * h[1] as int + 0x1_0000 * h[2] as int + 0x100_0000 * h[3] as int
  }

  lemma Digits(n: nat, a: int, b: int, c: int, d: int)
    requires 0 <= a < 0x100 && 0 <= b < 0x100 && 0 <= c < 0x100 && 0 <= d < 0x100
    ensures n == a + 0x100 * b + 0x1_0000 * c + 0x100_0000 * d <==>
      a == n % 0x100 && b == n / 0x100 % 0x100 && c == n / 0x1_0000 % 0x100 && d == n / 0x100_0000
  {
    if n == a + 0x100 * b + 0x1_0000 * c + 0x100_0000 * d {
      assert n / 0x100 == b + 0x100 * c + 0x1_0000 * d;
      assert n / 0x1_0000 == c + 0x100 * d;
    }
    assert n == n % 0x100 + 0x100 * (n / 0x100);
    assert n / 0x100 == n / 0x100 % 0x100 + 0x100 * (n / 0x1_0000);
    assert n / 0x1_0000 == n / 0x1_0000 % 0x100 + 0x100 * (n / 0x100_0000);
  }

  lemma HeaderRoundTrip(n: nat, h: Bytes)
    requires n < 0x1_0000_0000 && |h| == 4
    ensures Uint32(h) == n <==> h == PutUint32(n)
    // Least significant byte first.
    ensures h == PutUint32(n) <==>
      n == h[0] as int + 256 * h[1] as int + 256 * 256 * h[2] as int + 256 * 256 * 256 * h[3] as int
  {
    Digits(n, h[0] as int, h[1] as int, h[2] as int, h[3] as int);
    assert h == [h[0], h[1], h[2], h[3]];
  }

  function Frame(payload: Bytes): Bytes
    requires |payload| <= MAX_MESSAGE_SIZE
  {
    PutUint32(|payload|) + payload
  }

  // ---- Reading --------------------------------------------------------------

  datatype ReadResult =
    | Message(payload: Bytes)
    | ShortHeader
    | ZeroLength
    | MessageTooLarge(size: nat)
    | ShortBody

  // The result of one readMsg on a stream that holds s and then ends, and what
  // it leaves unread.
  function ReadOne(s: Bytes): (ReadResult, Bytes) {
    if |s| < 4 then (ShortHeader, [])
    else
      var size, rest := Uint32(s[..4]), s[4..];
      if size == 0 then (ZeroLength, rest)
      else if size > MAX_MESSAGE_SIZE then (MessageTooLarge(size), rest)
      else if |rest| < size then (ShortBody, [])
      else (Message(rest[..size]), rest[size..])
  }

  // A message is read exactly when the stream starts with its frame.
  lemma ReadsExactlyFrames(s: Bytes, payload: Bytes, rest: Bytes)
    ensures ReadOne(s) == (Message(payload), rest) <==>
      0 < |payload| <= MAX_MESSAGE_SIZE && s == Frame(payload) + rest
  {
    if |s| >= 4 {
      assert s == s[..4] + s[4..];
      if 0 < |payload| <= MAX_MESSAGE_SIZE {
        HeaderRoundTrip(|payload|, s[..4]);
        if s == Frame(payload) + rest {
          assert s[..4] == PutUint32(|payload|) && s[4..] == payload + rest;
        }
      }
      var size := Uint32(s[..4]);
      if 0 < size <= MAX_MESSAGE_SIZE && |s[4..]| >= size {
        HeaderRoundTrip(size, s[..4]);
        assert s[4..] == s[4..][..size] + s[4..][size..];
      }
    }
  }

  // Every refusal, from the length in the header; what follows a refused header is
  // still there to read.
  lemma RefusedExactly(s: Bytes, n: nat, rest: Bytes)
    requires n < 0x1_0000_0000
    ensures ReadOne(s) == (ShortHeader, []) <==> |s| < 4
    ensures
      var r := ReadOne(PutUint32(n) + rest);
      && (n == 0 ==> r == (ZeroLength, rest))
      && (n > 8 * 1024 * 1024 ==> r == (MessageTooLarge(n), rest))
      && (0 < n <= 8 * 1024 * 1024 && |rest| < n ==> r == (ShortBody, []))
  {
    var t := PutUint32(n) + rest;
    assert t[..4] == PutUint32(n) && t[4..] == rest;
    HeaderRoundTrip(n, t[..4]);
  }

  // A frame that stops early is rejected, wherever it stops.
  lemma StrictPrefixIsRejected(payload: Bytes, k: nat)
    requires |payload| <= MAX_MESSAGE_SIZE && k < |Frame(payload)|
    ensures ReadOne(Frame(payload)[..k]).0 == if k < 4 then ShortHeader else ShortBody
  {
    if k >= 4 {
      var s := Frame(payload)[..k];
      assert s[..4] == PutUint32(|payload|);
      HeaderRoundTrip(|payload|, s[..4]);
    }
  }

  // ---- Streams of frames ----------------------------------------------------

  predicate Sendable(payload: Bytes) { 0 < |payload| <= MAX_MESSAGE_SIZE }

  predicate AllSendable(payloads: seq<Bytes>) {
    forall i :: 0 <= i < |payloads| ==> Sendable(payloads[i])
  }

  function Frames(payloads: seq<Bytes>): Bytes
    requires AllSendable(payloads)
  {
    if payloads == [] then [] else Frame(payloads[0]) + Frames(payloads[1..])
  }

  // The messages read until the first failing read, and what that read saw.
  function ReadAll(s: Bytes): (seq<Bytes>, Bytes)
    decreases |s|
  {
    var (result, rest) := ReadOne(s);
    if result.Message? then
      var (more, end) := ReadAll(rest);
      ([result.payload] + more, end)
    else ([], s)
  }

  lemma AllSendableUnrolled(payloads: seq<Bytes>)
    requires payloads != []
    ensures AllSendable(payloads) <==> Sendable(payloads[0]) && AllSendable(payloads[1..])
  {
    assert forall i :: 0 < i < |payloads| ==> payloads[i] == payloads[1..][i - 1];
  }

  lemma {:induction false} FramesReadBack(payloads: seq<Bytes>, tail: Bytes)
    requires AllSendable(payloads) && !ReadOne(tail).0.Message?
    ensures ReadAll(Frames(payloads) + tail) == (payloads, tail)
    decreases |payloads|
  {
    var s := Frames(payloads) + tail;
    if payloads == [] {
      assert s == tail;
    } else {
      var rest := Frames(payloads[1..]) + tail;
      assert s == Frame(payloads[0]) + rest;
      ReadsExactlyFrames(s, payloads[0], rest);
      FramesReadBack(payloads[1..], tail);
      assert payloads == [payloads[0]] + payloads[1..];
    }
  }

  lemma {:induction false} ReadsOnlyFrames(s: Bytes)
    ensures
      var (payloads, tail) := ReadAll(s);
      AllSendable(payloads) && s == Frames(payloads) + tail && !ReadOne(tail).0.Message?
    decreases |s|
  {
    var (result, rest) := ReadOne(s);
    if result.Message? {
      ReadsExactlyFrames(s, result.payload, rest);
      ReadsOnlyFrames(rest);
      var (more, tail) := ReadAll(rest);
      assert ([result.payload] + more)[1..] == more;
      AllSendableUnrolled([result.payload] + more);
      assert s == Frame(result.payload) + (Frames(more) + tail);
    } else {
      assert s == Frames([]) + s;
    }
  }

  // Frames put together and followed by no further whole frame read back as the
  // payloads; and nothing else reads back as them.
  lemma FramesRoundTrip(payloads: seq<Bytes>, tail: Bytes, s: Bytes)
    requires !ReadOne(tail).0.Message?
    ensures ReadAll(s) == (payloads, tail) <==> AllSendable(payloads) && s == Frames(payloads) + tail
  {
    ReadsOnlyFrames(s);
    if AllSendable(payloads) { FramesReadBack(payloads, tail); }
  }

  // ---- The connection -------------------------------------------------------

  datatype WriteResult = Sent | TooLarge | WriteFailed

  // What of some writes arrives: all but the oversized ones.
  function Deliverable(payloads: seq<Bytes>): (r: seq<Bytes>)
    ensures (forall i :: 0 <= i < |payloads| ==> payloads[i] != []) ==> AllSendable(r)
  {
    if payloads == [] then []
    else
      var n := |payloads| - 1;
      var before := Deliverable(payloads[..n]);
      if |payloads[n]| > MAX_MESSAGE_SIZE then before else before + [payloads[n]]
  }

  // They are the payloads of at most 8 MiB, in the order they were written.
  lemma {:induction false} DeliverableExactly(payloads: seq<Bytes>) returns (at: seq<nat>)
    ensures Picks(at, payloads, Deliverable(payloads))
    ensures forall i :: 0 <= i < |payloads| ==> (i in at <==> |payloads[i]| <= 8 * 1024 * 1024)
  {
    at := [];
    if payloads != [] {
      var n := |payloads| - 1;
      var before := DeliverableExactly(payloads[..n]);
      assert payloads == payloads[..n] + [payloads[n]];
      PicksLater(before, payloads[..n], Deliverable(payloads[..n]), payloads[n]);
      at := if |payloads[n]| <= MAX_MESSAGE_SIZE then before + [n] else before;
    }
  }

  lemma {:induction false} FramesAppend(payloads: seq<Bytes>, p: Bytes)
    requires AllSendable(payloads) && Sendable(p)
    ensures AllSendable(payloads + [p]) && Frames(payloads + [p]) == Frames(payloads) + Frame(p)
  {
    if payloads == [] {
      assert [p][1..] == [];
    } else {
      FramesAppend(payloads[1..], p);
      assert (payloads + [p])[1..] == payloads[1..] + [p];
    }
  }

  class Conn {
    // Written and not yet read.
    var stream: Bytes

    constructor ()
      ensures stream == []
    {
      stream := [];
    }

    // room bounds the bytes the peer still takes before the connection breaks.
    method WriteMsg(data: Bytes, room: nat) returns (result: WriteResult)
      modifies this
      ensures result == TooLarge <==> |data| > 8 * 1024 * 1024
      ensures result == TooLarge ==> stream == old(stream)
      ensures |data| <= MAX_MESSAGE_SIZE ==>
        && (result == Sent <==> room >= 4 + |data|)
        && stream == old(stream) + if result == Sent then Frame(data) else Frame(data)[..room]
    {
      if |data| > MAX_MESSAGE_SIZE { return TooLarge; }
      var header := PutUint32(|data|);
      if room < 4 {
        stream := stream + header[..room];
        assert header[..room] == Frame(data)[..room];
        return WriteFailed;
      }
      stream := stream + header;
      if room - 4 < |data| {
        assert old(stream) + header + data[..room - 4] == old(stream) + Frame(data)[..room];
        stream := stream + data[..room - 4];
        return WriteFailed;
      }
      assert old(stream) + header + data == old(stream) + Frame(data);
      stream := stream + data;
      return Sent;
    }

    method ReadMsg() returns (result: ReadResult)
      modifies this
      ensures (result, stream) == ReadOne(old(stream))
    {
      if |stream| < 4 {
        stream := [];
        return ShortHeader;
      }
      var size := Uint32(stream[..4]);
      stream := stream[4..];
      if size == 0 { return ZeroLength; }
      if size > MAX_MESSAGE_SIZE { return MessageTooLarge(size); }
      if |stream| < size {
        stream := [];
        return ShortBody;
      }
      result := Message(stream[..size]);
      stream := stream[size..];
    }

    // Everything within the cap that was written on a healthy connection is
    // read back, in order, whatever was refused in between.
    method Exchange(payloads: seq<Bytes>, room: nat) returns (received: seq<Bytes>)
      requires stream == []
      requires forall i :: 0 <= i < |payloads| ==> payloads[i] != [] && |payloads[i]| + 4 <= room
      modifies this
      ensures received == Deliverable(payloads) && stream == []
    {
      for i := 0 to |payloads|
        invariant AllSendable(Deliverable(payloads[..i])) && stream == Frames(Deliverable(payloads[..i]))
      {
        assert payloads[..i + 1][..i] == payloads[..i];
        if |payloads[i]| <= MAX_MESSAGE_SIZE { FramesAppend(Deliverable(payloads[..i]), payloads[i]); }
        var _ := WriteMsg(payloads[i], room);
      }
      assert payloads[..|payloads|] == payloads;
      var all := Deliverable(payloads);
      assert all[0..] == all;
      received := [];
      for i := 0 to |all|
        invariant received == all[..i] && AllSendable(all[i..]) && stream == Frames(all[i..])
      {
        assert all[i..][0] == all[i] && all[i..][1..] == all[i + 1..];
        AllSendableUnrolled(all[i..]);
        ReadsExactlyFrames(stream, all[i], Frames(all[i + 1..]));
        var result := ReadMsg();
        received := received + [result.payload];
      }
    }
  }
}
