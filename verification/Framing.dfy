// Message framing on the control pipe: what frame() writes (src/ipc/Protocol.cpp)
// and what the server's reader makes of the byte stream (src/ipc/PipeServer.cpp).

module Framing {

  newtype byte = b: int | 0 <= b < 256

  const MAGIC: nat := 0x41534C56
  const MAX_MESSAGE_BYTES: nat := 256 * 1024
  const HEADER_BYTES: nat := 8

  // An unsigned 32-bit number, low byte first.
  function LittleEndian(n: nat): (bytes: seq<byte>)
    requires n < 0x1_0000_0000
    ensures |bytes| == 4
  {
    [(n % 256) as byte, (n / 256 % 256) as byte, (n / 65536 % 256) as byte, (n / 16777216) as byte]
  }

  function FromLittleEndian(bytes: seq<byte>): nat
    requires |bytes| == 4
  {
    bytes[0] as nat + 256 * bytes[1] as nat + 65536 * bytes[2] as nat + 16777216 * bytes[3] as nat
  }

  lemma LittleEndianRoundTrip(n: nat)
    requires n < 0x1_0000_0000
    ensures FromLittleEndian(LittleEndian(n)) == n
  {
    var a, b, c := n / 256, n / 65536, n / 16777216;
    assert n == 256 * a + n % 256;
    assert a == 256 * b + a % 256;
    assert b == 256 * c + b % 256;
  }

  predicate Sendable(payload: seq<byte>) { 1 <= |payload| <= MAX_MESSAGE_BYTES }

  function Frame(payload: seq<byte>): seq<byte>
    requires |payload| < 0x1_0000_0000
  {
    LittleEndian(MAGIC) + LittleEndian(|payload|) + payload
  }

  function FrameAll(payloads: seq<seq<byte>>): seq<byte>
    requires forall i :: 0 <= i < |payloads| ==> Sendable(payloads[i])
  {
    if payloads == [] then [] else assert Sendable(payloads[0]); Frame(payloads[0]) + FrameAll(payloads[1..])
  }

  // The size a header announces, or 0 when the reader drops the client.
  function AnnouncedSize(header: seq<byte>): nat
    requires |header| == HEADER_BYTES
  {
    var size := FromLittleEndian(header[4..]);
    if FromLittleEndian(header[..4]) != MAGIC || size > MAX_MESSAGE_BYTES then 0 else size
  }

  // The payloads in a byte stream, up to the first header that is not one of
  // the protocol's or the first incomplete frame.
  function Deframe(stream: seq<byte>): seq<seq<byte>>
    decreases |stream|
  {
    if |stream| < HEADER_BYTES then []
    else
      var size := AnnouncedSize(stream[..HEADER_BYTES]);
      if size == 0 || |stream| < HEADER_BYTES + size then []
      else [stream[HEADER_BYTES..HEADER_BYTES + size]] + Deframe(stream[HEADER_BYTES + size..])
  }

  lemma FrameHeader(payload: seq<byte>, tail: seq<byte>)
    requires Sendable(payload)
    ensures var s := Frame(payload) + tail;
            && |s| == HEADER_BYTES + |payload| + |tail|
            && AnnouncedSize(s[..HEADER_BYTES]) == |payload|
            && s[HEADER_BYTES..HEADER_BYTES + |payload|] == payload
            && s[HEADER_BYTES + |payload|..] == tail
  {
    var s := Frame(payload) + tail;
    var header := s[..HEADER_BYTES];
    assert header[..4] == LittleEndian(MAGIC) && header[4..] == LittleEndian(|payload|);
    LittleEndianRoundTrip(MAGIC);
    LittleEndianRoundTrip(|payload|);
  }

  // The four bytes every frame begins with, and the number in the next four.
  predicate OurMagic(s: seq<byte>)
    requires |s| >= 8
  {
    s[0] == 0x56 && s[1] == 0x4C && s[2] == 0x53 && s[3] == 0x41
  }

  function SizeIn(s: seq<byte>): nat
    requires |s| >= 8
  {
    s[4] as nat + 256 * s[5] as nat + 65536 * s[6] as nat + 16777216 * s[7] as nat
  }

  // What a frame looks like, byte by byte.
  lemma FrameBytes(payload: seq<byte>)
    requires Sendable(payload)
    ensures var f := Frame(payload);
            |f| == 8 + |payload| && OurMagic(f) && SizeIn(f) == |payload| && f[8..] == payload
  {
    FrameHeader(payload, []);
    assert Frame(payload) + [] == Frame(payload);
    LittleEndianRoundTrip(|payload|);
    var f := Frame(payload);
    assert f[..4] == LittleEndian(MAGIC) && f[4..8] == LittleEndian(|payload|);
    assert forall i :: 0 <= i < 4 ==> f[i] == f[..4][i] && f[4 + i] == f[4..8][i];
    hide Frame;
  }

  // A stream holds a message exactly when it begins with those bytes and with
  // a size of 1 to 262144, and that many bytes follow.
  lemma HeaderDecides(stream: seq<byte>)
    ensures Deframe(stream) != [] <==>
            |stream| >= 8 && OurMagic(stream) && 1 <= SizeIn(stream) <= 262144 && |stream| >= 8 + SizeIn(stream)
    ensures Deframe(stream) != [] ==> Deframe(stream)[0] == stream[8..8 + SizeIn(stream)]
  {
    if |stream| >= 8 {
      var header := stream[..8];
      assert FromLittleEndian(header[4..]) == SizeIn(stream);
      MagicIs(header[..4]);
    }
  }

  lemma MagicIs(bytes: seq<byte>)
    requires |bytes| == 4
    ensures FromLittleEndian(bytes) == MAGIC <==>
            bytes[0] == 0x56 && bytes[1] == 0x4C && bytes[2] == 0x53 && bytes[3] == 0x41
  {
  }

  // Concatenated frames are taken apart into exactly the payloads sent,
  // whatever follows them.
  lemma {:induction false} DeframeFrames(payloads: seq<seq<byte>>, tail: seq<byte>)
    requires forall i :: 0 <= i < |payloads| ==> Sendable(payloads[i])
    ensures Deframe(FrameAll(payloads) + tail) == payloads + Deframe(tail)
  {
    hide AnnouncedSize, Frame;
    if payloads == [] {
      assert FrameAll(payloads) + tail == tail;
    } else {
      var rest := FrameAll(payloads[1..]) + tail;
      assert FrameAll(payloads) + tail == Frame(payloads[0]) + rest;
      FrameHeader(payloads[0], rest);
      DeframeFrames(payloads[1..], tail);
    }
  }

  // The server's end of the pipe. A read hands over at least one and at most
  // the requested number of the bytes that are there: how many is not known.
  class PipeReader {
    var unread: seq<byte>

    constructor (stream: seq<byte>)
      ensures unread == stream
    {
      unread := stream;
    }

    method ReadFile(bytes: nat) returns (got: seq<byte>)
      requires bytes > 0
      modifies this
      ensures got + unread == old(unread)
      ensures |got| <= bytes && (got == [] <==> old(unread) == [])
    {
      if unread == [] {
        return [];
      }
      var n :| 1 <= n <= |unread| && n <= bytes;
      got := unread[..n];
      unread := unread[n..];
    }

    // All the bytes asked for, or failure when the stream ends before.
    method ReadExact(bytes: nat) returns (ok: bool, data: seq<byte>)
      modifies this
      ensures ok <==> bytes <= |old(unread)|
      ensures ok ==> data == old(unread)[..bytes] && unread == old(unread)[bytes..]
    {
      data := [];
      var left: nat := bytes;
      while left > 0
        invariant left == bytes - |data|
        invariant data + unread == old(unread)
        decreases left
      {
        var got := ReadFile(left);
        if got == [] {
          return false, data;
        }
        data := data + got;
        left := left - |got|;
      }
      ok := true;
      assert |data| == bytes && data == (data + unread)[..bytes] && unread == (data + unread)[bytes..];
    }

    // One turn of the connection's loop: the next request, unless the stream
    // ends or is not the protocol's.
    method NextRequest() returns (ok: bool, payload: seq<byte>)
      modifies this
      ensures ok <==> Deframe(old(unread)) != []
      ensures ok ==> Deframe(old(unread)) == [payload] + Deframe(unread) && |unread| < |old(unread)|
    {
      payload := [];
      ghost var before := unread;
      DeframeStep(before);
      var header;
      ok, header := ReadExact(HEADER_BYTES);
      hide Deframe, FromLittleEndian;
      if !ok {
        return;
      }
      var magicIn, size := FromLittleEndian(header[..4]), FromLittleEndian(header[4..]);
      assert AnnouncedSize(header) == if magicIn != MAGIC || size > MAX_MESSAGE_BYTES then 0 else size;
      hide AnnouncedSize;
      if magicIn != MAGIC || size == 0 || size > MAX_MESSAGE_BYTES {
        return false, [];
      }
      ok, payload := ReadExact(size);
      assert ok ==> payload == before[HEADER_BYTES..HEADER_BYTES + size] && unread == before[HEADER_BYTES + size..];
    }

    // The connection's loop: one request after the other until the stream
    // ends or is not the protocol's.
    method Run() returns (requests: seq<seq<byte>>)
      modifies this
      ensures requests == Deframe(old(unread))
    {
      hide Deframe;
      requests := [];
      while true
        invariant requests + Deframe(unread) == Deframe(old(unread))
        decreases |unread|
      {
        ghost var before := unread;
        var ok, payload := NextRequest();
        if !ok {
          assert requests + Deframe(before) == requests;
          break;
        }
        assert requests + ([payload] + Deframe(unread)) == (requests + [payload]) + Deframe(unread);
        requests := requests + [payload];
      }
    }
  }

  // What the reader does with the first header.
  lemma DeframeStep(stream: seq<byte>)
    ensures |stream| < HEADER_BYTES ==> Deframe(stream) == []
    ensures |stream| >= HEADER_BYTES ==>
              var size := AnnouncedSize(stream[..HEADER_BYTES]);
              Deframe(stream)
              == if size == 0 || |stream| < HEADER_BYTES + size then []
                 else [stream[HEADER_BYTES..HEADER_BYTES + size]] + Deframe(stream[HEADER_BYTES + size..])
  {
    hide AnnouncedSize;
  }

  // However the pipe cuts the bytes up, the server is handed exactly the
  // payloads that were framed, in order.
  method Exchange(payloads: seq<seq<byte>>) returns (requests: seq<seq<byte>>)
    requires forall i :: 0 <= i < |payloads| ==> Sendable(payloads[i])
    ensures requests == payloads
  {
    var reader := new PipeReader(FrameAll(payloads));
    requests := reader.Run();
    DeframeFrames(payloads, []);
    assert FrameAll(payloads) + [] == FrameAll(payloads);
    assert payloads + [] == payloads;
  }
}
