// The wire format of the transport: every message is a 4-byte big-endian
// length followed by that many payload bytes. This module holds the length
// codec, the frame a send writes, and the frame a receive reads, as pure
// functions over byte sequences.
module Framing {
  import opened Models

  const TwoTo32: int := 0x1_0000_0000

  /** `encodeBE32`: `(value >> s) & 0xFF` for s = 24, 16, 8, 0; on a
      non-negative value the shift and mask are division by 2^s and the
      remainder modulo 256. */
  function EncodeBE32(value: uint32): (bytes: seq<byte>)
    ensures |bytes| == 4
    ensures bytes[0] == value / 0x100_0000
  {
    [(value / 0x100_0000) % 0x100,
     (value / 0x1_0000) % 0x100,
     (value / 0x100) % 0x100,
     value % 0x100]
  }

  /** `decodeBE32`: byte 0 shifted left by 24, byte 1 by 16, byte 2 by 8,
      or-ed with byte 3; the shifted bytes do not overlap, so the or is a sum. */
  function DecodeBE32(bytes: seq<byte>): (value: uint32)
    requires |bytes| == 4
    ensures value / 0x100_0000 == bytes[0]
    ensures value % 0x100 == bytes[3]
  {
    (bytes[0] as int) * 0x100_0000 + (bytes[1] as int) * 0x1_0000 + (bytes[2] as int) * 0x100 + bytes[3] as int
  }

  lemma DecodeEncode(n: uint32)
    ensures DecodeBE32(EncodeBE32(n)) == n
  {
    var b := EncodeBE32(n);
    DivModStep(n, 0x100);
    DivModStep(n / 0x100, 0x100);
    DivModStep(n / 0x1_0000, 0x100);
    assert n / 0x100 / 0x100 == n / 0x1_0000;
    assert n / 0x1_0000 / 0x100 == n / 0x100_0000;
  }

  lemma DivModStep(n: nat, d: nat)
    requires 0 < d
    ensures n == (n / d) * d + n % d
  {
  }

  lemma EncodeDecode(bytes: seq<byte>)
    requires |bytes| == 4
    ensures EncodeBE32(DecodeBE32(bytes)) == bytes
  {
    var n := DecodeBE32(bytes);
    var e := EncodeBE32(n);
    assert e[0] == bytes[0];
    assert n / 0x1_0000 == (bytes[0] as int) * 0x100 + bytes[1] as int;
    assert n / 0x100 == (bytes[0] as int) * 0x1_0000 + (bytes[1] as int) * 0x100 + bytes[2] as int;
  }

  /** The bytes `send` hands to the socket in one gather-write: the header
      carries `static_cast<uint32_t>(buffer.size())`, i.e. the size modulo
      2^32, followed by the whole buffer. */
  function Frame(payload: seq<byte>): (wire: seq<byte>)
    ensures |wire| == 4 + |payload|
    ensures wire[4..] == payload
  {
    EncodeBE32(|payload| % TwoTo32) + payload
  }

  /** Why a frame could not be read off a byte stream. */
  datatype ReadError = HeaderReadFailed | PayloadReadFailed

  /** The result of reading one frame: the payload or the error, and what
      is left of the stream afterwards. A read that runs out of bytes
      consumes everything that was available. */
  datatype FrameRead = FrameRead(payload: ReadResult, rest: seq<byte>)
  datatype ReadResult = Payload(bytes: seq<byte>) | ReadFailed(error: ReadError)

  /** `receive` on a byte stream: exactly 4 header bytes, then exactly L
      payload bytes where L is the decoded header; L = 0 gives an empty
      payload without a second read. */
  function ReadFrame(stream: seq<byte>): (r: FrameRead)
    ensures r.payload.Payload? ==>
      && |stream| == 4 + |r.payload.bytes| + |r.rest|
      && stream[4..4 + |r.payload.bytes|] == r.payload.bytes
      && r.rest == stream[|stream| - |r.rest|..]
    ensures r.payload.ReadFailed? ==> r.rest == []
  {
    if |stream| < 4 then FrameRead(ReadFailed(HeaderReadFailed), [])
    else
      var len := DecodeBE32(stream[..4]);
      if len == 0 then FrameRead(Payload([]), stream[4..])
      else if |stream| - 4 < len then FrameRead(ReadFailed(PayloadReadFailed), [])
      else FrameRead(Payload(stream[4..4 + len]), stream[4 + len..])
  }

  /** A successful read consumes exactly 4 + L bytes, and those bytes are
      the frame of the payload it returns. */
  lemma ReadFrameConsumesOneFrame(stream: seq<byte>)
    requires ReadFrame(stream).payload.Payload?
    ensures var r := ReadFrame(stream);
      && |r.payload.bytes| < TwoTo32
      && |stream| == 4 + |r.payload.bytes| + |r.rest|
      && stream == Frame(r.payload.bytes) + r.rest
  {
    var r := ReadFrame(stream);
    var p := r.payload.bytes;
    var len := DecodeBE32(stream[..4]);
    assert |p| == len;
    EncodeDecode(stream[..4]);
    assert stream == stream[..4] + p + r.rest;
  }

  /** A failed read yields an error, never a partial payload, and exactly
      when the stream is too short for the header or for the announced
      payload. */
  lemma ReadFrameFailsOnlyWhenShort(stream: seq<byte>)
    ensures ReadFrame(stream).payload == ReadFailed(HeaderReadFailed) <==> |stream| < 4
    ensures ReadFrame(stream).payload == ReadFailed(PayloadReadFailed) <==>
      4 <= |stream| && |stream| < 4 + DecodeBE32(stream[..4])
    ensures ReadFrame(stream).payload.ReadFailed? ==> ReadFrame(stream).rest == []
  {
  }

  /** Round trip: reading back what `send` wrote returns the buffer and
      leaves the bytes after it, the empty buffer included. */
  lemma {:induction false} ReadFrameOfFrame(payload: seq<byte>, rest: seq<byte>)
    requires |payload| < TwoTo32
    ensures ReadFrame(Frame(payload) + rest) == FrameRead(Payload(payload), rest)
  {
    var stream := Frame(payload) + rest;
    assert stream[..4] == EncodeBE32(|payload|);
    DecodeEncode(|payload|);
    assert stream[4..] == payload + rest;
    assert stream[4..4 + |payload|] == payload;
    assert stream[4 + |payload|..] == rest;
  }

  /** The bytes of several sends in a row: their frames, back to back. */
  function Frames(payloads: seq<seq<byte>>): (wire: seq<byte>)
  {
    if payloads == [] then [] else Frame(payloads[0]) + Frames(payloads[1..])
  }

  /** What `count` successive receives on one stream return, in order, and
      the stream left after the last of them. */
  datatype FrameReads = FrameReads(results: seq<ReadResult>, rest: seq<byte>)

  function ReadFrames(stream: seq<byte>, count: nat): (r: FrameReads)
    ensures |r.results| == count
    ensures count > 0 ==> r.results[0] == ReadFrame(stream).payload
    decreases count
  {
    if count == 0 then FrameReads([], stream)
    else
      var first := ReadFrame(stream);
      var more := ReadFrames(first.rest, count - 1);
      FrameReads([first.payload] + more.results, more.rest)
  }

  /** The framing keeps message boundaries: as many receives as there were
      sends return the sent buffers one by one, in order, and leave exactly
      the bytes that followed. */
  lemma {:induction false} ReadFramesOfFrames(payloads: seq<seq<byte>>, rest: seq<byte>)
    requires forall i :: 0 <= i < |payloads| ==> |payloads[i]| < TwoTo32
    ensures var r := ReadFrames(Frames(payloads) + rest, |payloads|);
      && r.rest == rest
      && forall i :: 0 <= i < |payloads| ==> r.results[i] == Payload(payloads[i])
  {
    if payloads == [] {
      assert Frames(payloads) + rest == rest;
    } else {
      var tail := payloads[1..];
      assert Frames(payloads) + rest == Frame(payloads[0]) + (Frames(tail) + rest);
      ReadFrameOfFrame(payloads[0], Frames(tail) + rest);
      ReadFramesOfFrames(tail, rest);
      var r := ReadFrames(Frames(payloads) + rest, |payloads|);
      var more := ReadFrames(Frames(tail) + rest, |tail|);
      assert r.results == [Payload(payloads[0])] + more.results;
      forall i | 0 <= i < |payloads|
        ensures r.results[i] == Payload(payloads[i])
      {
        if i > 0 {
          assert r.results[i] == more.results[i - 1];
          assert payloads[i] == tail[i - 1];
        }
      }
    }
  }

  /** The truncating cast: a buffer of 2^32 bytes or more is announced with a
      shorter length, so its frame does not read back as that buffer. */
  lemma OversizedFrameDoesNotRoundTrip(payload: seq<byte>)
    requires |payload| >= TwoTo32
    ensures ReadFrame(Frame(payload)).payload != Payload(payload)
  {
    var stream := Frame(payload);
    assert stream[..4] == EncodeBE32(|payload| % TwoTo32);
    DecodeEncode(|payload| % TwoTo32);
  }
}
