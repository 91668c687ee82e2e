/**
 Frames of the stream multiplexer: their byte format and the message each one stands for.
 A frame is a 4-byte big-endian stream id, one type byte and the payload.
 */
module Frames {
  import opened Basics

  const HEADER_LEN := 5
  const MAX_FRAME_PAYLOAD := 16384 - HEADER_LEN - 1
  const CRITICAL_BIT := 0x80

  // Type bytes the multiplexer emits or understands.
  const OPEN: byte := 2
  const DATA: byte := 3
  const CLOSE: byte := 4
  const DATAGRAM: byte := 5
  const PING: byte := 6
  const PONG: byte := 7
  const WINDOW_UPDATE: byte := 8

  datatype Frame = Frame(streamId: u32, ftype: byte, payload: Bytes)

  function Encode(f: Frame): Bytes {
    Be32(f.streamId) + [f.ftype] + f.payload
  }

  function Decode(buf: Bytes): Option<Frame> {
    if |buf| < HEADER_LEN then None
    else Some(Frame(FromBe32(buf), buf[4], buf[HEADER_LEN..]))
  }

  /** Every frame survives the wire, whatever its type byte and payload; and decoding
      refuses exactly the buffers that no frame encodes to. */
  lemma FrameRoundTrip(f: Frame, buf: Bytes)
    ensures Decode(Encode(f)) == Some(f)
    ensures Decode(buf).Some? <==> exists g :: Encode(g) == buf
    ensures Decode(buf).Some? ==> Encode(Decode(buf).value) == buf
  {
    Be32RoundTrip(f.streamId);
    if |buf| >= HEADER_LEN {
      var g := Frame(FromBe32(buf), buf[4], buf[HEADER_LEN..]);
      assert Be32(g.streamId) == buf[..4] by { Be32Surjective(buf); }
      assert Encode(g) == buf;
    } else {
      forall g ensures Encode(g) != buf { assert |Encode(g)| >= HEADER_LEN; }
    }
  }

  /** The bytes on the wire: the id, most significant byte first, the type, the payload. */
  lemma FrameLayout(f: Frame)
    ensures var b := Encode(f);
            && |b| == 5 + |f.payload|
            && f.streamId == (b[0] as int) * 16777216 + (b[1] as int) * 65536 + (b[2] as int) * 256 + b[3] as int
            && b[4] == f.ftype && b[5..] == f.payload
  {
    Be32RoundTrip(f.streamId);
    hide FromBe32;
    assert FromBe32(Encode(f)) == FromBe32(Be32(f.streamId)) by { BigEndian(Encode(f)); BigEndian(Be32(f.streamId)); }
    BigEndian(Encode(f));
  }

  lemma BigEndian(b: Bytes)
    requires |b| >= 4
    ensures FromBe32(b) == (b[0] as int) * 16777216 + (b[1] as int) * 65536 + (b[2] as int) * 256 + b[3] as int
  {
  }

  // --- what a frame means to the reader --------------------------------------------------

  datatype Message =
    | Open(target: Bytes)
    | Data(chunk: Bytes)
    | Credit(amount: u32)
    | Close
    | Ping
    | Pong
    | Ignored   // unknown or malformed, and not marked critical
    | Abort     // unknown and critical: the session must end

  function BaseType(ftype: byte): byte { ftype % CRITICAL_BIT }

  predicate IsCritical(ftype: byte) { ftype >= CRITICAL_BIT }

  /** The reader's dispatch on a frame's base type. A known type may carry the critical bit. */
  function Classify(f: Frame): Message {
    var bt := BaseType(f.ftype);
    if bt == PING then Ping
    else if bt == PONG then Pong
    else if bt == OPEN then Open(f.payload)
    else if bt == DATA || bt == DATAGRAM then Data(f.payload)
    else if bt == WINDOW_UPDATE then
      if |f.payload| >= 4 then Credit(FromBe32(f.payload)) else Ignored
    else if bt == CLOSE then Close
    else if IsCritical(f.ftype) then Abort
    else Ignored
  }

  function OpenFrame(id: u32, target: Bytes): Frame { Frame(id, OPEN, target) }
  function CloseFrame(id: u32): Frame { Frame(id, CLOSE, []) }
  function CreditFrame(id: u32, credit: u32): Frame { Frame(id, WINDOW_UPDATE, Be32(credit)) }

  lemma CreditFrameMeansItsCredit(id: u32, credit: u32)
    ensures Classify(CreditFrame(id, credit)) == Credit(credit)
  {
    Be32RoundTrip(credit);
  }
}
