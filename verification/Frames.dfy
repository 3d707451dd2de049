/** HTTP/2 frames as values (lkh2/src/frame.rs). */
module Frames {
  import opened Wire

  datatype PrioritySpec = PrioritySpec(exclusive: bool, dependency: u32, weight: byte)

  datatype SettingsParameter = SettingsParameter(id: u16, value: u32)

  datatype H2Frame =
    | Data(streamId: u32, data: bytes, endStream: bool, padding: Option<byte>)
    | Headers(streamId: u32, headerBlock: bytes, endStream: bool, endHeaders: bool,
              priority: Option<PrioritySpec>, padding: Option<byte>)
    | Priority(streamId: u32, spec: PrioritySpec)
    | RstStream(streamId: u32, errorCode: u32)
    | Settings(ack: bool, settings: seq<SettingsParameter>)
    | PushPromise(streamId: u32, promisedStreamId: u32, headerBlock: bytes, endHeaders: bool,
                  padding: Option<byte>)
    | Ping(ack: bool, opaqueData: bytes)
    | GoAway(lastStreamId: u32, errorCode: u32, debugData: bytes)
    | WindowUpdate(streamId: u32, increment: u32)
    | Continuation(streamId: u32, headerBlock: bytes, endHeaders: bool)
    | Unknown(frameType: byte, streamId: u32, flags: byte, payload: bytes)

  const FRAME_HEADER_SIZE: nat := 9

  const END_STREAM: nat := 0x1
  const ACK: nat := 0x1
  const END_HEADERS: nat := 0x4
  const PADDED: nat := 0x8
  const PRIORITY: nat := 0x20

  /** `flags & bit != 0`, for a power-of-two `bit`. */
  predicate HasFlag(flags: byte, bit: nat)
    requires bit > 0
  {
    flags / bit % 2 == 1
  }

  /** The flag byte that `flags.set` builds from NONE; the four bits are distinct. */
  function FlagByte(endStreamOrAck: bool, endHeaders: bool, padded: bool, priority: bool): (f: byte)
    ensures HasFlag(f, END_STREAM) == HasFlag(f, ACK) == endStreamOrAck
    ensures HasFlag(f, END_HEADERS) == endHeaders
    ensures HasFlag(f, PADDED) == padded
    ensures HasFlag(f, PRIORITY) == priority
  {
    (if endStreamOrAck then 0x1 else 0) + (if endHeaders then 0x4 else 0)
    + (if padded then 0x8 else 0) + (if priority then 0x20 else 0)
  }

  datatype FrameHeader = FrameHeader(length: nat, typeCode: byte, flags: byte, streamId: u32)

  /** `H2FrameHeader::encode`: a length over 24 bits is truncated by the byte casts. */
  function EncodeHeader(h: FrameHeader): (s: bytes)
    ensures |s| == FRAME_HEADER_SIZE
  {
    [h.length / 0x1_0000 % 0x100, h.length / 0x100 % 0x100, h.length % 0x100, h.typeCode, h.flags]
    + BE32(h.streamId)
  }

  /** The nine header bytes read back; the reserved bit of the stream id is dropped. */
  function ParseHeader(s: bytes): (h: FrameHeader)
    requires |s| >= FRAME_HEADER_SIZE
    ensures h.length < 0x100_0000 && h.streamId < 0x8000_0000
  {
    FrameHeader(s[0] as int * 0x1_0000 + s[1] as int * 0x100 + s[2], s[3], s[4], Low31(ReadU32(s, 5)))
  }

  /** Header bytes round trip for every 24-bit length and 31-bit stream id. */
  lemma HeaderRoundTrip(h: FrameHeader, tail: bytes)
    requires h.length < 0x100_0000 && h.streamId < 0x8000_0000
    ensures ParseHeader(EncodeHeader(h) + tail) == h
  {
    var s := EncodeHeader(h) + tail;
    var first := s[..5];
    assert s == first + BE32(h.streamId) + tail;
    ReadBE32(first, h.streamId, tail);
    assert s[0] == h.length / 0x1_0000 % 0x100 && s[1] == h.length / 0x100 % 0x100 && s[2] == h.length % 0x100;
  }
}
