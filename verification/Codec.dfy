/** The frame codec (lkh2/src/codec.rs): encoder, incremental decoder, and the laws between them. */
module Codec {
  import opened Wire
  import opened Frames

  const MIN_MAX_FRAME_SIZE: nat := 16384
  const MAX_FRAME_SIZE_LIMIT: nat := 16_777_215

  // ---- Encoding -------------------------------------------------------------------------------

  function TypeCode(f: H2Frame): byte {
    match f
    case Data(_, _, _, _) => 0
    case Headers(_, _, _, _, _, _) => 1
    case Priority(_, _) => 2
    case RstStream(_, _) => 3
    case Settings(_, _) => 4
    case PushPromise(_, _, _, _, _) => 5
    case Ping(_, _) => 6
    case GoAway(_, _, _) => 7
    case WindowUpdate(_, _) => 8
    case Continuation(_, _, _) => 9
    case Unknown(t, _, _, _) => if t <= 9 then t else 0
  }

  function FlagsOf(f: H2Frame): byte {
    match f
    case Data(_, _, endStream, padding) => FlagByte(endStream, false, padding.Some?, false)
    case Headers(_, _, endStream, endHeaders, priority, padding) =>
      FlagByte(endStream, endHeaders, padding.Some?, priority.Some?)
    case Settings(ack, _) => FlagByte(ack, false, false, false)
    case PushPromise(_, _, _, endHeaders, padding) => FlagByte(false, endHeaders, padding.Some?, false)
    case Ping(ack, _) => FlagByte(ack, false, false, false)
    case Continuation(_, _, endHeaders) => FlagByte(false, endHeaders, false, false)
    case Unknown(_, _, flags, _) => flags
    case _ => FlagByte(false, false, false, false)
  }

  /** `H2FrameHeader::new` masks the stream id; the Unknown arm builds its header without it. */
  function WireStreamId(f: H2Frame): u32 {
    match f
    case Settings(_, _) => 0
    case Ping(_, _) => 0
    case GoAway(_, _, _) => 0
    case Unknown(_, sid, _, _) => sid
    case _ => Low31(f.streamId)
  }

  function PadLen(padding: Option<byte>): nat {
    match padding case None => 0 case Some(n) => n
  }

  function PadLengthByte(padding: Option<byte>): bytes {
    match padding case None => [] case Some(n) => [n]
  }

  function PriorityBytes(spec: PrioritySpec): (s: bytes)
    ensures |s| == 5
  {
    var dep := if spec.exclusive && spec.dependency < 0x8000_0000 then spec.dependency + 0x8000_0000
               else spec.dependency;
    BE32(dep) + [spec.weight]
  }

  function PriorityField(priority: Option<PrioritySpec>): bytes {
    match priority case None => [] case Some(spec) => PriorityBytes(spec)
  }

  function SettingsBytes(settings: seq<SettingsParameter>): bytes {
    if settings == [] then []
    else BE16(settings[0].id) + BE32(settings[0].value) + SettingsBytes(settings[1..])
  }

  /** The `payload_len` each `encode_*` writes into the header. */
  function PayloadLen(f: H2Frame): nat {
    match f
    case Data(_, data, _, padding) => (if padding.Some? then 1 else 0) + |data| + PadLen(padding)
    case Headers(_, block, _, _, priority, padding) =>
      (if padding.Some? then 1 else 0) + (if priority.Some? then 5 else 0) + |block| + PadLen(padding)
    case Priority(_, _) => 5
    case RstStream(_, _) => 4
    case Settings(ack, settings) => if ack then 0 else |settings| * 6
    case PushPromise(_, _, block, _, padding) => (if padding.Some? then 1 else 0) + 4 + |block| + PadLen(padding)
    case Ping(_, _) => 8
    case GoAway(_, _, debugData) => 8 + |debugData|
    case WindowUpdate(_, _) => 4
    case Continuation(_, block, _) => |block|
    case Unknown(_, _, _, payload) => |payload|
  }

  /** The bytes each `encode_*` appends after the header. */
  function Payload(f: H2Frame): bytes {
    match f
    case Data(_, data, _, padding) => PadLengthByte(padding) + data + Zeros(PadLen(padding))
    case Headers(_, block, _, _, priority, padding) =>
      PadLengthByte(padding) + PriorityField(priority) + block + Zeros(PadLen(padding))
    case Priority(_, spec) => PriorityBytes(spec)
    case RstStream(_, code) => BE32(code)
    case Settings(ack, settings) => if ack then [] else SettingsBytes(settings)
    case PushPromise(_, promised, block, _, padding) =>
      PadLengthByte(padding) + BE32(promised) + block + Zeros(PadLen(padding))
    case Ping(_, data) => data
    case GoAway(last, code, debugData) => BE32(last) + BE32(code) + debugData
    case WindowUpdate(_, increment) => BE32(increment)
    case Continuation(_, block, _) => block
    case Unknown(_, _, _, payload) => payload
  }

  function HeaderOf(f: H2Frame): FrameHeader {
    FrameHeader(PayloadLen(f), TypeCode(f), FlagsOf(f), WireStreamId(f))
  }

  function Encode(f: H2Frame): (s: bytes)
    ensures |s| >= FRAME_HEADER_SIZE
  {
    EncodeHeader(HeaderOf(f)) + Payload(f)
  }

  function EncodeAll(fs: seq<H2Frame>): bytes {
    if fs == [] then [] else Encode(fs[0]) + EncodeAll(fs[1..])
  }

  lemma EncodeAllFrom(fs: seq<H2Frame>, i: nat)
    requires i < |fs|
    ensures EncodeAll(fs[i..]) == Encode(fs[i]) + EncodeAll(fs[i + 1..])
  {
    assert fs[i..][1..] == fs[i + 1..];
  }

  // ---- Decoding -------------------------------------------------------------------------------

  datatype FormatFault =
    | ZeroStreamId | NonZeroStreamId | MissingPadLength | PaddingTooLarge | MissingPriority
    | MissingPromisedId | WrongLength | AckWithPayload

  datatype CodecError = InvalidFormat(fault: FormatFault) | TooLarge(size: nat, max: nat)

  datatype PayloadResult = Good(frame: H2Frame) | Bad(fault: FormatFault)

  /** `decode` returns a frame, asks for bytes, or fails; `rest` is what it leaves in the buffer. */
  datatype DecodeResult =
    | Frame(frame: H2Frame, rest: bytes)
    | NeedMoreData(minBytes: nat)
    | Error(error: CodecError, rest: bytes)

  function ReadPriority(p: bytes, at: nat): PrioritySpec
    requires at + 5 <= |p|
  {
    var dep := ReadU32(p, at);
    PrioritySpec(dep >= 0x8000_0000, Low31(dep), p[at + 4])
  }

  function ParseSettings(p: bytes): (settings: seq<SettingsParameter>)
    requires |p| % 6 == 0
    ensures |settings| * 6 == |p|
  {
    if p == [] then []
    else [SettingsParameter(ReadU16(p, 0), ReadU32(p, 2))] + ParseSettings(p[6..])
  }

  /** `decode_data`. */
  function DecodeData(h: FrameHeader, p: bytes): PayloadResult {
    if h.streamId == 0 then Bad(ZeroStreamId)
    else if !HasFlag(h.flags, PADDED) then Good(Data(h.streamId, p, HasFlag(h.flags, END_STREAM), None))
    else if p == [] then Bad(MissingPadLength)
    else if p[0] >= |p| then Bad(PaddingTooLarge)
    else Good(Data(h.streamId, p[1..|p| - p[0]], HasFlag(h.flags, END_STREAM), Some(p[0])))
  }

  /** `decode_headers`. */
  function DecodeHeaders(h: FrameHeader, p: bytes): PayloadResult {
    if h.streamId == 0 then Bad(ZeroStreamId)
    else if HasFlag(h.flags, PADDED) && p == [] then Bad(MissingPadLength)
    else
      var padding := if HasFlag(h.flags, PADDED) then Some(p[0]) else None;
      var at := if padding.Some? then 1 else 0;
      if HasFlag(h.flags, PRIORITY) && |p| < at + 5 then Bad(MissingPriority)
      else
        var priority := if HasFlag(h.flags, PRIORITY) then Some(ReadPriority(p, at)) else None;
        var start := if priority.Some? then at + 5 else at;
        if start + PadLen(padding) > |p| then Bad(PaddingTooLarge)
        else Good(Headers(h.streamId, p[start..|p| - PadLen(padding)], HasFlag(h.flags, END_STREAM),
                          HasFlag(h.flags, END_HEADERS), priority, padding))
  }

  /** `decode_push_promise`. */
  function DecodePushPromise(h: FrameHeader, p: bytes): PayloadResult {
    if h.streamId == 0 then Bad(ZeroStreamId)
    else if HasFlag(h.flags, PADDED) && p == [] then Bad(MissingPadLength)
    else
      var padding := if HasFlag(h.flags, PADDED) then Some(p[0]) else None;
      var at := if padding.Some? then 1 else 0;
      if |p| < at + 4 then Bad(MissingPromisedId)
      else if at + 4 + PadLen(padding) > |p| then Bad(PaddingTooLarge)
      else Good(PushPromise(h.streamId, Low31(ReadU32(p, at)), p[at + 4..|p| - PadLen(padding)],
                            HasFlag(h.flags, END_HEADERS), padding))
  }

  /** `decode_settings`. */
  function DecodeSettings(h: FrameHeader, p: bytes): PayloadResult {
    if h.streamId != 0 then Bad(NonZeroStreamId)
    else if HasFlag(h.flags, ACK) && p != [] then Bad(AckWithPayload)
    else if |p| % 6 != 0 then Bad(WrongLength)
    else Good(Settings(HasFlag(h.flags, ACK), ParseSettings(p)))
  }

  /** The loop of `decode_settings` over a payload whose length is a multiple of six. */
  method ReadSettings(p: bytes) returns (settings: seq<SettingsParameter>)
    requires |p| % 6 == 0
    ensures settings == ParseSettings(p)
  {
    settings := [];
    var offset := 0;
    while offset < |p|
      invariant 0 <= offset <= |p| && offset % 6 == 0
      invariant settings + ParseSettings(p[offset..]) == ParseSettings(p)
    {
      assert p[offset..][6..] == p[offset + 6..];
      settings := settings + [SettingsParameter(ReadU16(p, offset), ReadU32(p, offset + 2))];
      offset := offset + 6;
    }
  }

  /** The `match header.frame_type` of `decode`. */
  function DecodePayload(h: FrameHeader, p: bytes): PayloadResult
    requires h.typeCode <= 9
  {
    if h.typeCode == 0 then DecodeData(h, p)
    else if h.typeCode == 1 then DecodeHeaders(h, p)
    else if h.typeCode == 4 then DecodeSettings(h, p)
    else if h.typeCode == 5 then DecodePushPromise(h, p)
    else if h.typeCode == 2 then
      if h.streamId == 0 then Bad(ZeroStreamId)
      else if |p| != 5 then Bad(WrongLength)
      else Good(Priority(h.streamId, ReadPriority(p, 0)))
    else if h.typeCode == 3 then
      if h.streamId == 0 then Bad(ZeroStreamId)
      else if |p| != 4 then Bad(WrongLength)
      else Good(RstStream(h.streamId, ReadU32(p, 0)))
    else if h.typeCode == 6 then
      if h.streamId != 0 then Bad(NonZeroStreamId)
      else if |p| != 8 then Bad(WrongLength)
      else Good(Ping(HasFlag(h.flags, ACK), p))
    else if h.typeCode == 7 then
      if h.streamId != 0 then Bad(NonZeroStreamId)
      else if |p| < 8 then Bad(WrongLength)
      else Good(GoAway(Low31(ReadU32(p, 0)), ReadU32(p, 4), p[8..]))
    else if h.typeCode == 8 then
      if |p| != 4 then Bad(WrongLength)
      else Good(WindowUpdate(h.streamId, Low31(ReadU32(p, 0))))
    else
      if h.streamId == 0 then Bad(ZeroStreamId)
      else Good(Continuation(h.streamId, p, HasFlag(h.flags, END_HEADERS)))
  }

  /** `H2Codec::decode`: one attempt on the buffer. */
  function Decode(max: nat, buf: bytes): DecodeResult {
    if |buf| < FRAME_HEADER_SIZE then NeedMoreData(FRAME_HEADER_SIZE - |buf|)
    else
      var h := ParseHeader(buf);
      var total := FRAME_HEADER_SIZE + h.length;
      if h.typeCode > 9 then
        if |buf| < total then NeedMoreData(total - |buf|)
        else Frame(Unknown(h.typeCode, h.streamId, h.flags, []), buf[total..])
      else if h.length > max then Error(TooLarge(h.length, max), buf)
      else if |buf| < total then NeedMoreData(total - |buf|)
      else
        match DecodePayload(h, buf[FRAME_HEADER_SIZE..total])
        case Good(f) => Frame(f, buf[total..])
        case Bad(fault) => Error(InvalidFormat(fault), buf[total..])
  }

  // ---- Round trip -----------------------------------------------------------------------------

  predicate WellFormedSpec(spec: PrioritySpec) {
    spec.dependency < 0x8000_0000
  }

  /** The frames a peer may put on the wire: 31-bit ids in the fields that hold 31 bits, stream
      frames on a stream, connection frames on stream zero, and no parameters on an ACK. */
  predicate WellFormed(f: H2Frame) {
    match f
    case Data(sid, _, _, _) => 0 < sid < 0x8000_0000
    case Headers(sid, _, _, _, priority, _) =>
      0 < sid < 0x8000_0000 && (priority.Some? ==> WellFormedSpec(priority.value))
    case Priority(sid, spec) => 0 < sid < 0x8000_0000 && WellFormedSpec(spec)
    case RstStream(sid, _) => 0 < sid < 0x8000_0000
    case Settings(ack, settings) => ack ==> settings == []
    case PushPromise(sid, promised, _, _, _) => 0 < sid < 0x8000_0000 && promised < 0x8000_0000
    case Ping(_, data) => |data| == 8
    case GoAway(last, _, _) => last < 0x8000_0000
    case WindowUpdate(sid, increment) => sid < 0x8000_0000 && increment < 0x8000_0000
    case Continuation(sid, _, _) => 0 < sid < 0x8000_0000
    case Unknown(_, _, _, _) => false
  }

  lemma {:induction false} SettingsRoundTrip(settings: seq<SettingsParameter>)
    ensures |SettingsBytes(settings)| == 6 * |settings|
    ensures ParseSettings(SettingsBytes(settings)) == settings
  {
    if settings != [] {
      var s, tail := settings[0], SettingsBytes(settings[1..]);
      SettingsRoundTrip(settings[1..]);
      var p := SettingsBytes(settings);
      assert p == [] + BE16(s.id) + (BE32(s.value) + tail);
      ReadBE16([], s.id, BE32(s.value) + tail);
      assert p == BE16(s.id) + BE32(s.value) + tail;
      ReadBE32(BE16(s.id), s.value, tail);
      assert p[6..] == tail;
    }
  }

  /** The length each encoder writes is the number of bytes it appends. */
  lemma PayloadLenIsLength(f: H2Frame)
    requires WellFormed(f)
    ensures |Payload(f)| == PayloadLen(f)
  {
    if f.Settings? {
      SettingsRoundTrip(f.settings);
    }
  }

  lemma ReadPriorityBytes(pre: bytes, spec: PrioritySpec, post: bytes)
    requires WellFormedSpec(spec)
    ensures ReadPriority(pre + PriorityBytes(spec) + post, |pre|) == spec
  {
    var dep := if spec.exclusive then spec.dependency + 0x8000_0000 else spec.dependency;
    var p := pre + PriorityBytes(spec) + post;
    assert p == pre + BE32(dep) + ([spec.weight] + post);
    ReadBE32(pre, dep, [spec.weight] + post);
  }

  lemma DataRoundTrip(f: H2Frame)
    requires f.Data? && WellFormed(f)
    ensures DecodePayload(HeaderOf(f), Payload(f)) == Good(f)
  {
    var p := Payload(f);
    if f.padding.Some? {
      assert p[1..|p| - p[0]] == f.data;
    } else {
      assert p == f.data;
    }
  }

  lemma HeadersRoundTrip(f: H2Frame)
    requires f.Headers? && WellFormed(f)
    ensures DecodePayload(HeaderOf(f), Payload(f)) == Good(f)
  {
    var p := Payload(f);
    var pre := PadLengthByte(f.padding);
    var post := f.headerBlock + Zeros(PadLen(f.padding));
    assert p == pre + PriorityField(f.priority) + post;
    if f.priority.Some? {
      ReadPriorityBytes(pre, f.priority.value, post);
    }
    var start := |pre| + |PriorityField(f.priority)|;
    assert p[start..|p| - PadLen(f.padding)] == f.headerBlock;
  }

  lemma PushPromiseRoundTrip(f: H2Frame)
    requires f.PushPromise? && WellFormed(f)
    ensures DecodePayload(HeaderOf(f), Payload(f)) == Good(f)
  {
    var p := Payload(f);
    var pre := PadLengthByte(f.padding);
    var post := f.headerBlock + Zeros(PadLen(f.padding));
    assert p == pre + BE32(f.promisedStreamId) + post;
    ReadBE32(pre, f.promisedStreamId, post);
    assert p[|pre| + 4..|p| - PadLen(f.padding)] == f.headerBlock;
  }

  lemma GoAwayRoundTrip(f: H2Frame)
    requires f.GoAway? && WellFormed(f)
    ensures DecodePayload(HeaderOf(f), Payload(f)) == Good(f)
  {
    var last, code := BE32(f.lastStreamId), BE32(f.errorCode);
    var p := Payload(f);
    assert p == [] + last + (code + f.debugData);
    ReadBE32([], f.lastStreamId, code + f.debugData);
    ReadBE32(last, f.errorCode, f.debugData);
    assert p[8..] == f.debugData;
  }

  lemma PriorityRoundTrip(f: H2Frame)
    requires f.Priority? && WellFormed(f)
    ensures DecodePayload(HeaderOf(f), Payload(f)) == Good(f)
  {
    ReadPriorityBytes([], f.spec, []);
    assert Payload(f) == [] + PriorityBytes(f.spec) + [];
  }

  lemma RstStreamRoundTrip(f: H2Frame)
    requires f.RstStream? && WellFormed(f)
    ensures DecodePayload(HeaderOf(f), Payload(f)) == Good(f)
  {
    ReadWord(f.errorCode);
  }

  lemma WindowUpdateRoundTrip(f: H2Frame)
    requires f.WindowUpdate? && WellFormed(f)
    ensures DecodePayload(HeaderOf(f), Payload(f)) == Good(f)
  {
    ReadWord(f.increment);
  }

  /** Every payload decodes to the frame that was encoded, for all ten frame types. */
  lemma PayloadRoundTrip(f: H2Frame)
    requires WellFormed(f)
    ensures DecodePayload(HeaderOf(f), Payload(f)) == Good(f)
  {
    match f
    case Data(_, _, _, _) => DataRoundTrip(f);
    case Headers(_, _, _, _, _, _) => HeadersRoundTrip(f);
    case PushPromise(_, _, _, _, _) => PushPromiseRoundTrip(f);
    case Settings(_, settings) => SettingsRoundTrip(settings);
    case Priority(_, _) => PriorityRoundTrip(f);
    case RstStream(_, _) => RstStreamRoundTrip(f);
    case GoAway(_, _, _) => GoAwayRoundTrip(f);
    case WindowUpdate(_, _) => WindowUpdateRoundTrip(f);
    case Ping(_, _) =>
    case Continuation(_, _, _) =>
  }

  /** One encoded frame followed by any bytes decodes to that frame and leaves those bytes. */
  lemma RoundTrip(max: nat, f: H2Frame, suffix: bytes)
    requires WellFormed(f) && PayloadLen(f) <= max <= MAX_FRAME_SIZE_LIMIT
    ensures Decode(max, Encode(f) + suffix) == Frame(f, suffix)
  {
    var buf := Encode(f) + suffix;
    var total := FRAME_HEADER_SIZE + PayloadLen(f);
    PayloadLenIsLength(f);
    assert buf == EncodeHeader(HeaderOf(f)) + (Payload(f) + suffix);
    HeaderRoundTrip(HeaderOf(f), Payload(f) + suffix);
    assert buf[FRAME_HEADER_SIZE..total] == Payload(f);
    assert buf[total..] == suffix;
    PayloadRoundTrip(f);
  }

  /** What `process` extracts from one buffer: the frames up to the first error, that error, and
      the bytes that stay in the buffer. */
  datatype Scan = Scan(frames: seq<H2Frame>, error: Option<CodecError>, rest: bytes)

  function Prepend(fs: seq<H2Frame>, s: Scan): Scan {
    Scan(fs + s.frames, s.error, s.rest)
  }

  type Decoder = bytes -> DecodeResult

  /** The loop of `process` around any decoder that takes bytes out with every frame. */
  function ScanAll(d: Decoder, buf: bytes): Scan
    decreases |buf|
  {
    match d(buf)
    case NeedMoreData(_) => Scan([], None, buf)
    case Error(e, rest) => Scan([], Some(e), rest)
    case Frame(f, rest) => if |rest| < |buf| then Prepend([f], ScanAll(d, rest)) else Scan([f], None, rest)
  }

  function DecoderFor(max: nat): Decoder {
    (buf: bytes) => Decode(max, buf)
  }

  function DecodeAll(max: nat, buf: bytes): Scan {
    ScanAll(DecoderFor(max), buf)
  }

  predicate Fits(max: nat, f: H2Frame) {
    WellFormed(f) && PayloadLen(f) <= max
  }

  /** `e` is how `f` looks to the decoder, whatever comes behind it. */
  ghost predicate Denotes(d: Decoder, e: bytes, f: H2Frame) {
    e != [] && forall more: bytes :: d(e + more) == Frame(f, more)
  }

  lemma ScanStep(d: Decoder, e: bytes, f: H2Frame, tail: bytes, fs: seq<H2Frame>, suffix: bytes)
    requires Denotes(d, e, f) && ScanAll(d, tail + suffix) == Prepend(fs, ScanAll(d, suffix))
    ensures ScanAll(d, (e + tail) + suffix) == Prepend([f] + fs, ScanAll(d, suffix))
  {
    Assoc(e, tail, suffix);
    assert d(e + (tail + suffix)) == Frame(f, tail + suffix);
    Assoc([f], fs, ScanAll(d, suffix).frames);
  }

  lemma {:induction false} ScanList(d: Decoder, fs: seq<H2Frame>, suffix: bytes)
    requires forall i :: 0 <= i < |fs| ==> Denotes(d, Encode(fs[i]), fs[i])
    ensures ScanAll(d, EncodeAll(fs) + suffix) == Prepend(fs, ScanAll(d, suffix))
  {
    if fs == [] {
      assert EncodeAll(fs) + suffix == suffix;
    } else {
      ScanList(d, fs[1..], suffix);
      ScanStep(d, Encode(fs[0]), fs[0], EncodeAll(fs[1..]), fs[1..], suffix);
      assert [fs[0]] + fs[1..] == fs;
    }
  }

  /** Decoding a list of encoded frames followed by anything yields the list, then whatever the
      rest of the input yields on its own. */
  lemma ListRoundTrip(max: nat, fs: seq<H2Frame>, suffix: bytes)
    requires max <= MAX_FRAME_SIZE_LIMIT
    requires forall i :: 0 <= i < |fs| ==> Fits(max, fs[i])
    ensures DecodeAll(max, EncodeAll(fs) + suffix) == Prepend(fs, DecodeAll(max, suffix))
  {
    var d := DecoderFor(max);
    forall i | 0 <= i < |fs|
      ensures Denotes(d, Encode(fs[i]), fs[i])
    {
      forall more: bytes
        ensures d(Encode(fs[i]) + more) == Frame(fs[i], more)
      {
        RoundTrip(max, fs[i], more);
      }
    }
    ScanList(d, fs, suffix);
  }

  lemma DecodedFits(max: nat, buf: bytes)
    requires Decode(max, buf).Frame? && !Decode(max, buf).frame.Unknown?
    ensures Fits(max, Decode(max, buf).frame)
  {
  }

  /** A known frame comes out of the decoder for some input exactly when it is well formed and
      within the size cap. */
  lemma DecoderImage(max: nat, f: H2Frame)
    requires max <= MAX_FRAME_SIZE_LIMIT && !f.Unknown?
    ensures (exists buf: bytes :: Decode(max, buf).Frame? && Decode(max, buf).frame == f) <==> Fits(max, f)
  {
    if buf: bytes :| Decode(max, buf).Frame? && Decode(max, buf).frame == f {
      DecodedFits(max, buf);
    }
    if Fits(max, f) {
      RoundTrip(max, f, []);
    }
  }

  lemma PayloadTaken(h: FrameHeader, p: bytes)
    requires h.typeCode <= 9 && DecodePayload(h, p).Good?
    ensures PayloadLen(DecodePayload(h, p).frame) == |p|
  {
  }

  /** A frame is taken off the wire with exactly as many bytes as its encoding has, so no payload of a wrong
      length passes for one: padding and priority fields are all accounted for. */
  lemma DecodedLength(max: nat, buf: bytes)
    requires Decode(max, buf).Frame? && !Decode(max, buf).frame.Unknown?
    ensures |buf| == |Encode(Decode(max, buf).frame)| + |Decode(max, buf).rest|
  {
    var h := ParseHeader(buf);
    PayloadTaken(h, buf[FRAME_HEADER_SIZE..FRAME_HEADER_SIZE + h.length]);
    DecodedFits(max, buf);
    PayloadLenIsLength(Decode(max, buf).frame);
  }

  /** A request for more bytes is exact: so many complete the header, or the frame. */
  lemma NeedIsExact(max: nat, buf: bytes, more: bytes)
    requires Decode(max, buf).NeedMoreData? && |more| == Decode(max, buf).minBytes
    ensures if |buf| < 9 then |buf| + |more| == 9 else !Decode(max, buf + more).NeedMoreData?
  {
    if |buf| >= FRAME_HEADER_SIZE {
      assert ParseHeader(buf + more) == ParseHeader(buf);
    }
  }

  /** A frame of unknown type is skipped whole, whatever its size. */
  lemma UnknownSkipped(max: nat, h: FrameHeader, p: bytes, suffix: bytes)
    requires 9 < h.typeCode && |p| == h.length < 0x100_0000 && h.streamId < 0x8000_0000
    ensures Decode(max, EncodeHeader(h) + p + suffix) == Frame(Unknown(h.typeCode, h.streamId, h.flags, []), suffix)
  {
    var buf := EncodeHeader(h) + p + suffix;
    assert buf == EncodeHeader(h) + (p + suffix);
    HeaderRoundTrip(h, p + suffix);
    assert buf[9 + h.length..] == suffix;
  }

  // ---- Octets -----------------------------------------------------------------------------------

  /** The number in four octets, most significant first. */
  function Octets(s: bytes, at: nat): nat
    requires at + 4 <= |s|
  {
    s[at] as int * 16777216 + s[at + 1] as int * 65536 + s[at + 2] as int * 256 + s[at + 3]
  }

  lemma WordOctets(v: u32)
    ensures Octets(BE32(v), 0) == v
  {
    var high, low := v / 0x1_0000, v % 0x1_0000;
    assert high / 0x100 * 0x100 + high % 0x100 == high;
    assert low / 0x100 * 0x100 + low % 0x100 == low;
  }

  lemma OctetsAt(pre: bytes, v: u32, post: bytes)
    ensures Octets(pre + BE32(v) + post, |pre|) == v
  {
    var s := pre + BE32(v) + post;
    WordOctets(v);
    assert s[|pre|] == BE32(v)[0] && s[|pre| + 1] == BE32(v)[1] && s[|pre| + 2] == BE32(v)[2] && s[|pre| + 3] == BE32(v)[3];
  }

  /** The type and the flags of each frame, as section 6 of RFC 7540 numbers them. */
  function KindAndFlags(f: H2Frame): (nat, nat)
    requires !f.Unknown?
  {
    match f
    case Data(_, _, end, pad) => (0, (if end then 1 else 0) + if pad.Some? then 8 else 0)
    case Headers(_, _, end, last, prio, pad) =>
      (1, (if end then 1 else 0) + (if last then 4 else 0) + (if pad.Some? then 8 else 0) + if prio.Some? then 32 else 0)
    case Priority(_, _) => (2, 0)
    case RstStream(_, _) => (3, 0)
    case Settings(ack, _) => (4, if ack then 1 else 0)
    case PushPromise(_, _, _, last, pad) => (5, (if last then 4 else 0) + if pad.Some? then 8 else 0)
    case Ping(ack, _) => (6, if ack then 1 else 0)
    case GoAway(_, _, _) => (7, 0)
    case WindowUpdate(_, _) => (8, 0)
    case Continuation(_, _, last) => (9, if last then 4 else 0)
  }

  lemma HeaderOctets(h: FrameHeader, p: bytes)
    requires h.length < 0x100_0000
    ensures var s := EncodeHeader(h) + p;
            && s[0] as int * 65536 + s[1] as int * 256 + s[2] == h.length && s[3] == h.typeCode && s[4] == h.flags
            && Octets(s, 5) == h.streamId
  {
    var first := EncodeHeader(h)[..5];
    assert EncodeHeader(h) + p == first + BE32(h.streamId) + p;
    OctetsAt(first, h.streamId, p);
    assert h.length / 0x1_0000 % 0x100 == h.length / 0x1_0000;
  }

  lemma KindsMatch(f: H2Frame)
    requires WellFormed(f)
    ensures (HeaderOf(f).typeCode, HeaderOf(f).flags) == KindAndFlags(f)
    ensures HeaderOf(f).streamId == if f.Settings? || f.Ping? || f.GoAway? then 0 else f.streamId
  {
  }

  /** The frame header of section 4.1 of RFC 7540: 24 bits of length, type, flags, 31 bits of stream id. */
  lemma HeaderOnTheWire(f: H2Frame)
    requires WellFormed(f) && PayloadLen(f) < 0x100_0000
    ensures var s := Encode(f);
            && s[0] as int * 65536 + s[1] as int * 256 + s[2] == |s| - 9
            && (s[3], s[4]) == KindAndFlags(f)
            && Octets(s, 5) == if f.Settings? || f.Ping? || f.GoAway? then 0 else f.streamId
  {
    PayloadLenIsLength(f);
    HeaderOctets(HeaderOf(f), Payload(f));
    KindsMatch(f);
  }

  lemma {:induction false} SettingsAppend(a: seq<SettingsParameter>, b: seq<SettingsParameter>)
    ensures SettingsBytes(a + b) == SettingsBytes(a) + SettingsBytes(b)
  {
    if a == [] {
      assert a + b == b;
    } else {
      assert (a + b)[1..] == a[1..] + b;
      SettingsAppend(a[1..], b);
      Assoc(BE16(a[0].id) + BE32(a[0].value), SettingsBytes(a[1..]), SettingsBytes(b));
    }
  }

  lemma SettingsAround(before: seq<SettingsParameter>, p: SettingsParameter, after: seq<SettingsParameter>)
    ensures SettingsBytes(before + [p] + after)
            == (SettingsBytes(before) + BE16(p.id)) + BE32(p.value) + SettingsBytes(after)
  {
    SettingsAppend(before + [p], after);
    SettingsAppend(before, [p]);
    OneSetting(p);
    Assoc(SettingsBytes(before), BE16(p.id), BE32(p.value));
  }

  lemma OneSetting(p: SettingsParameter)
    ensures SettingsBytes([p]) == BE16(p.id) + BE32(p.value)
  {
    assert [p][1..] == [];
  }

  lemma FieldsAt(pre: bytes, id: u16, value: u32, post: bytes)
    ensures var s, at := (pre + BE16(id)) + BE32(value) + post, |pre|;
            s[at] as int * 256 + s[at + 1] == id && Octets(s, at + 2) == value
  {
    OctetsAt(pre + BE16(id), value, post);
    var s := (pre + BE16(id)) + BE32(value) + post;
    assert s[|pre|] == BE16(id)[0] && s[|pre| + 1] == BE16(id)[1];
  }

  /** The k-th setting stands behind k times six octets: two of id, four of value. */
  lemma SettingOnTheWire(before: seq<SettingsParameter>, p: SettingsParameter, after: seq<SettingsParameter>)
    ensures var s, at := Payload(Settings(false, before + [p] + after)), 6 * |before|;
            && |s| == 6 * (|before| + 1 + |after|)
            && s[at] as int * 256 + s[at + 1] == p.id && Octets(s, at + 2) == p.value
  {
    SettingsAround(before, p, after);
    SettingsRoundTrip(before);
    SettingsRoundTrip(after);
    FieldsAt(SettingsBytes(before), p.id, p.value, SettingsBytes(after));
  }

  /** The fixed fields of the control frames. */
  lemma PayloadOnTheWire(f: H2Frame)
    requires WellFormed(f) && (f.RstStream? || f.WindowUpdate? || f.GoAway? || f.Priority? || f.Ping?)
    ensures var p := Payload(f);
            match f
            case RstStream(_, code) => |p| == 4 && Octets(p, 0) == code
            case WindowUpdate(_, increment) => |p| == 4 && Octets(p, 0) == increment
            case GoAway(last, code, debugData) => |p| >= 8 && Octets(p, 0) == last && Octets(p, 4) == code && p[8..] == debugData
            case Priority(_, spec) =>
              |p| == 5 && Octets(p, 0) == spec.dependency + (if spec.exclusive then 0x8000_0000 else 0) && p[4] == spec.weight
            case Ping(_, data) => p == data
  {
    match f
    case RstStream(_, code) => WordOctets(code);
    case WindowUpdate(_, increment) => WordOctets(increment);
    case GoAway(last, code, debugData) => GoAwayOctets(last, code, debugData);
    case Priority(_, spec) =>
      SpecOctets(spec, []);
      assert PriorityBytes(spec) + [] == PriorityBytes(spec);
    case Ping(_, _) =>
  }

  /** The payloads that carry bytes: pad length, priority, the bytes themselves, padding. */
  lemma BytesOnTheWire(f: H2Frame, pad: nat, prio: nat, block: bytes)
    requires WellFormed(f) && (f.Data? || f.Headers? || f.Continuation?)
    requires block == if f.Data? then f.data else f.headerBlock
    requires pad == if !f.Continuation? && f.padding.Some? then 1 else 0
    requires prio == if f.Headers? && f.priority.Some? then 5 else 0
    ensures var p := Payload(f);
            && |p| == pad + prio + |block| + (if pad == 1 then f.padding.value else 0)
            && (pad == 1 ==> p[0] == f.padding.value) && p[pad + prio..pad + prio + |block|] == block
  {
  }

  lemma HeadersSpecOnTheWire(f: H2Frame)
    requires WellFormed(f) && f.Headers? && f.priority.Some? && f.padding.None?
    ensures var p, spec := Payload(f), f.priority.value;
            && |p| == 5 + |f.headerBlock| && p[4] == spec.weight
            && Octets(p, 0) == spec.dependency + if spec.exclusive then 0x8000_0000 else 0
  {
    SpecOctets(f.priority.value, f.headerBlock);
    assert Payload(f) == PriorityBytes(f.priority.value) + f.headerBlock;
  }

  lemma GoAwayOctets(last: u32, code: u32, debugData: bytes)
    ensures var p := BE32(last) + BE32(code) + debugData;
            Octets(p, 0) == last && Octets(p, 4) == code && p[8..] == debugData
  {
    assert BE32(last) + BE32(code) + debugData == [] + BE32(last) + (BE32(code) + debugData);
    OctetsAt([], last, BE32(code) + debugData);
    OctetsAt(BE32(last), code, debugData);
  }

  lemma SpecOctets(spec: PrioritySpec, more: bytes)
    requires WellFormedSpec(spec)
    ensures var p := PriorityBytes(spec) + more;
            p[4] == spec.weight && Octets(p, 0) == spec.dependency + if spec.exclusive then 0x8000_0000 else 0
  {
    var dep := if spec.exclusive then spec.dependency + 0x8000_0000 else spec.dependency;
    assert PriorityBytes(spec) + more == [] + BE32(dep) + ([spec.weight] + more);
    OctetsAt([], dep, [spec.weight] + more);
  }

  // ---- Chunking independence ------------------------------------------------------------------

  /** A verdict reached on a buffer does not change when more bytes arrive behind it; a frame takes
      bytes out; and a request for `n` bytes stands until that many have come. */
  ghost predicate StableAt(d: Decoder, buf: bytes, more: bytes) {
    match d(buf)
    case Frame(f, rest) => |rest| < |buf| && d(buf + more) == Frame(f, rest + more)
    case Error(e, rest) => d(buf + more) == Error(e, rest + more)
    case NeedMoreData(n) => |more| < n ==> d(buf + more) == NeedMoreData(n - |more|)
  }

  ghost predicate Incremental(d: Decoder) {
    forall buf: bytes, more: bytes :: StableAt(d, buf, more)
  }

  /** The codec is incremental: nothing it reports depends on bytes it has not been given. */
  lemma DecodeIsIncremental(max: nat)
    ensures Incremental(DecoderFor(max))
  {
    forall buf: bytes, more: bytes
      ensures StableAt(DecoderFor(max), buf, more)
    {
      DecodeStable(max, buf, more);
    }
  }

  lemma DecodeStable(max: nat, buf: bytes, more: bytes)
    ensures match Decode(max, buf)
            case Frame(f, rest) =>
              |rest| + FRAME_HEADER_SIZE <= |buf| && Decode(max, buf + more) == Frame(f, rest + more)
            case Error(e, rest) => Decode(max, buf + more) == Error(e, rest + more)
            case NeedMoreData(n) => |more| < n ==> Decode(max, buf + more) == NeedMoreData(n - |more|)
  {
    if |buf| >= FRAME_HEADER_SIZE {
      var h := ParseHeader(buf);
      var total := FRAME_HEADER_SIZE + h.length;
      assert ParseHeader(buf + more) == h;
      if |buf| >= total {
        assert (buf + more)[FRAME_HEADER_SIZE..total] == buf[FRAME_HEADER_SIZE..total];
        assert (buf + more)[total..] == buf[total..] + more;
      }
    }
  }

  /** What the decoder leaves is the end of what it was given. */
  lemma DecodeSuffix(max: nat, buf: bytes)
    ensures var rest := if Decode(max, buf).NeedMoreData? then buf else Decode(max, buf).rest;
            exists taken: bytes :: buf == taken + rest
  {
    var r := Decode(max, buf);
    if r.NeedMoreData? {
      assert buf == [] + buf;
    } else {
      assert buf == buf[..|buf| - |r.rest|] + r.rest;
    }
  }

  /** One `process` call on a reader that has not failed; a failed reader only collects bytes. */
  function Feed(d: Decoder, r: Scan, chunk: bytes): Scan {
    if r.error.Some? then r.(rest := r.rest + chunk) else Prepend(r.frames, ScanAll(d, r.rest + chunk))
  }

  function FeedAll(d: Decoder, r: Scan, chunks: seq<bytes>): Scan
    decreases |chunks|
  {
    if chunks == [] then r else FeedAll(d, Feed(d, r, chunks[0]), chunks[1..])
  }

  function Joined(chunks: seq<bytes>): bytes {
    if chunks == [] then [] else chunks[0] + Joined(chunks[1..])
  }

  lemma {:induction false} ScanStable(d: Decoder, buf: bytes, more: bytes)
    requires Incremental(d)
    ensures ScanAll(d, buf + more) == Feed(d, ScanAll(d, buf), more)
    decreases |buf|
  {
    assert StableAt(d, buf, more);
    match d(buf)
    case NeedMoreData(_) =>
      assert [] + ScanAll(d, buf + more).frames == ScanAll(d, buf + more).frames;
    case Error(_, _) =>
    case Frame(f, rest) =>
      ScanStable(d, rest, more);
      var s := ScanAll(d, rest);
      if s.error.None? {
        Assoc([f], s.frames, ScanAll(d, s.rest + more).frames);
      }
  }

  lemma {:induction false} FeedIsScan(d: Decoder, seen: bytes, chunks: seq<bytes>)
    requires Incremental(d)
    ensures FeedAll(d, ScanAll(d, seen), chunks) == ScanAll(d, seen + Joined(chunks))
    decreases |chunks|
  {
    if chunks == [] {
      assert seen + Joined(chunks) == seen;
    } else {
      ScanStable(d, seen, chunks[0]);
      FeedIsScan(d, seen + chunks[0], chunks[1..]);
      Assoc(seen, chunks[0], Joined(chunks[1..]));
    }
  }

  /** However the input is cut into reads, the frames, the first error and the bytes left over are
      those of a single call on the whole input. */
  lemma ChunkingIndependent(max: nat, chunks: seq<bytes>)
    ensures FeedAll(DecoderFor(max), Scan([], None, []), chunks) == DecodeAll(max, Joined(chunks))
  {
    DecodeIsIncremental(max);
    assert ScanAll(DecoderFor(max), []) == Scan([], None, []);
    assert [] + Joined(chunks) == Joined(chunks);
    FeedIsScan(DecoderFor(max), [], chunks);
  }

  // ---- The codec object -----------------------------------------------------------------------

  /** A growable byte buffer (`BytesMut`). */
  class Buffer {
    var content: bytes

    constructor (initial: bytes)
      ensures content == initial
    {
      content := initial;
    }
  }

  class H2Codec {
    var maxFrameSize: u32

    constructor ()
      ensures maxFrameSize == MIN_MAX_FRAME_SIZE
    {
      maxFrameSize := MIN_MAX_FRAME_SIZE;
    }

    /** Clamps into the range a peer may be offered. */
    method SetMaxFrameSize(size: u32)
      modifies this
      ensures MIN_MAX_FRAME_SIZE <= maxFrameSize <= MAX_FRAME_SIZE_LIMIT
      ensures size <= MIN_MAX_FRAME_SIZE ==> maxFrameSize == MIN_MAX_FRAME_SIZE
      ensures MIN_MAX_FRAME_SIZE <= size <= MAX_FRAME_SIZE_LIMIT ==> maxFrameSize == size
      ensures size >= MAX_FRAME_SIZE_LIMIT ==> maxFrameSize == MAX_FRAME_SIZE_LIMIT
    {
      maxFrameSize := Max(MIN_MAX_FRAME_SIZE, Min(size, MAX_FRAME_SIZE_LIMIT));
    }

    /** `decode`: takes exactly one complete frame out of the buffer, whatever is behind it, or leaves
        the buffer as it is; what stays is always the end of what was there. */
    method DecodeNext(buf: Buffer) returns (r: DecodeResult)
      modifies buf
      ensures r == Decode(maxFrameSize, old(buf.content))
      ensures buf.content == if r.NeedMoreData? then old(buf.content) else r.rest
      ensures exists taken: bytes :: old(buf.content) == taken + buf.content
      ensures r.Frame? ==> |buf.content| + FRAME_HEADER_SIZE <= |old(buf.content)|
      ensures forall f: H2Frame, more: bytes ::
                maxFrameSize <= MAX_FRAME_SIZE_LIMIT && Fits(maxFrameSize, f) && old(buf.content) == Encode(f) + more ==>
                  r == Frame(f, more) && buf.content == more
    {
      ghost var before := buf.content;
      DecodeSuffix(maxFrameSize, before);
      DecodeStable(maxFrameSize, before, []);
      forall f: H2Frame, more: bytes |
        maxFrameSize <= MAX_FRAME_SIZE_LIMIT && Fits(maxFrameSize, f) && before == Encode(f) + more
        ensures Decode(maxFrameSize, before) == Frame(f, more)
      {
        RoundTrip(maxFrameSize, f, more);
      }
      r := Decode(maxFrameSize, buf.content);
      if !r.NeedMoreData? {
        buf.content := r.rest;
      }
    }

    /** `encode_frames`: appends the encodings in order. */
    method EncodeFrames(frames: seq<H2Frame>, buf: Buffer)
      modifies buf
      ensures buf.content == old(buf.content) + EncodeAll(frames)
    {
      var i := 0;
      while i < |frames|
        invariant 0 <= i <= |frames|
        invariant buf.content + EncodeAll(frames[i..]) == old(buf.content) + EncodeAll(frames)
      {
        EncodeAllFrom(frames, i);
        Assoc(buf.content, Encode(frames[i]), EncodeAll(frames[i + 1..]));
        buf.content := buf.content + Encode(frames[i]);
        i := i + 1;
      }
    }

    /** One turn of the decode loop of `process`: what is found so far, and what is to come. */
    method DecodeStep(buf: Buffer, ghost scan: Scan, ghost frames: seq<H2Frame>) returns (r: DecodeResult)
      requires scan == Prepend(frames, DecodeAll(maxFrameSize, buf.content))
      modifies buf
      ensures match r
              case Frame(f, _) =>
                |buf.content| < |old(buf.content)| && scan == Prepend(frames + [f], DecodeAll(maxFrameSize, buf.content))
              case NeedMoreData(_) => scan == Scan(frames, None, buf.content)
              case Error(e, _) => scan == Scan(frames, Some(e), buf.content)
    {
      ghost var d, before := DecoderFor(maxFrameSize), buf.content;
      DecodeIsIncremental(maxFrameSize);
      assert StableAt(d, before, []);
      r := DecodeNext(buf);
      assert r == d(before);
      if r.Frame? {
        Assoc(frames, [r.frame], ScanAll(d, r.rest).frames);
      }
    }

    /** The decode loop of `process`: all complete frames, up to and including the first error. */
    method DecodeLoop(buf: Buffer) returns (frames: seq<H2Frame>, error: Option<CodecError>)
      modifies buf
      ensures Scan(frames, error, buf.content) == DecodeAll(maxFrameSize, old(buf.content))
    {
      frames, error := [], None;
      var open := true;
      ghost var scan := DecodeAll(maxFrameSize, buf.content);
      while open
        invariant scan == if open then Prepend(frames, DecodeAll(maxFrameSize, buf.content))
                          else Scan(frames, error, buf.content)
        decreases open, |buf.content|
      {
        var r := DecodeStep(buf, scan, frames);
        match r
        case Frame(f, _) => frames := frames + [f];
        case NeedMoreData(_) => error, open := None, false;
        case Error(e, _) => error, open := Some(e), false;
      }
    }
  }
}
