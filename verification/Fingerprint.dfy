/** A connection profile goes out as the HTTP/2 preface (lkh2/src/profile.rs, lkh2/src/driver.rs) and
    is read back by the fingerprint parser (lkprofile/src/h2.rs). The two are written independently;
    the laws here say exactly how much of the profile survives. */
module Fingerprint {
  import opened Wire
  import opened Frames
  import opened Codec
  import opened Policy
  import opened Profiles

  // ---- The preface --------------------------------------------------------------------------------

  function PriorityFrames(ps: seq<PriorityFrame>): (fs: seq<H2Frame>)
    ensures |fs| == |ps|
  {
    if ps == [] then [] else [Priority(ps[0].streamId, ps[0].spec)] + PriorityFrames(ps[1..])
  }

  function Opening(p: Profile): seq<H2Frame> {
    [Settings(false, Parameters(p.settings))] + if p.windowUpdate == 0 then [] else [WindowUpdate(0, p.windowUpdate)]
  }

  /** `to_preface_frames`. */
  function PrefaceFrames(p: Profile): seq<H2Frame> {
    Opening(p) + PriorityFrames(p.priorityFrames)
  }

  // ---- Writing ------------------------------------------------------------------------------------

  /** The connection preface, "PRI * HTTP/2.0", a blank line, "SM" and another. */
  const MAGIC: bytes := [80, 82, 73, 32, 42, 32, 72, 84, 84, 80, 47, 50, 46, 48, 13, 10, 13, 10, 83, 77, 13, 10, 13, 10]

  lemma {:induction false} EncodeAllAppend(a: seq<H2Frame>, b: seq<H2Frame>)
    ensures EncodeAll(a + b) == EncodeAll(a) + EncodeAll(b)
    decreases |a|
  {
    if a == [] {
      assert a + b == b;
    } else {
      assert (a + b)[1..] == a[1..] + b;
      EncodeAllAppend(a[1..], b);
      Assoc(Encode(a[0]), EncodeAll(a[1..]), EncodeAll(b));
    }
  }

  lemma {:induction false} JoinedPush(writes: seq<bytes>, w: bytes)
    ensures Joined(writes + [w]) == Joined(writes) + w
    decreases |writes|
  {
    if writes == [] {
      assert writes + [w] == [w] && [w][1..] == [];
    } else {
      assert (writes + [w])[1..] == writes[1..] + [w];
      JoinedPush(writes[1..], w);
      Assoc(writes[0], Joined(writes[1..]), w);
    }
  }

  /** What is on the wire after `i` groups. */
  function Written(magic: bytes, groups: seq<seq<H2Frame>>, i: nat): bytes
    requires i <= |groups|
  {
    (if i == 0 then [] else magic) + EncodeAll(Flatten(groups[..i]))
  }

  lemma Regroup(magic: bytes, before: bytes, now: bytes, first: bool)
    requires first ==> before == []
    ensures ((if first then [] else magic) + before) + ((if first then magic else []) + now) == magic + (before + now)
  {
    if first {
      assert [] + now == now && ([] + before) + (magic + now) == magic + now;
    } else {
      assert [] + now == now && (magic + before) + now == magic + (before + now);
    }
  }

  lemma WriteStep(magic: bytes, groups: seq<seq<H2Frame>>, i: nat)
    requires i < |groups|
    ensures Written(magic, groups, i) + ((if i == 0 then magic else []) + EncodeAll(groups[i]))
            == Written(magic, groups, i + 1)
  {
    assert groups[..i + 1] == groups[..i] + [groups[i]];
    FlattenPush(groups[..i], groups[i]);
    EncodeAllAppend(Flatten(groups[..i]), groups[i]);
    Regroup(magic, EncodeAll(Flatten(groups[..i])), EncodeAll(groups[i]), i == 0);
  }

  /** The preface as the driver writes it, one write per group: whatever the policy, the bytes on the
      wire are the magic and the frames in order. */
  method WritePreface(policy: WritePolicy, codec: H2Codec, frames: seq<H2Frame>) returns (writes: seq<bytes>)
    requires frames != []
    ensures Joined(writes) == MAGIC + EncodeAll(frames)
  {
    var groups := GroupFrames(policy, frames);
    writes := [];
    ghost var magic := MAGIC;
    for i := 0 to |groups|
      invariant Joined(writes) == Written(magic, groups, i)
    {
      var buf := new Buffer(if i == 0 then MAGIC else []);
      codec.EncodeFrames(groups[i], buf);
      WriteStep(magic, groups, i);
      JoinedPush(writes, buf.content);
      writes := writes + [buf.content];
    }
    assert groups[..|groups|] == groups;
  }

  // ---- Reading ------------------------------------------------------------------------------------

  const MAX_RAW_LENGTH: nat := 32768
  const MAX_RAW_FRAMES: nat := 100

  datatype RawFrame = RawFrame(kind: byte, flags: byte, streamId: u32, payload: bytes)

  /** `read_h2_frame`: a frame and the bytes behind it, or a reason to stop. */
  function ReadRaw(data: bytes): (r: Option<(RawFrame, bytes)>)
    ensures r.Some? ==> |r.value.1| < |data|
  {
    if |data| < FRAME_HEADER_SIZE then None
    else
      var h := ParseHeader(data);
      var end := FRAME_HEADER_SIZE + h.length;
      if h.length > MAX_RAW_LENGTH || |data| < end then None
      else Some((RawFrame(h.typeCode, h.flags, h.streamId, data[FRAME_HEADER_SIZE..end]), data[end..]))
  }

  /** `parse_settings`: bytes after the last whole parameter are ignored. */
  function ReadSettings6(payload: bytes): seq<Setting> {
    if |payload| < 6 then []
    else [Setting(FromWire(ReadU16(payload, 0)), ReadU32(payload, 2))] + ReadSettings6(payload[6..])
  }

  /** The loop of `parse_settings`. */
  method ParseSettings6(payload: bytes) returns (settings: seq<Setting>)
    ensures settings == ReadSettings6(payload)
  {
    settings := [];
    var pos := 0;
    assert payload[0..] == payload;
    while pos + 6 <= |payload|
      invariant 0 <= pos <= |payload|
      invariant settings + ReadSettings6(payload[pos..]) == ReadSettings6(payload)
    {
      var s := Setting(FromWire(ReadU16(payload, pos)), ReadU32(payload, pos + 2));
      assert payload[pos..][6..] == payload[pos + 6..];
      assert ReadSettings6(payload[pos..]) == [s] + ReadSettings6(payload[pos + 6..]);
      Assoc(settings, [s], ReadSettings6(payload[pos + 6..]));
      settings := settings + [s];
      pos := pos + 6;
    }
  }

  function ReadIncrement(payload: bytes): u32 {
    if |payload| >= 4 then Low31(ReadU32(payload, 0)) else 0
  }

  /** `extract_headers_priority`. */
  function ReadHeadersPriority(payload: bytes, flags: byte): Option<PrioritySpec> {
    var pos := if HasFlag(flags, PADDED) && payload != [] then 1 else 0;
    if HasFlag(flags, PRIORITY) && pos + 5 <= |payload| then Some(ReadPriority(payload, pos)) else None
  }

  /** What the parser has gathered. */
  datatype Reading = Reading(
    settings: seq<Setting>, windowUpdate: u32, priorityFrames: seq<PriorityFrame>,
    headersPriority: Option<PrioritySpec>, headersSeen: bool)

  const NOTHING_READ: Reading := Reading([], 0, [], None, false)

  /** One turn of the loop of `h2_fingerprint_from_frames`. */
  function Absorb(r: Reading, f: RawFrame): Reading {
    if f.kind == 4 then
      if HasFlag(f.flags, ACK) || r.headersSeen then r else r.(settings := ReadSettings6(f.payload))
    else if f.kind == 8 && f.streamId == 0 && !r.headersSeen then r.(windowUpdate := ReadIncrement(f.payload))
    else if f.kind == 2 && !r.headersSeen && |f.payload| >= 5 then
      r.(priorityFrames := r.priorityFrames + [PriorityFrame(f.streamId, ReadPriority(f.payload, 0))])
    else if f.kind == 1 && !r.headersSeen then
      r.(headersPriority := ReadHeadersPriority(f.payload, f.flags), headersSeen := true)
    else r
  }

  type Reader = bytes -> Option<(RawFrame, bytes)>
  type Absorber = (Reading, RawFrame) -> Reading

  /** At most `n` frames, absorbed one after the other. */
  function ReadLoop(read: Reader, absorb: Absorber, r: Reading, data: bytes, n: nat): Reading
    decreases |data|
  {
    if n == 0 then r
    else
      match read(data)
      case None => r
      case Some((f, rest)) =>
        if |rest| < |data| then ReadLoop(read, absorb, absorb(r, f), rest, n - 1) else absorb(r, f)
  }

  function RawReader(): Reader {
    (d: bytes) => ReadRaw(d)
  }

  function RawAbsorber(): Absorber {
    (r: Reading, f: RawFrame) => Absorb(r, f)
  }

  function ReadFrames(r: Reading, data: bytes, n: nat): Reading {
    ReadLoop(RawReader(), RawAbsorber(), r, data, n)
  }

  /** `h2_fingerprint_from_frames`, up to the HPACK block; `None` is a bad preface. */
  function ReadFingerprint(data: bytes): Option<Reading> {
    if |data| < |MAGIC| || data[..|MAGIC|] != MAGIC then None
    else Some(ReadFrames(NOTHING_READ, data[|MAGIC|..], MAX_RAW_FRAMES))
  }

  lemma BehindMagic(data: bytes)
    ensures ReadFingerprint(MAGIC + data) == Some(ReadFrames(NOTHING_READ, data, MAX_RAW_FRAMES))
  {
    var magic := MAGIC;
    assert (magic + data)[..|magic|] == magic && (magic + data)[|magic|..] == data;
  }

  /** The frame loop with a cursor, as the source has it. */
  method ParseFrames(data: bytes, limit: nat) returns (got: Reading)
    ensures got == ReadFrames(NOTHING_READ, data, limit)
  {
    ghost var read, absorb := RawReader(), RawAbsorber();
    ghost var goal := ReadLoop(read, absorb, NOTHING_READ, data, limit);
    got := NOTHING_READ;
    var rest, left := data, limit;
    while left > 0
      invariant ReadLoop(read, absorb, got, rest, left) == goal
    {
      var raw := ReadRaw(rest);
      assert raw == read(rest);
      if raw.None? {
        break;
      }
      assert absorb(got, raw.value.0) == Absorb(got, raw.value.0);
      got := Absorb(got, raw.value.0);
      rest, left := raw.value.1, left - 1;
    }
    assert got == goal;
  }

  method ParseFingerprint(data: bytes) returns (r: Option<Reading>)
    ensures r == ReadFingerprint(data)
  {
    if |data| < |MAGIC| || data[..|MAGIC|] != MAGIC {
      return None;
    }
    var got := ParseFrames(data[|MAGIC|..], MAX_RAW_FRAMES);
    r := Some(got);
  }

  // ---- What comes back ----------------------------------------------------------------------------

  function RawOf(f: H2Frame): RawFrame {
    RawFrame(TypeCode(f), FlagsOf(f), WireStreamId(f), Payload(f))
  }

  /** Small enough for the parser, and with the length its header claims. */
  predicate Readable(f: H2Frame) {
    !f.Unknown? && |Payload(f)| == PayloadLen(f) <= MAX_RAW_LENGTH
  }

  lemma ReadEncoded(f: H2Frame, more: bytes)
    requires Readable(f)
    ensures ReadRaw(Encode(f) + more) == Some((RawOf(f), more))
  {
    var data := Encode(f) + more;
    Assoc(EncodeHeader(HeaderOf(f)), Payload(f), more);
    HeaderRoundTrip(HeaderOf(f), Payload(f) + more);
    var end := FRAME_HEADER_SIZE + PayloadLen(f);
    assert data[FRAME_HEADER_SIZE..end] == Payload(f);
    assert data[end..] == more;
  }

  function AbsorbAll(absorb: Absorber, r: Reading, fs: seq<H2Frame>): Reading
    decreases |fs|
  {
    if fs == [] then r else AbsorbAll(absorb, absorb(r, RawOf(fs[0])), fs[1..])
  }

  /** `e` reads as `f`, whatever is behind it. */
  ghost predicate ReadsTo(read: Reader, e: bytes, f: RawFrame) {
    e != [] && forall more: bytes :: read(e + more) == Some((f, more))
  }

  function AbsorbRaw(absorb: Absorber, r: Reading, fs: seq<RawFrame>): Reading
    decreases |fs|
  {
    if fs == [] then r else AbsorbRaw(absorb, absorb(r, fs[0]), fs[1..])
  }

  lemma LoopStep(read: Reader, absorb: Absorber, r: Reading, e: bytes, f: RawFrame, rest: bytes, n: nat)
    requires ReadsTo(read, e, f) && n > 0
    ensures ReadLoop(read, absorb, r, e + rest, n) == ReadLoop(read, absorb, absorb(r, f), rest, n - 1)
  {
    assert read(e + rest) == Some((f, rest));
  }

  /** The loop over byte strings that read as frames absorbs those frames, up to its limit. */
  lemma {:induction false} LoopOver(read: Reader, absorb: Absorber, r: Reading, es: seq<bytes>, fs: seq<RawFrame>,
                                    tail: bytes, n: nat)
    requires |es| == |fs| && forall i :: 0 <= i < |fs| ==> ReadsTo(read, es[i], fs[i])
    ensures ReadLoop(read, absorb, r, Joined(es) + tail, n)
            == if |fs| <= n then ReadLoop(read, absorb, AbsorbRaw(absorb, r, fs), tail, n - |fs|)
               else AbsorbRaw(absorb, r, fs[..n])
    decreases |fs|
  {
    if fs == [] {
      assert Joined(es) + tail == tail;
    } else if n > 0 {
      Assoc(es[0], Joined(es[1..]), tail);
      LoopStep(read, absorb, r, es[0], fs[0], Joined(es[1..]) + tail, n);
      LoopOver(read, absorb, absorb(r, fs[0]), es[1..], fs[1..], tail, n - 1);
      if n < |fs| {
        assert fs[..n][1..] == fs[1..][..n - 1];
      }
    }
  }

  function Encodings(fs: seq<H2Frame>): (es: seq<bytes>)
    ensures |es| == |fs| && forall i :: 0 <= i < |fs| ==> es[i] == Encode(fs[i])
  {
    if fs == [] then [] else [Encode(fs[0])] + Encodings(fs[1..])
  }

  function Raws(fs: seq<H2Frame>): (rs: seq<RawFrame>)
    ensures |rs| == |fs| && forall i :: 0 <= i < |fs| ==> rs[i] == RawOf(fs[i])
  {
    if fs == [] then [] else [RawOf(fs[0])] + Raws(fs[1..])
  }

  lemma {:induction false} JoinedEncodings(fs: seq<H2Frame>)
    ensures Joined(Encodings(fs)) == EncodeAll(fs)
  {
    if fs != [] {
      JoinedEncodings(fs[1..]);
      assert Encodings(fs)[1..] == Encodings(fs[1..]);
    }
  }

  lemma {:induction false} AbsorbRaws(absorb: Absorber, r: Reading, fs: seq<H2Frame>)
    ensures AbsorbRaw(absorb, r, Raws(fs)) == AbsorbAll(absorb, r, fs)
    decreases |fs|
  {
    if fs != [] {
      AbsorbRaws(absorb, absorb(r, RawOf(fs[0])), fs[1..]);
      assert Raws(fs)[1..] == Raws(fs[1..]);
    }
  }

  /** The loop over encoded frames. */
  lemma LoopOverFrames(read: Reader, absorb: Absorber, r: Reading, fs: seq<H2Frame>, tail: bytes, n: nat)
    requires forall i :: 0 <= i < |fs| ==> ReadsTo(read, Encode(fs[i]), RawOf(fs[i]))
    ensures ReadLoop(read, absorb, r, EncodeAll(fs) + tail, n)
            == if |fs| <= n then ReadLoop(read, absorb, AbsorbAll(absorb, r, fs), tail, n - |fs|)
               else AbsorbAll(absorb, r, fs[..n])
  {
    LoopOver(read, absorb, r, Encodings(fs), Raws(fs), tail, n);
    JoinedEncodings(fs);
    AbsorbRaws(absorb, r, fs);
    if n < |fs| {
      assert Raws(fs)[..n] == Raws(fs[..n]);
      AbsorbRaws(absorb, r, fs[..n]);
    }
  }

  /** After the first HEADERS frame nothing changes any more. */
  lemma {:induction false} Frozen(r: Reading, data: bytes, n: nat)
    requires r.headersSeen
    ensures ReadFrames(r, data, n) == r
    decreases |data|
  {
    var raw := RawReader()(data);
    if n > 0 && raw.Some? {
      assert RawAbsorber()(r, raw.value.0) == r;
      Frozen(r, raw.value.1, n - 1);
    }
  }

  /** Settings as the parser names them. */
  function Canonical(settings: seq<Setting>): seq<Setting> {
    if settings == [] then []
    else [Setting(FromWire(ToWire(settings[0].id)), settings[0].value)] + Canonical(settings[1..])
  }

  /** A PRIORITY frame as it comes back: 31-bit ids, and a dependency's top bit read as `exclusive`. */
  function Seen(p: PriorityFrame): PriorityFrame {
    PriorityFrame(Low31(p.streamId),
                  PrioritySpec(p.spec.exclusive || p.spec.dependency >= 0x8000_0000, Low31(p.spec.dependency), p.spec.weight))
  }

  function SeenAll(ps: seq<PriorityFrame>): (r: seq<PriorityFrame>)
    ensures |r| == |ps| && forall i :: 0 <= i < |ps| ==> r[i] == Seen(ps[i])
  {
    if ps == [] then [] else [Seen(ps[0])] + SeenAll(ps[1..])
  }

  lemma {:induction false} SettingsComeBack(settings: seq<Setting>)
    ensures |SettingsBytes(Parameters(settings))| == 6 * |settings| == 6 * |Parameters(settings)|
    ensures ReadSettings6(SettingsBytes(Parameters(settings))) == Canonical(settings)
  {
    if settings != [] {
      var id, value := ToWire(settings[0].id), settings[0].value;
      var tail := SettingsBytes(Parameters(settings[1..]));
      SettingsComeBack(settings[1..]);
      var p := SettingsBytes(Parameters(settings));
      assert Parameters(settings)[1..] == Parameters(settings[1..]);
      assert p == [] + BE16(id) + (BE32(value) + tail);
      ReadBE16([], id, BE32(value) + tail);
      assert p == BE16(id) + BE32(value) + tail;
      ReadBE32(BE16(id), value, tail);
      assert p[6..] == tail;
    }
  }

  lemma TopBit(d: u32, exclusive: bool)
    ensures var dep := if exclusive && d < 0x8000_0000 then d + 0x8000_0000 else d;
            (dep >= 0x8000_0000 <==> exclusive || d >= 0x8000_0000) && Low31(dep) == Low31(d)
  {
  }

  lemma SpecComesBack(pre: bytes, spec: PrioritySpec, post: bytes)
    ensures ReadPriority(pre + PriorityBytes(spec) + post, |pre|) == Seen(PriorityFrame(0, spec)).spec
  {
    var dep := if spec.exclusive && spec.dependency < 0x8000_0000 then spec.dependency + 0x8000_0000 else spec.dependency;
    var p := pre + PriorityBytes(spec) + post;
    assert p == pre + BE32(dep) + ([spec.weight] + post);
    ReadBE32(pre, dep, [spec.weight] + post);
    TopBit(spec.dependency, spec.exclusive);
    assert p[|pre| + 4] == spec.weight;
  }

  lemma AbsorbSettings(r: Reading, settings: seq<Setting>)
    requires !r.headersSeen
    ensures Absorb(r, RawOf(Settings(false, Parameters(settings)))) == r.(settings := Canonical(settings))
  {
    SettingsComeBack(settings);
  }

  lemma AbsorbUpdate(r: Reading, increment: u32)
    requires !r.headersSeen
    ensures Absorb(r, RawOf(WindowUpdate(0, increment))) == r.(windowUpdate := Low31(increment))
  {
    ReadWord(increment);
  }

  lemma AbsorbPriority(r: Reading, p: PriorityFrame)
    requires !r.headersSeen
    ensures Absorb(r, RawOf(Priority(p.streamId, p.spec))) == r.(priorityFrames := r.priorityFrames + [Seen(p)])
  {
    SpecComesBack([], p.spec, []);
    assert [] + PriorityBytes(p.spec) + [] == PriorityBytes(p.spec);
  }

  lemma AbsorbHeaders(r: Reading, h: H2Frame)
    requires !r.headersSeen && h.Headers?
    ensures Absorb(r, RawOf(h))
            == r.(headersSeen := true,
                  headersPriority := if h.priority.None? then None else Some(Seen(PriorityFrame(0, h.priority.value)).spec))
  {
    if h.priority.Some? {
      var pad := PadLengthByte(h.padding);
      var post := h.headerBlock + Zeros(PadLen(h.padding));
      SpecComesBack(pad, h.priority.value, post);
      assert Payload(h) == pad + PriorityBytes(h.priority.value) + post;
    }
  }

  lemma {:induction false} AbsorbPriorities(r: Reading, ps: seq<PriorityFrame>)
    requires !r.headersSeen
    ensures AbsorbAll(RawAbsorber(), r, PriorityFrames(ps))
            == r.(priorityFrames := r.priorityFrames + SeenAll(ps))
    decreases |ps|
  {
    if ps == [] {
      assert r.priorityFrames + [] == r.priorityFrames;
    } else {
      AbsorbPriority(r, ps[0]);
      var r1 := r.(priorityFrames := r.priorityFrames + [Seen(ps[0])]);
      assert RawAbsorber()(r, RawOf(PriorityFrames(ps)[0])) == r1;
      assert PriorityFrames(ps)[1..] == PriorityFrames(ps[1..]);
      AbsorbPriorities(r1, ps[1..]);
      Assoc(r.priorityFrames, [Seen(ps[0])], SeenAll(ps[1..]));
    }
  }

  lemma {:induction false} AbsorbAppend(absorb: Absorber, r: Reading, a: seq<H2Frame>, b: seq<H2Frame>)
    ensures AbsorbAll(absorb, r, a + b) == AbsorbAll(absorb, AbsorbAll(absorb, r, a), b)
    decreases |a|
  {
    if a == [] {
      assert a + b == b;
    } else {
      assert (a + b)[1..] == a[1..] + b;
      AbsorbAppend(absorb, absorb(r, RawOf(a[0])), a[1..], b);
    }
  }

  lemma AbsorbOne(absorb: Absorber, r: Reading, f: H2Frame)
    ensures AbsorbAll(absorb, r, [f]) == absorb(r, RawOf(f))
  {
    assert [f][1..] == [];
  }

  lemma AbsorbOpening(p: Profile)
    ensures AbsorbAll(RawAbsorber(), NOTHING_READ, Opening(p))
            == NOTHING_READ.(settings := Canonical(p.settings), windowUpdate := Low31(p.windowUpdate))
  {
    var first := Settings(false, Parameters(p.settings));
    var r1 := NOTHING_READ.(settings := Canonical(p.settings));
    AbsorbSettings(NOTHING_READ, p.settings);
    AbsorbOne(RawAbsorber(), NOTHING_READ, first);
    if p.windowUpdate == 0 {
      assert Opening(p) == [first];
    } else {
      var second := WindowUpdate(0, p.windowUpdate);
      AbsorbUpdate(r1, p.windowUpdate);
      AbsorbOne(RawAbsorber(), r1, second);
      AbsorbAppend(RawAbsorber(), NOTHING_READ, [first], [second]);
    }
  }

  /** How many PRIORITY frames fit the parser's limit of frames. */
  function Kept(p: Profile): (k: nat)
    ensures k <= |p.priorityFrames|
  {
    Min(|p.priorityFrames|, MAX_RAW_FRAMES - |Opening(p)|)
  }

  /** The profile as it is read back. */
  function Visible(p: Profile): Reading {
    Reading(Canonical(p.settings), Low31(p.windowUpdate), SeenAll(p.priorityFrames[..Kept(p)]), None, false)
  }

  lemma {:induction false} PriorityPrefix(ps: seq<PriorityFrame>, k: nat)
    requires k <= |ps|
    ensures PriorityFrames(ps)[..k] == PriorityFrames(ps[..k])
  {
    if k > 0 {
      PriorityPrefix(ps[1..], k - 1);
      assert ps[..k][1..] == ps[1..][..k - 1];
    }
  }

  lemma AbsorbPreface(p: Profile)
    ensures AbsorbAll(RawAbsorber(), NOTHING_READ, PrefaceFrames(p)[..|Opening(p)| + Kept(p)]) == Visible(p)
  {
    var k := Kept(p);
    var kept := p.priorityFrames[..k];
    PriorityPrefix(p.priorityFrames, k);
    assert PrefaceFrames(p)[..|Opening(p)| + k] == Opening(p) + PriorityFrames(kept);
    var r := NOTHING_READ.(settings := Canonical(p.settings), windowUpdate := Low31(p.windowUpdate));
    AbsorbOpening(p);
    AbsorbAppend(RawAbsorber(), NOTHING_READ, Opening(p), PriorityFrames(kept));
    AbsorbPriorities(r, kept);
    assert [] + SeenAll(kept) == SeenAll(kept);
  }

  lemma {:induction false} PriorityFramesReadable(ps: seq<PriorityFrame>, i: nat)
    requires i < |ps|
    ensures Readable(PriorityFrames(ps)[i])
  {
    if i > 0 {
      PriorityFramesReadable(ps[1..], i - 1);
    }
  }

  lemma ReadableReads(f: H2Frame)
    requires Readable(f)
    ensures ReadsTo(RawReader(), Encode(f), RawOf(f))
  {
    forall more: bytes
      ensures RawReader()(Encode(f) + more) == Some((RawOf(f), more))
    {
      ReadEncoded(f, more);
    }
  }

  lemma PrefaceReadable(p: Profile, i: nat)
    requires 6 * |p.settings| <= MAX_RAW_LENGTH && i < |PrefaceFrames(p)|
    ensures Readable(PrefaceFrames(p)[i])
  {
    if i < |Opening(p)| {
      SettingsComeBack(p.settings);
    } else {
      PriorityFramesReadable(p.priorityFrames, i - |Opening(p)|);
    }
  }

  /** What follows the preface on the wire: nothing yet, or a HEADERS frame and anything after it. */
  function Following(first: Option<H2Frame>, more: bytes): bytes {
    if first.None? then [] else Encode(first.value) + more
  }

  function WithHeaders(r: Reading, first: Option<H2Frame>): Reading
    requires first.Some? ==> first.value.Headers?
  {
    if first.None? then r
    else
      var spec := first.value.priority;
      r.(headersSeen := true,
         headersPriority := if spec.None? then None else Some(Seen(PriorityFrame(0, spec.value)).spec))
  }

  lemma ReadFollowing(r: Reading, first: Option<H2Frame>, more: bytes, n: nat)
    requires !r.headersSeen && (first.Some? ==> first.value.Headers? && Readable(first.value))
    ensures ReadFrames(r, Following(first, more), n) == if n == 0 then r else WithHeaders(r, first)
  {
    var data := Following(first, more);
    if first.None? {
      assert RawReader()(data) == None;
    } else if n > 0 {
      ReadEncoded(first.value, more);
      AbsorbHeaders(r, first.value);
      assert RawReader()(data) == Some((RawOf(first.value), more));
      assert RawAbsorber()(r, RawOf(first.value)) == WithHeaders(r, first);
      Frozen(WithHeaders(r, first), more, n - 1);
    }
  }

  /** Profile to wire to fingerprint: the parser reads back every setting in order, the window update
      and the PRIORITY frames, as far as 31 bits and one hundred frames reach, and the priority of
      the first request; nothing behind that request's HEADERS frame can disturb them. */
  lemma FingerprintRecovers(p: Profile, first: Option<H2Frame>, more: bytes)
    requires 6 * |p.settings| <= MAX_RAW_LENGTH
    requires first.Some? ==> first.value.Headers? && Readable(first.value)
    ensures var data := MAGIC + (EncodeAll(PrefaceFrames(p)) + Following(first, more));
            ReadFingerprint(data)
            == Some(if |PrefaceFrames(p)| < MAX_RAW_FRAMES then WithHeaders(Visible(p), first) else Visible(p))
  {
    var fs, tail := PrefaceFrames(p), Following(first, more);
    BehindMagic(EncodeAll(fs) + tail);
    forall i | 0 <= i < |fs|
      ensures ReadsTo(RawReader(), Encode(fs[i]), RawOf(fs[i]))
    {
      PrefaceReadable(p, i);
      ReadableReads(fs[i]);
    }
    LoopOverFrames(RawReader(), RawAbsorber(), NOTHING_READ, fs, tail, MAX_RAW_FRAMES);
    AbsorbPreface(p);
    if |fs| <= MAX_RAW_FRAMES {
      assert fs[..|Opening(p)| + Kept(p)] == fs;
      ReadFollowing(Visible(p), first, more, MAX_RAW_FRAMES - |fs|);
    }
  }

  predicate ReadsAs(r: Reading, p: Profile) {
    r.settings == p.settings && r.windowUpdate == p.windowUpdate && r.priorityFrames == p.priorityFrames
  }

  predicate Faithful(p: PriorityFrame) {
    p.streamId < 0x8000_0000 && p.spec.dependency < 0x8000_0000
  }

  lemma {:induction false} CanonicalIff(settings: seq<Setting>)
    ensures |Canonical(settings)| == |settings|
    ensures Canonical(settings) == settings
            <==> forall i :: 0 <= i < |settings| ==> !(settings[i].id.OtherId? && Named(settings[i].id.raw))
  {
    if settings != [] {
      var tail := settings[1..];
      CanonicalIff(tail);
      WireIds(0, settings[0].id);
      assert settings == [settings[0]] + tail;
      assert Canonical(settings)[1..] == Canonical(tail);
      if Canonical(settings) == settings {
        assert Canonical(settings)[0] == settings[0] && Canonical(tail) == tail;
      }
    }
  }

  lemma SeenIff(p: PriorityFrame)
    ensures Seen(p) == p <==> Faithful(p)
  {
  }

  /** No named setting spelled as a raw number, ids and window update of 31 bits, and at most one
      hundred frames. */
  predicate Plain(p: Profile) {
    && (forall i :: 0 <= i < |p.settings| ==> !(p.settings[i].id.OtherId? && Named(p.settings[i].id.raw)))
    && p.windowUpdate < 0x8000_0000
    && (forall i :: 0 <= i < |p.priorityFrames| ==> Faithful(p.priorityFrames[i]))
    && |PrefaceFrames(p)| <= MAX_RAW_FRAMES
  }

  lemma VisibleIff(p: Profile)
    ensures ReadsAs(Visible(p), p) <==> Plain(p)
  {
    CanonicalIff(p.settings);
    var ps := p.priorityFrames;
    var seen := SeenAll(ps[..Kept(p)]);
    forall i | 0 <= i < |ps|
      ensures Seen(ps[i]) == ps[i] <==> Faithful(ps[i])
    {
      SeenIff(ps[i]);
    }
    if seen == ps {
      assert forall i :: 0 <= i < |ps| ==> seen[i] == Seen(ps[i]);
    }
  }

  /** The size limit is sharp: one setting more than fits, and nothing of the profile is read at all. */
  lemma OversizedSettingsHideAll(p: Profile, tail: bytes)
    requires MAX_RAW_LENGTH < 6 * |p.settings| < 0x100_0000
    ensures ReadFingerprint(MAGIC + (EncodeAll(PrefaceFrames(p)) + tail)) == Some(NOTHING_READ)
  {
    var first := Settings(false, Parameters(p.settings));
    var rest := EncodeAll(PrefaceFrames(p)[1..]) + tail;
    var data := EncodeAll(PrefaceFrames(p)) + tail;
    SettingsComeBack(p.settings);
    assert PrefaceFrames(p)[0] == first;
    Assoc(Encode(first), EncodeAll(PrefaceFrames(p)[1..]), tail);
    Assoc(EncodeHeader(HeaderOf(first)), Payload(first), rest);
    HeaderRoundTrip(HeaderOf(first), Payload(first) + rest);
    assert RawReader()(data) == None;
    BehindMagic(data);
  }

  /** Parsing the bytes of a profile, with or without a request behind it, gives the profile back
      unchanged exactly when it is plain and its SETTINGS payload fits the parser's 32768 bytes. The
      bound on the settings is what a frame's length field can say; ids being 16 bits, every
      profile with distinct ids is below it. */
  lemma RecoversExactlyIff(p: Profile, first: Option<H2Frame>, more: bytes)
    requires 6 * |p.settings| < 0x100_0000
    requires first.Some? ==> first.value.Headers? && Readable(first.value)
    ensures var got := ReadFingerprint(MAGIC + (EncodeAll(PrefaceFrames(p)) + Following(first, more)));
            got.Some? && (ReadsAs(got.value, p) <==> Plain(p) && 6 * |p.settings| <= MAX_RAW_LENGTH)
  {
    if 6 * |p.settings| <= MAX_RAW_LENGTH {
      FingerprintRecovers(p, first, more);
      VisibleIff(p);
    } else {
      OversizedSettingsHideAll(p, Following(first, more));
    }
  }

  // ---- Any traffic --------------------------------------------------------------------------------

  function Typed(ps: seq<SettingsParameter>): seq<Setting> {
    if ps == [] then [] else [Setting(FromWire(ps[0].id), ps[0].value)] + Typed(ps[1..])
  }

  /** The frames in front of the first HEADERS. */
  function Early(fs: seq<H2Frame>): (b: seq<H2Frame>)
    ensures b <= fs
  {
    if fs == [] || fs[0].Headers? then [] else [fs[0]] + Early(fs[1..])
  }

  /** The last SETTINGS that is no acknowledgement. */
  function LastSettings(fs: seq<H2Frame>): seq<Setting> {
    if fs == [] then []
    else
      var f := fs[|fs| - 1];
      if f.Settings? && !f.ack then Typed(f.settings) else LastSettings(fs[..|fs| - 1])
  }

  /** The last WINDOW_UPDATE of the connection. */
  function LastUpdate(fs: seq<H2Frame>): u32 {
    if fs == [] then 0
    else
      var f := fs[|fs| - 1];
      if f.WindowUpdate? && Low31(f.streamId) == 0 then Low31(f.increment) else LastUpdate(fs[..|fs| - 1])
  }

  /** All PRIORITY frames, as 31 bits hold them. */
  function PrioritiesIn(fs: seq<H2Frame>): seq<PriorityFrame> {
    if fs == [] then []
    else
      var f := fs[|fs| - 1];
      PrioritiesIn(fs[..|fs| - 1]) + if f.Priority? then [Seen(PriorityFrame(f.streamId, f.spec))] else []
  }

  function Gathered(fs: seq<H2Frame>): Reading {
    Reading(LastSettings(fs), LastUpdate(fs), PrioritiesIn(fs), None, false)
  }

  lemma {:induction false} TypedComesBack(ps: seq<SettingsParameter>)
    ensures ReadSettings6(SettingsBytes(ps)) == Typed(ps)
  {
    if ps != [] {
      var id, value, tail := ps[0].id, ps[0].value, SettingsBytes(ps[1..]);
      TypedComesBack(ps[1..]);
      var p := SettingsBytes(ps);
      assert p == [] + BE16(id) + (BE32(value) + tail);
      ReadBE16([], id, BE32(value) + tail);
      assert p == BE16(id) + BE32(value) + tail;
      ReadBE32(BE16(id), value, tail);
      assert p[6..] == tail;
    }
  }

  lemma GatherOne(fs: seq<H2Frame>, f: H2Frame)
    requires !f.Unknown? && !f.Headers?
    ensures Absorb(Gathered(fs), RawOf(f)) == Gathered(fs + [f])
  {
    assert (fs + [f])[..|fs|] == fs;
    if f.Settings? {
      TypedComesBack(f.settings);
    } else if f.WindowUpdate? {
      ReadWord(f.increment);
    } else if f.Priority? {
      AbsorbPriority(Gathered(fs), PriorityFrame(f.streamId, f.spec));
    }
    assert PrioritiesIn(fs) + [] == PrioritiesIn(fs);
  }

  predicate Plainly(fs: seq<H2Frame>) {
    forall i :: 0 <= i < |fs| ==> !fs[i].Unknown? && !fs[i].Headers?
  }

  lemma {:induction false} GatherAll(fs: seq<H2Frame>)
    requires Plainly(fs)
    ensures AbsorbAll(RawAbsorber(), NOTHING_READ, fs) == Gathered(fs)
  {
    if fs != [] {
      var init, f := fs[..|fs| - 1], fs[|fs| - 1];
      GatherAll(init);
      assert fs == init + [f];
      AbsorbAppend(RawAbsorber(), NOTHING_READ, init, [f]);
      AbsorbOne(RawAbsorber(), Gathered(init), f);
      GatherOne(init, f);
    }
  }

  lemma {:induction false} EarlyIs(fs: seq<H2Frame>)
    ensures var b := Early(fs);
            && (forall i :: 0 <= i < |b| ==> !b[i].Headers?) && (|b| < |fs| ==> fs[|b|].Headers?)
  {
    if fs != [] && !fs[0].Headers? {
      EarlyIs(fs[1..]);
    }
  }

  /** What frames amount to: those before the first HEADERS, and the priority of that one. */
  function Summary(fs: seq<H2Frame>): Reading
  {
    var b := Early(fs);
    EarlyIs(fs);
    WithHeaders(Gathered(b), if |b| < |fs| then Some(fs[|b|]) else None)
  }

  lemma {:induction false} FrozenAll(r: Reading, fs: seq<H2Frame>)
    requires r.headersSeen
    ensures AbsorbAll(RawAbsorber(), r, fs) == r
    decreases |fs|
  {
    if fs != [] {
      assert RawAbsorber()(r, RawOf(fs[0])) == r;
      FrozenAll(r, fs[1..]);
    }
  }

  lemma ThenHeaders(absorb: Absorber, b: seq<H2Frame>, h: H2Frame, rest: seq<H2Frame>, r: Reading, r1: Reading, r2: Reading)
    requires AbsorbAll(absorb, r, b) == r1 && absorb(r1, RawOf(h)) == r2
    ensures AbsorbAll(absorb, r, (b + [h]) + rest) == AbsorbAll(absorb, r2, rest)
  {
    AbsorbAppend(absorb, r, b + [h], rest);
    AbsorbAppend(absorb, r, b, [h]);
    AbsorbOne(absorb, r1, h);
  }

  lemma EarlyPlain(fs: seq<H2Frame>)
    requires Known(fs)
    ensures Plainly(Early(fs))
  {
    EarlyIs(fs);
  }

  lemma SummaryWith(b: seq<H2Frame>, h: H2Frame, rest: seq<H2Frame>)
    requires Plainly(b) && h.Headers?
    ensures AbsorbAll(RawAbsorber(), NOTHING_READ, (b + [h]) + rest) == WithHeaders(Gathered(b), Some(h))
  {
    var r1 := Gathered(b);
    var r2 := WithHeaders(r1, Some(h));
    GatherAll(b);
    AbsorbHeaders(r1, h);
    ThenHeaders(RawAbsorber(), b, h, rest, NOTHING_READ, r1, r2);
    FrozenAll(r2, rest);
  }

  lemma SummaryOf(fs: seq<H2Frame>)
    requires Known(fs)
    ensures AbsorbAll(RawAbsorber(), NOTHING_READ, fs) == Summary(fs)
  {
    var b := Early(fs);
    EarlyIs(fs);
    EarlyPlain(fs);
    if |b| < |fs| {
      assert fs == (b + [fs[|b|]]) + fs[|b| + 1..];
      SummaryWith(b, fs[|b|], fs[|b| + 1..]);
    } else {
      assert b == fs;
      GatherAll(b);
    }
  }

  /** The parser gives up after a hundred frames. */
  function FirstHundred(fs: seq<H2Frame>): (r: seq<H2Frame>)
    ensures r <= fs
  {
    if |fs| <= 100 then fs else fs[..100]
  }

  lemma LoopToEnd(read: Reader, absorb: Absorber, r: Reading, fs: seq<H2Frame>, n: nat)
    requires forall i :: 0 <= i < |fs| ==> ReadsTo(read, Encode(fs[i]), RawOf(fs[i]))
    requires read([]) == None
    ensures ReadLoop(read, absorb, r, EncodeAll(fs), n) == AbsorbAll(absorb, r, if |fs| <= n then fs else fs[..n])
  {
    LoopOverFrames(read, absorb, r, fs, [], n);
    assert EncodeAll(fs) + [] == EncodeAll(fs);
  }

  lemma ReadAny(fs: seq<H2Frame>)
    requires forall i :: 0 <= i < |fs| ==> Readable(fs[i])
    ensures ReadFrames(NOTHING_READ, EncodeAll(fs), MAX_RAW_FRAMES)
            == AbsorbAll(RawAbsorber(), NOTHING_READ, FirstHundred(fs))
  {
    forall i | 0 <= i < |fs|
      ensures ReadsTo(RawReader(), Encode(fs[i]), RawOf(fs[i]))
    {
      ReadableReads(fs[i]);
    }
    LoopToEnd(RawReader(), RawAbsorber(), NOTHING_READ, fs, MAX_RAW_FRAMES);
  }

  predicate Known(fs: seq<H2Frame>) {
    forall i :: 0 <= i < |fs| ==> !fs[i].Unknown?
  }

  lemma HundredKnown(fs: seq<H2Frame>)
    requires forall i :: 0 <= i < |fs| ==> Readable(fs[i])
    ensures Known(FirstHundred(fs))
  {
    forall i | 0 <= i < |FirstHundred(fs)|
      ensures !FirstHundred(fs)[i].Unknown?
    {
      assert Readable(fs[i]);
    }
  }

  lemma SummaryRead(kept: seq<H2Frame>, r: Reading)
    requires Known(kept) && r == AbsorbAll(RawAbsorber(), NOTHING_READ, kept)
    ensures r == Summary(kept)
  {
    SummaryOf(kept);
  }

  /** The parser on any client's frames, in any order: of the first hundred, the last SETTINGS that is no
      acknowledgement, the last WINDOW_UPDATE of the connection and all PRIORITY frames before the first HEADERS,
      and that frame's priority. */
  lemma FingerprintOfAny(fs: seq<H2Frame>)
    requires forall i :: 0 <= i < |fs| ==> Readable(fs[i])
    ensures ReadFingerprint(MAGIC + EncodeAll(fs)) == Some(Summary(FirstHundred(fs)))
  {
    BehindMagic(EncodeAll(fs));
    ReadAny(fs);
    HundredKnown(fs);
    SummaryRead(FirstHundred(fs), ReadFrames(NOTHING_READ, EncodeAll(fs), MAX_RAW_FRAMES));
  }
}
