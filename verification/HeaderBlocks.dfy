/** Header blocks on the wire: the splitter of `build_headers` and the `ContinuationAssembler`
    that undoes it (lkh2/src/engine.rs). */
module HeaderBlocks {
  import opened Wire
  import opened Frames
  import opened Codec

  const DEFAULT_MAX_HEADER_BLOCK_SIZE: nat := 262144
  const MAX_CONTINUATION_FRAMES: nat := 64

  // ---- Splitting ------------------------------------------------------------------------------

  /** Room for header bytes in the HEADERS frame: the priority fields take five bytes. */
  function FirstRoom(priority: Option<PrioritySpec>, maxFrame: nat): nat {
    Max(0, maxFrame - (if priority.Some? then 5 else 0))
  }

  function Continuations(sid: u32, block: bytes, maxFrame: nat): (fs: seq<H2Frame>)
    requires maxFrame > 0 && block != []
    ensures fs != []
  {
    if |block| <= maxFrame then [Continuation(sid, block, true)]
    else [Continuation(sid, block[..maxFrame], false)] + Continuations(sid, block[maxFrame..], maxFrame)
  }

  /** The frames `build_headers` emits for a block. */
  function SplitBlock(sid: u32, block: bytes, endStream: bool, priority: Option<PrioritySpec>, maxFrame: nat)
    : (fs: seq<H2Frame>)
    requires maxFrame > 0
    ensures fs != [] && fs[0].Headers?
  {
    var room := FirstRoom(priority, maxFrame);
    if |block| <= room then [Headers(sid, block, endStream, true, priority, None)]
    else [Headers(sid, block[..room], endStream, false, priority, None)]
         + Continuations(sid, block[room..], maxFrame)
  }

  /** The splitting loop of `build_headers`. */
  method Split(sid: u32, block: bytes, endStream: bool, priority: Option<PrioritySpec>, maxFrame: nat)
    returns (frames: seq<H2Frame>)
    requires maxFrame > 0
    ensures frames == SplitBlock(sid, block, endStream, priority, maxFrame)
  {
    var overhead := if priority.Some? then 5 else 0;
    var room := if maxFrame >= overhead then maxFrame - overhead else 0;
    if |block| <= room {
      return [Headers(sid, block, endStream, true, priority, None)];
    }
    frames := [Headers(sid, block[..room], endStream, false, priority, None)];
    var remaining := block[room..];
    while remaining != []
      invariant SplitBlock(sid, block, endStream, priority, maxFrame)
                == frames + (if remaining == [] then [] else Continuations(sid, remaining, maxFrame))
      decreases |remaining|
    {
      var n := Min(|remaining|, maxFrame);
      var chunk, later := remaining[..n], remaining[n..];
      var frame := Continuation(sid, chunk, later == []);
      if later == [] {
        assert chunk == remaining;
      } else {
        Assoc(frames, [frame], Continuations(sid, later, maxFrame));
      }
      frames := frames + [frame];
      remaining := later;
    }
  }

  /** Every frame fits the peer's frame size, all are on the stream, only the last ends the block. */
  predicate SplitShape(fs: seq<H2Frame>, sid: u32, maxFrame: nat) {
    forall i :: 0 <= i < |fs| ==>
      && (if fs[i].Headers? then i == 0 else fs[i].Continuation? && i > 0)
      && fs[i].streamId == sid
      && (fs[i].endHeaders <==> i == |fs| - 1)
      && PayloadLen(fs[i]) <= maxFrame
  }

  lemma {:induction false} ContinuationsShape(sid: u32, block: bytes, maxFrame: nat)
    requires maxFrame > 0 && block != []
    ensures var fs := Continuations(sid, block, maxFrame);
            && (forall i :: 0 <= i < |fs| ==>
                  && fs[i].Continuation? && fs[i].streamId == sid
                  && (fs[i].endHeaders <==> i == |fs| - 1)
                  && 0 < PayloadLen(fs[i]) <= maxFrame
                  && (i < |fs| - 1 ==> PayloadLen(fs[i]) == maxFrame))
            && (|fs| - 1) * maxFrame < |block| <= |fs| * maxFrame
    decreases |block|
  {
    if |block| > maxFrame {
      ContinuationsShape(sid, block[maxFrame..], maxFrame);
    }
  }

  /** Shape of the split for every block and every frame size that leaves room for the priority. */
  lemma SplitIsLegal(sid: u32, block: bytes, endStream: bool, priority: Option<PrioritySpec>, maxFrame: nat)
    requires maxFrame >= 5
    ensures SplitShape(SplitBlock(sid, block, endStream, priority, maxFrame), sid, maxFrame)
  {
    var room := FirstRoom(priority, maxFrame);
    if |block| > room {
      ContinuationsShape(sid, block[room..], maxFrame);
    }
  }

  // ---- Assembling -----------------------------------------------------------------------------

  datatype Partial = Partial(buf: bytes, endStream: bool, count: nat)

  datatype Assembler = Assembler(bufs: map<u32, Partial>, active: Option<u32>, limit: nat)

  datatype AssemblyFault = NoHeaders | WrongStream | TooManyFrames | TooLong

  datatype AssemblyResult =
    | Incomplete
    | Complete(streamId: u32, headerBlock: bytes, endStream: bool)
    | Rejected(fault: AssemblyFault)

  /** `push_headers`. */
  function PushHeaders(a: Assembler, sid: u32, block: bytes, endStream: bool, endHeaders: bool)
    : (Assembler, AssemblyResult)
  {
    if endHeaders then (a, Complete(sid, block, endStream))
    else if |block| > a.limit then (a, Rejected(TooLong))
    else (a.(bufs := a.bufs[sid := Partial(block, endStream, 0)], active := Some(sid)), Incomplete)
  }

  /** `push_continuation`. */
  function PushContinuation(a: Assembler, sid: u32, block: bytes, endHeaders: bool): (Assembler, AssemblyResult) {
    if a.active.None? then (a, Rejected(NoHeaders))
    else if a.active.value != sid then (a, Rejected(WrongStream))
    else if sid !in a.bufs then (a, Incomplete)
    else
      var p := a.bufs[sid];
      if p.count + 1 > MAX_CONTINUATION_FRAMES then
        (a.(bufs := a.bufs - {sid}, active := None), Rejected(TooManyFrames))
      else if |p.buf| + |block| > a.limit then
        (a.(bufs := a.bufs - {sid}, active := None), Rejected(TooLong))
      else if endHeaders then
        (a.(bufs := a.bufs - {sid}, active := None), Complete(sid, p.buf + block, p.endStream))
      else
        (a.(bufs := a.bufs[sid := Partial(p.buf + block, p.endStream, p.count + 1)]), Incomplete)
  }

  function Push(a: Assembler, f: H2Frame): (Assembler, AssemblyResult)
    requires f.Headers? || f.Continuation?
  {
    if f.Headers? then PushHeaders(a, f.streamId, f.headerBlock, f.endStream, f.endHeaders)
    else PushContinuation(a, f.streamId, f.headerBlock, f.endHeaders)
  }

  predicate HeaderFrames(fs: seq<H2Frame>) {
    forall i :: 0 <= i < |fs| ==> fs[i].Headers? || fs[i].Continuation?
  }

  /** Feed frames until one completes or is rejected; the verdict of the last frame otherwise. */
  function PushAll(a: Assembler, fs: seq<H2Frame>): AssemblyResult
    requires fs != [] && HeaderFrames(fs)
    decreases |fs|
  {
    var (next, r) := Push(a, fs[0]);
    if |fs| == 1 || !r.Incomplete? then r else PushAll(next, fs[1..])
  }

  lemma {:induction false} PushContinuations(a: Assembler, sid: u32, block: bytes, maxFrame: nat)
    requires maxFrame > 0 && block != []
    requires a.active == Some(sid) && sid in a.bufs
    requires HeaderFrames(Continuations(sid, block, maxFrame))
    ensures var fs, p := Continuations(sid, block, maxFrame), a.bufs[sid];
            if |p.buf| + |block| <= a.limit && p.count + |fs| <= MAX_CONTINUATION_FRAMES
            then PushAll(a, fs) == Complete(sid, p.buf + block, p.endStream)
            else PushAll(a, fs).Rejected?
    decreases |block|
  {
    if |block| > maxFrame {
      var p := a.bufs[sid];
      var first, later := block[..maxFrame], block[maxFrame..];
      var fs := Continuations(sid, block, maxFrame);
      var tail := Continuations(sid, later, maxFrame);
      assert fs[1..] == tail;
      ContinuationsShape(sid, later, maxFrame);
      var (next, r) := Push(a, fs[0]);
      if r.Incomplete? {
        PushContinuations(next, sid, later, maxFrame);
        assert p.buf + first + later == p.buf + block;
      }
    }
  }

  /** Splitting then assembling gives back the block and the END_STREAM bit, whatever the assembler
      held before; it does so exactly when the block fits in one frame, or is within the limit and
      takes at most 64 CONTINUATION frames. */
  lemma SplitAssemble(a: Assembler, sid: u32, block: bytes, endStream: bool, priority: Option<PrioritySpec>,
                      maxFrame: nat)
    requires maxFrame >= 5
    ensures var fs := SplitBlock(sid, block, endStream, priority, maxFrame);
            && HeaderFrames(fs)
            && if |fs| == 1 || (|block| <= a.limit && |fs| <= 1 + MAX_CONTINUATION_FRAMES)
               then PushAll(a, fs) == Complete(sid, block, endStream)
               else PushAll(a, fs).Rejected?
  {
    var fs := SplitBlock(sid, block, endStream, priority, maxFrame);
    var room := FirstRoom(priority, maxFrame);
    SplitIsLegal(sid, block, endStream, priority, maxFrame);
    if |block| > room {
      var first, later := block[..room], block[room..];
      assert fs[1..] == Continuations(sid, later, maxFrame);
      var (next, r) := Push(a, fs[0]);
      if r.Incomplete? {
        PushContinuations(next, sid, later, maxFrame);
        assert first + later == block;
      }
    }
  }

  lemma CountByRoom(sid: u32, block: bytes, endStream: bool, priority: Option<PrioritySpec>, maxFrame: nat, n: nat)
    requires maxFrame >= 5
    ensures |SplitBlock(sid, block, endStream, priority, maxFrame)| <= 1 + n
            <==> |block| <= FirstRoom(priority, maxFrame) + n * maxFrame
  {
    var room := FirstRoom(priority, maxFrame);
    if |block| > room {
      var k := |Continuations(sid, block[room..], maxFrame)|;
      ContinuationsShape(sid, block[room..], maxFrame);
      if k <= n {
        MulMono(k, n, maxFrame);
      } else {
        MulMono(n, k - 1, maxFrame);
      }
    }
  }

  lemma RoomIs(priority: Option<PrioritySpec>, maxFrame: nat)
    requires maxFrame >= 5
    ensures FirstRoom(priority, maxFrame) == maxFrame - if priority.Some? then 5 else 0
  {
  }

  /** The number of frames, as a bound on the block: n CONTINUATION frames suffice exactly when the
      block is at most the first frame less five bytes of priority, plus n full frames. */
  lemma SplitCount(sid: u32, block: bytes, endStream: bool, priority: Option<PrioritySpec>, maxFrame: nat, n: nat)
    requires maxFrame >= 5
    ensures |SplitBlock(sid, block, endStream, priority, maxFrame)| <= 1 + n
            <==> |block| <= maxFrame - (if priority.Some? then 5 else 0) + n * maxFrame
  {
    CountByRoom(sid, block, endStream, priority, maxFrame, n);
    RoomIs(priority, maxFrame);
  }

  /** Under the default limit the 64-frame bound is never the one that rejects: for every legal
      peer frame size, every block of at most 256 KB is recovered, and a larger one only if it
      fits a single HEADERS frame. */
  lemma DefaultLimitRecovers(a: Assembler, sid: u32, block: bytes, endStream: bool,
                             priority: Option<PrioritySpec>, maxFrame: nat)
    requires MIN_MAX_FRAME_SIZE <= maxFrame <= MAX_FRAME_SIZE_LIMIT
    requires a.limit == DEFAULT_MAX_HEADER_BLOCK_SIZE
    ensures var fs := SplitBlock(sid, block, endStream, priority, maxFrame);
            && HeaderFrames(fs)
            && (PushAll(a, fs) == Complete(sid, block, endStream)
                <==> |block| <= 262144 || |block| <= maxFrame - if priority.Some? then 5 else 0)
  {
    SplitAssemble(a, sid, block, endStream, priority, maxFrame);
    SplitCount(sid, block, endStream, priority, maxFrame, 0);
    SplitCount(sid, block, endStream, priority, maxFrame, MAX_CONTINUATION_FRAMES);
  }

  /** End to end: the encoded frames, decoded by a peer whose cap is at least the frame size, are the
      frames split off; assembled there they give the original block exactly when it fits one frame
      or both limits. */
  lemma BlockOverTheWire(a: Assembler, sid: u32, block: bytes, endStream: bool,
                         priority: Option<PrioritySpec>, maxFrame: nat, cap: nat, suffix: bytes)
    requires 5 <= maxFrame <= cap <= MAX_FRAME_SIZE_LIMIT
    requires 0 < sid < 0x8000_0000 && (priority.Some? ==> WellFormedSpec(priority.value))
    ensures var fs := SplitBlock(sid, block, endStream, priority, maxFrame);
            && DecodeAll(cap, EncodeAll(fs) + suffix) == Prepend(fs, DecodeAll(cap, suffix))
            && HeaderFrames(fs)
            && (PushAll(a, fs) == Complete(sid, block, endStream)
                <==> var room := maxFrame - if priority.Some? then 5 else 0;
                     |block| <= room || (|block| <= a.limit && |block| <= room + 64 * maxFrame))
  {
    var fs := SplitBlock(sid, block, endStream, priority, maxFrame);
    SplitIsLegal(sid, block, endStream, priority, maxFrame);
    assert forall i :: 0 <= i < |fs| ==> Fits(cap, fs[i]);
    ListRoundTrip(cap, fs, suffix);
    SplitCount(sid, block, endStream, priority, maxFrame, 0);
    SplitCount(sid, block, endStream, priority, maxFrame, MAX_CONTINUATION_FRAMES);
    SplitAssemble(a, sid, block, endStream, priority, maxFrame);
  }

  // ---- Any sequence of header frames ----------------------------------------------------------

  /** The assembler after these frames, whatever became of each. */
  function Fed(a: Assembler, fs: seq<H2Frame>): Assembler
    requires HeaderFrames(fs)
  {
    if fs == [] then a else Push(Fed(a, fs[..|fs| - 1]), fs[|fs| - 1]).0
  }

  /** What the CONTINUATION frames of a stream carry, and how many they are. */
  function Added(fs: seq<H2Frame>, sid: u32): (bytes, nat) {
    if fs == [] then ([], 0)
    else
      var (block, n) := Added(fs[..|fs| - 1], sid);
      var f := fs[|fs| - 1];
      if f.Continuation? && f.streamId == sid then (block + f.headerBlock, n + 1) else (block, n)
  }

  /** The block begun by the k-th frame, so far. */
  function SoFar(fs: seq<H2Frame>, k: nat): Partial
    requires k < |fs| && fs[k].Headers?
  {
    var (block, n) := Added(fs[k + 1..], fs[k].streamId);
    Partial(fs[k].headerBlock + block, fs[k].endStream, n)
  }

  predicate Overfull(p: Partial, limit: nat) {
    p.count > 64 || |p.buf| > limit
  }

  /** The HEADERS frame whose block is open after these frames: the latest without END_HEADERS, unless a
      CONTINUATION of its own has ended or overfilled it. */
  function OpenBlock(fs: seq<H2Frame>, limit: nat): (k: Option<nat>)
    requires HeaderFrames(fs)
    ensures k.Some? ==> k.value < |fs| && fs[k.value].Headers?
  {
    if fs == [] then None
    else
      var f := fs[|fs| - 1];
      var k := OpenBlock(fs[..|fs| - 1], limit);
      if f.Headers? then if f.endHeaders || |f.headerBlock| > limit then k else Some(|fs| - 1)
      else if k.None? || fs[k.value].streamId != f.streamId then k
      else if f.endHeaders || Overfull(SoFar(fs, k.value), limit) then None
      else k
  }

  /** What the last frame should bring, from the frames alone. */
  function Outcome(fs: seq<H2Frame>, limit: nat): AssemblyResult
    requires fs != [] && HeaderFrames(fs)
  {
    var f, k := fs[|fs| - 1], OpenBlock(fs[..|fs| - 1], limit);
    if f.Headers? then
      if f.endHeaders then Complete(f.streamId, f.headerBlock, f.endStream)
      else if |f.headerBlock| > limit then Rejected(TooLong)
      else Incomplete
    else if k.None? then Rejected(NoHeaders)
    else if fs[k.value].streamId != f.streamId then Rejected(WrongStream)
    else
      var p := SoFar(fs, k.value);
      if p.count > 64 then Rejected(TooManyFrames)
      else if |p.buf| > limit then Rejected(TooLong)
      else if f.endHeaders then Complete(f.streamId, p.buf, p.endStream)
      else Incomplete
  }

  /** The assembler holds the open block and nothing else that matters. */
  predicate HoldsOpen(a: Assembler, fs: seq<H2Frame>)
    requires HeaderFrames(fs)
  {
    match OpenBlock(fs, a.limit)
    case None => a.active.None?
    case Some(k) => a.active == Some(fs[k].streamId) && fs[k].streamId in a.bufs && a.bufs[fs[k].streamId] == SoFar(fs, k)
  }

  lemma SoFarNext(fs: seq<H2Frame>, k: nat)
    requires k < |fs| - 1 && fs[k].Headers?
    ensures var p, f := SoFar(fs[..|fs| - 1], k), fs[|fs| - 1];
            SoFar(fs, k) == if f.Continuation? && f.streamId == fs[k].streamId
                            then Partial(p.buf + f.headerBlock, p.endStream, p.count + 1) else p
  {
    var later := fs[k + 1..];
    assert later[..|later| - 1] == fs[..|fs| - 1][k + 1..];
    assert later[|later| - 1] == fs[|fs| - 1];
  }

  lemma SoFarNow(fs: seq<H2Frame>)
    requires fs != [] && fs[|fs| - 1].Headers?
    ensures SoFar(fs, |fs| - 1) == Partial(fs[|fs| - 1].headerBlock, fs[|fs| - 1].endStream, 0)
  {
    assert fs[|fs|..] == [];
    assert fs[|fs| - 1].headerBlock + [] == fs[|fs| - 1].headerBlock;
  }

  lemma PushHolds(a: Assembler, fs: seq<H2Frame>)
    requires fs != [] && HeaderFrames(fs) && HoldsOpen(a, fs[..|fs| - 1])
    ensures HoldsOpen(Push(a, fs[|fs| - 1]).0, fs) && Push(a, fs[|fs| - 1]).1 == Outcome(fs, a.limit)
  {
    var f, k := fs[|fs| - 1], OpenBlock(fs[..|fs| - 1], a.limit);
    if f.Headers? {
      SoFarNow(fs);
    }
    if k.Some? {
      SoFarNext(fs, k.value);
    }
  }

  /** The assembler on any sequence of HEADERS and CONTINUATION frames, interleaved as a peer likes: every
      frame has the outcome the frames alone determine, so a block that comes out is one stream's own. */
  lemma {:induction false} AssemblerFollows(limit: nat, fs: seq<H2Frame>)
    requires HeaderFrames(fs)
    ensures var a := Fed(Assembler(map[], None, limit), fs); a.limit == limit && HoldsOpen(a, fs)
    ensures fs != [] ==>
              Push(Fed(Assembler(map[], None, limit), fs[..|fs| - 1]), fs[|fs| - 1]).1 == Outcome(fs, limit)
  {
    if fs != [] {
      AssemblerFollows(limit, fs[..|fs| - 1]);
      PushHolds(Fed(Assembler(map[], None, limit), fs[..|fs| - 1]), fs);
    }
  }

  // ---- The assembler object -------------------------------------------------------------------

  class ContinuationAssembler {
    var bufs: map<u32, Partial>
    var activeStream: Option<u32>
    var maxHeaderBlockSize: nat

    constructor ()
      ensures State() == Assembler(map[], None, DEFAULT_MAX_HEADER_BLOCK_SIZE)
    {
      bufs, activeStream, maxHeaderBlockSize := map[], None, DEFAULT_MAX_HEADER_BLOCK_SIZE;
    }

    ghost function State(): Assembler
      reads this
    {
      Assembler(bufs, activeStream, maxHeaderBlockSize)
    }

    method AddHeaders(sid: u32, block: bytes, endStream: bool, endHeaders: bool) returns (r: AssemblyResult)
      modifies this
      ensures (State(), r) == PushHeaders(old(State()), sid, block, endStream, endHeaders)
    {
      if endHeaders {
        return Complete(sid, block, endStream);
      }
      if |block| > maxHeaderBlockSize {
        return Rejected(TooLong);
      }
      bufs := bufs[sid := Partial(block, endStream, 0)];
      activeStream := Some(sid);
      return Incomplete;
    }

    method AddContinuation(sid: u32, block: bytes, endHeaders: bool) returns (r: AssemblyResult)
      modifies this
      ensures (State(), r) == PushContinuation(old(State()), sid, block, endHeaders)
    {
      match activeStream
      case None => return Rejected(NoHeaders);
      case Some(expected) =>
        if expected != sid {
          return Rejected(WrongStream);
        }
      var overflow: Option<AssemblyFault> := None;
      if sid in bufs {
        var newCount := bufs[sid].count + 1;
        var newLen := |bufs[sid].buf| + |block|;
        if newCount > MAX_CONTINUATION_FRAMES {
          overflow := Some(TooManyFrames);
        } else if newLen > maxHeaderBlockSize {
          overflow := Some(TooLong);
        }
      }
      if overflow.Some? {
        bufs := bufs - {sid};
        activeStream := None;
        return Rejected(overflow.value);
      }
      if sid in bufs {
        var p := bufs[sid];
        bufs := bufs[sid := Partial(p.buf + block, p.endStream, p.count + 1)];
      }
      if endHeaders && sid in bufs {
        var p := bufs[sid];
        assert bufs - {sid} == old(bufs) - {sid};
        bufs := bufs - {sid};
        activeStream := None;
        return Complete(sid, p.buf, p.endStream);
      }
      return Incomplete;
    }
  }
}
