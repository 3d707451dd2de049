/** `H2Engine` as the mutable object of lkh2/src/engine.rs. Each handler is proved against the
    function of `Engine` it carries out, and `Process` against a chain of such steps, so that every
    theorem about runs speaks about this object. */
module EngineObject {
  import opened Wire
  import opened Frames
  import opened Codec
  import opened HeaderBlocks
  import opened Streams
  import opened Connection
  import opened Sender
  import opened Policy
  import opened Profiles
  import opened Engine
  import opened EngineLaws
  import opened EngineTheorems
  import opened ConnObject

  // ---- From bytes to runs -------------------------------------------------------------------------

  function JoinFrames(outs: seq<Output>): seq<H2Frame> {
    if outs == [] then [] else JoinFrames(outs[..|outs| - 1]) + outs[|outs| - 1].frames
  }

  function JoinEvents(outs: seq<Output>): seq<H2Event> {
    if outs == [] then [] else JoinEvents(outs[..|outs| - 1]) + outs[|outs| - 1].events
  }

  /** The k-th frame takes the k-th state to the next; `hpack` gives the decoder's answers. */
  ghost predicate Chain(es: seq<Engine>, fs: seq<H2Frame>, hpack: nat -> Option<HeaderList>, outs: seq<Output>) {
    && |es| == |fs| + 1 && |outs| == |fs|
    && (forall i :: 0 <= i < |es| ==> ValidEngine(es[i]))
    && forall i :: 0 <= i < |fs| ==> Handled(es[i], fs[i], hpack(i), es[i + 1], outs[i])
  }

  predicate Decoded(fs: seq<H2Frame>) {
    forall i :: 0 <= i < |fs| ==> fs[i].Unknown? || Fits(MAX_FRAME_SIZE_LIMIT, fs[i])
  }

  lemma ReachableStep(w: World, l: Label, w': World)
    requires Reachable(w) && Next(w, l, w')
    ensures Reachable(w')
  {
    var ws, ls, profile, windowUpdate, blockLimit, policy :|
      Reaches(ws, ls, profile, windowUpdate, blockLimit, policy, w);
    assert Reaches(ws + [w'], ls + [l], profile, windowUpdate, blockLimit, policy, w');
  }

  ghost predicate Extends(w: World, e: Engine, out: seq<H2Frame>, w': World) {
    Reachable(w') && w'.engine == e && w'.out == w.out + out && w'.reqs == w.reqs
  }

  /** Handling decoded frames one after the other is a run: it ends in a reachable world whose
      output has grown by exactly the frames emitted. */
  lemma {:induction false} ChainReaches(w: World, es: seq<Engine>, fs: seq<H2Frame>, hpack: nat -> Option<HeaderList>,
                                        outs: seq<Output>, k: nat)
    requires Reachable(w) && Chain(es, fs, hpack, outs) && es[0] == w.engine && Decoded(fs) && k <= |fs|
    ensures exists w' :: Extends(w, es[k], JoinFrames(outs[..k]), w')
  {
    if k == 0 {
      assert Extends(w, es[0], JoinFrames(outs[..0]), w);
    } else {
      ChainReaches(w, es, fs, hpack, outs, k - 1);
      var v :| Extends(w, es[k - 1], JoinFrames(outs[..k - 1]), v);
      var w' := AfterReceive(v, fs[k - 1], outs[k - 1], es[k]);
      assert Next(v, Receive(fs[k - 1], hpack(k - 1), outs[k - 1]), w');
      ReachableStep(v, Receive(fs[k - 1], hpack(k - 1), outs[k - 1]), w');
      assert outs[..k][..k - 1] == outs[..k - 1];
      Assoc(w.out, JoinFrames(outs[..k - 1]), outs[k - 1].frames);
      assert Extends(w, es[k], JoinFrames(outs[..k]), w');
    }
  }

  predicate DecodedFrame(r: DecodeResult) {
    r.Frame? ==> r.frame.Unknown? || Fits(MAX_FRAME_SIZE_LIMIT, r.frame)
  }

  lemma {:induction false} ScanDecoded(d: Decoder, buf: bytes)
    requires forall b: bytes :: DecodedFrame(d(b))
    ensures Decoded(ScanAll(d, buf).frames)
    decreases |buf|
  {
    assert DecodedFrame(d(buf));
    if d(buf).Frame? && |d(buf).rest| < |buf| {
      ScanDecoded(d, d(buf).rest);
    }
  }

  lemma DecoderFits(max: nat, b: bytes)
    requires max <= MAX_FRAME_SIZE_LIMIT
    ensures DecodedFrame(Decode(max, b))
  {
    if Decode(max, b).Frame? && !Decode(max, b).frame.Unknown? {
      DecodedFits(max, b);
    }
  }

  lemma AllDecoded(max: nat, buf: bytes)
    requires max <= MAX_FRAME_SIZE_LIMIT
    ensures Decoded(DecodeAll(max, buf).frames)
  {
    var d := DecoderFor(max);
    forall b: bytes
      ensures DecodedFrame(d(b))
    {
      DecoderFits(max, b);
    }
    ScanDecoded(d, buf);
  }

  /** Whatever bytes arrive, handling them keeps the world reachable, so every law of runs holds of
      the engine object after any number of `process` calls. */
  lemma ProcessReaches(w: World, max: nat, buf: bytes, es: seq<Engine>, hpack: nat -> Option<HeaderList>,
                       outs: seq<Output>)
    requires Reachable(w) && max <= MAX_FRAME_SIZE_LIMIT
    requires Chain(es, DecodeAll(max, buf).frames, hpack, outs) && es[0] == w.engine
    ensures exists w' :: Extends(w, es[|outs|], JoinFrames(outs), w')
  {
    AllDecoded(max, buf);
    WholeChain(w, es, DecodeAll(max, buf).frames, hpack, outs);
  }

  lemma WholeChain(w: World, es: seq<Engine>, fs: seq<H2Frame>, hpack: nat -> Option<HeaderList>, outs: seq<Output>)
    requires Reachable(w) && Chain(es, fs, hpack, outs) && es[0] == w.engine && Decoded(fs)
    ensures exists w' :: Extends(w, es[|outs|], JoinFrames(outs), w')
  {
    assert outs[..|outs|] == outs;
    ChainReaches(w, es, fs, hpack, outs, |outs|);
  }

  lemma JoinPush(outs: seq<Output>, out: Output)
    ensures JoinFrames(outs + [out]) == JoinFrames(outs) + out.frames
    ensures JoinEvents(outs + [out]) == JoinEvents(outs) + out.events
  {
    assert (outs + [out])[..|outs|] == outs;
  }

  lemma ChainPush(es: seq<Engine>, fs: seq<H2Frame>, hpack: nat -> Option<HeaderList>, outs: seq<Output>,
                  f: H2Frame, e': Engine, out: Output)
    requires Chain(es, fs, hpack, outs) && Handled(es[|fs|], f, hpack(|fs|), e', out) && ValidEngine(e')
    ensures Chain(es + [e'], fs + [f], hpack, outs + [out])
  {
    var es', fs', outs' := es + [e'], fs + [f], outs + [out];
    assert forall i :: 0 <= i < |es| ==> es'[i] == es[i];
    forall i | 0 <= i < |fs'|
      ensures Handled(es'[i], fs'[i], hpack(i), es'[i + 1], outs'[i])
    {
      if i < |fs| {
        assert Handled(es[i], fs[i], hpack(i), es[i + 1], outs[i]);
      }
    }
  }

  /** What `process` hands back: the outputs of the frames in order, and GOAWAY on a decoding error. */
  predicate Reported(scan: Scan, fs: seq<H2Frame>, rest: bytes, outs: seq<Output>, outbound: seq<H2Frame>,
                     events: seq<H2Event>) {
    && fs == scan.frames && rest == scan.rest
    && outbound == JoinFrames(outs) + (if scan.error.Some? then [GoAway(0, 1, [])] else [])
    && events == JoinEvents(outs) + (if scan.error.Some? then [EngineError(BadFrame(scan.error.value))] else [])
  }

  // ---- The object ---------------------------------------------------------------------------------

  class H2Engine {
    const codec: H2Codec
    const state: ConnState
    const continuation: ContinuationAssembler
    const policy: FlowPolicy
    const initialRecvWindow: u32
    var accumulated: Accumulated
    var pendingData: seq<PendingBody>
    var settingsReceived: bool

    ghost function Send(): SendState
      reads this, state
    {
      SendState(state.State(), pendingData)
    }

    ghost function State(): Engine
      reads this, state, continuation
    {
      Engine(Send(), continuation.State(), policy, accumulated, initialRecvWindow, settingsReceived)
    }

    ghost predicate Valid()
      reads this, state, continuation
    {
      ValidEngine(State())
    }

    /** `client_with_policies`; its two limits are the first settings of their name in the profile. */
    constructor (settings: seq<Setting>, windowUpdate: u32, flowControl: FlowPolicy)
      ensures Valid() && fresh(codec) && fresh(state) && fresh(continuation)
      ensures var size := FirstValue(settings, MaxHeaderListSize);
              State() == ClientEngine(Parameters(settings), windowUpdate,
                                      if size.Some? then size.value else DEFAULT_MAX_HEADER_BLOCK_SIZE, flowControl)
      ensures MIN_MAX_FRAME_SIZE <= codec.maxFrameSize <= MAX_FRAME_SIZE_LIMIT
      ensures var size := FirstValue(settings, MaxFrameSize);
              codec.maxFrameSize
              == if size.None? then MIN_MAX_FRAME_SIZE
                 else Max(MIN_MAX_FRAME_SIZE, Min(size.value, MAX_FRAME_SIZE_LIMIT))
    {
      codec := new H2Codec();
      state := new ConnState(Parameters(settings), windowUpdate);
      continuation := new ContinuationAssembler();
      policy, initialRecvWindow := flowControl, Min(DEFAULT_INITIAL_WINDOW + windowUpdate, 0xFFFF_FFFF);
      accumulated, pendingData, settingsReceived := map[], [], false;
      new;
      var headerListSize, frameSize := FirstValue(settings, MaxHeaderListSize), FirstValue(settings, MaxFrameSize);
      if headerListSize.Some? {
        continuation.maxHeaderBlockSize := headerListSize.value;
      }
      if frameSize.Some? {
        codec.SetMaxFrameSize(frameSize.value);
      }
    }

    /** `build_data`. */
    method BuildData(sid: u32, data: bytes, endStream: bool) returns (frames: seq<H2Frame>)
      requires state.remoteSettings.maxFrameSize > 0
      modifies `pendingData, state
      ensures (Send(), frames) == Sender.BuildData(old(Send()), sid, data, endStream)
    {
      frames := [];
      var remaining := data;
      ResumeStart(Send(), sid, data, endStream);
      while remaining != []
        invariant state.remoteSettings == old(state.remoteSettings)
        invariant Resume(Send(), sid, remaining, endStream, frames)
                  == Sender.BuildData(old(Send()), sid, data, endStream)
        decreases |remaining|
      {
        var window := 0;
        if sid in state.streams {
          window := Min(Max(state.sendWindow, 0), SendAvailable(state.streams[sid]));
        }
        if window == 0 {
          ResumeBlocked(Send(), sid, remaining, endStream, frames);
          pendingData := pendingData + [PendingBody(sid, remaining, endStream)];
          return;
        }
        var n := Min(Min(|remaining|, state.remoteSettings.maxFrameSize), window);
        ResumeChunk(Send(), sid, remaining, endStream, frames, n);
        var last := endStream && n == |remaining|;
        state.ConsumeSendWindow(n);
        state.streams := state.streams[sid := ConsumeSend(state.streams[sid], n)];
        if last {
          state.EndLocalSide(sid);
        }
        frames := frames + [Data(sid, remaining[..n], last, None)];
        remaining := remaining[n..];
      }
      ResumeStart(Send(), sid, [], endStream);
      if frames == [] && endStream {
        frames := [Data(sid, [], true, None)];
        state.EndLocalSide(sid);
      }
    }

    /** `drain_pending_data`. */
    method DrainPending() returns (frames: seq<H2Frame>)
      requires state.remoteSettings.maxFrameSize > 0
      modifies `pendingData, state
      ensures (Send(), frames) == Drain(old(Send()).(pending := []), old(pendingData))
    {
      var taken := pendingData;
      pendingData, frames := [], [];
      ghost var goal := Drain(Send(), taken);
      DrainEnds(Send(), taken, []);
      assert taken[0..] == taken;
      var i := 0;
      while i < |taken|
        invariant 0 <= i <= |taken| && state.remoteSettings.maxFrameSize > 0
        invariant goal == DrainRest(Send(), taken[i..], frames)
      {
        DrainTurn(Send(), taken[i..], frames);
        var sent := BuildData(taken[i].streamId, taken[i].data, taken[i].endStream);
        assert taken[i..][1..] == taken[i + 1..];
        frames := frames + sent;
        i := i + 1;
      }
      DrainEnds(Send(), [], frames);
    }

    /** `emit_rst_stream`. */
    method EmitReset(sid: u32, code: u32, events: seq<H2Event>) returns (out: Output)
      requires Valid()
      modifies state
      ensures Valid() && (State(), out) == EmitRst(old(State()), sid, code, events)
    {
      state.ResetIfKnown(sid);
      out := Output([RstStream(sid, code)], events);
    }

    method OnWindowUpdate(sid: u32, increment: u32) returns (out: Output)
      requires Valid()
      modifies this, state
      ensures (State(), out) == HandleWindowUpdate(old(State()), sid, increment)
    {
      if increment == 0 {
        if sid == 0 {
          return Output([GoAwayFor(PROTOCOL_ERROR)], [EngineError(ZeroIncrement)]);
        }
        out := EmitReset(sid, PROTOCOL_ERROR, []);
        return;
      }
      if sid == 0 {
        var ok := state.UpdateSendWindow(increment);
        if !ok {
          return Output([GoAwayFor(FLOW_CONTROL_ERROR)], [EngineError(FlowControlFault)]);
        }
      } else if sid in state.streams {
        var moved := UpdateSend(state.streams[sid], increment);
        if moved.None? {
          out := EmitReset(sid, FLOW_CONTROL_ERROR, [EngineError(FlowControlFault)]);
          return;
        }
        state.streams := state.streams[sid := moved.value];
      }
      var drained := [];
      if pendingData != [] {
        drained := DrainPending();
      }
      out := Output(drained, [WindowUpdated(sid, increment)]);
    }

    method OnRstStream(sid: u32, code: u32) returns (out: Output)
      requires Valid()
      modifies state
      ensures (State(), out) == HandleRstStream(old(State()), sid, code)
    {
      state.ResetIfKnown(sid);
      state.CleanupClosed();
      out := Output([], [StreamReset(sid, code)]);
    }

    /** The two credit decisions of `handle_data`. */
    method CreditConnection(len: nat) returns (frames: seq<H2Frame>)
      requires Valid()
      modifies `accumulated, state
      ensures (State(), frames) == CreditConn(old(State()), len)
    {
      var (acc, increment) := OnDataReceived(policy, accumulated, 0, len, initialRecvWindow);
      accumulated := acc;
      if increment.Some? {
        var _ := state.UpdateRecvWindow(increment.value);
      }
      frames := CreditFrame(0, increment);
    }

    method CreditOneStream(sid: u32, len: nat, initial: u32) returns (frames: seq<H2Frame>)
      requires Valid()
      modifies `accumulated, state
      ensures (State(), frames) == CreditStream(old(State()), sid, len, initial)
    {
      var (acc, increment) := OnDataReceived(policy, accumulated, sid, len, initial);
      accumulated := acc;
      if increment.Some? && sid in state.streams {
        var moved := UpdateRecv(state.streams[sid], increment.value);
        if moved.Some? {
          state.streams := state.streams[sid := moved.value];
        }
      }
      frames := CreditFrame(sid, increment);
    }

    method OnData(sid: u32, data: bytes, endStream: bool, padding: Option<byte>) returns (out: Output)
      requires Valid()
      modifies this, state
      ensures (State(), out) == HandleData(old(State()), sid, data, endStream, padding)
    {
      var len := FlowLength(data, padding);
      var ok := state.ConsumeRecvWindow(len);
      if !ok {
        return Output([GoAwayFor(FLOW_CONTROL_ERROR)], [EngineError(FlowControlFault)]);
      }
      var initial := DEFAULT_INITIAL_WINDOW;
      if sid in state.streams {
        var stream := state.streams[sid];
        if !stream.state.CanReceive() {
          out := EmitReset(sid, STREAM_CLOSED, []);
          return;
        }
        var taken := ConsumeRecv(stream, len);
        if taken.None? {
          out := EmitReset(sid, FLOW_CONTROL_ERROR, [StreamReset(sid, FLOW_CONTROL_ERROR)]);
          return;
        }
        initial := stream.initialWindow;
        state.streams := state.streams[sid := if endStream then RecvEndStream(taken.value) else taken.value];
      }
      var frames := [];
      if len > 0 {
        var onConn := CreditConnection(len);
        var onStream := CreditOneStream(sid, len, initial);
        frames := onConn + onStream;
      }
      if endStream {
        accumulated := OnStreamClosed(policy, accumulated, sid);
        state.CleanupClosed();
      }
      out := Output(frames, [ResponseData(sid, data, endStream)]);
    }

    method OnHeaders(sid: u32, endStream: bool, decoded: Option<HeaderList>) returns (out: Output)
      requires Valid()
      modifies state
      ensures (State(), out) == CompleteHeaders(old(State()), sid, endStream, decoded)
    {
      if decoded.None? {
        return Output([GoAwayFor(COMPRESSION_ERROR)], [EngineError(CompressionFault)]);
      }
      if sid !in state.streams {
        return Output([], [EngineError(UnknownStream)]);
      }
      if endStream {
        state.streams := state.streams[sid := RecvEndStream(state.streams[sid])];
      }
      out := Output([], [ResponseHeaders(sid, decoded.value, endStream)]);
    }

    /** `handle_headers` and `handle_continuation`. */
    method OnHeaderFrame(f: H2Frame, decoded: Option<HeaderList>) returns (out: Output)
      requires Valid() && (f.Headers? || f.Continuation?)
      modifies state, continuation
      ensures (State(), out) == HandleHeaderFrame(old(State()), f, decoded)
    {
      var r;
      if f.Headers? {
        r := continuation.AddHeaders(f.streamId, f.headerBlock, f.endStream, f.endHeaders);
      } else {
        r := continuation.AddContinuation(f.streamId, f.headerBlock, f.endHeaders);
      }
      match r
      case Incomplete => out := Output([], []);
      case Complete(sid, _, endStream) => out := OnHeaders(sid, endStream, decoded);
      case Rejected(fault) => out := Output([GoAwayFor(PROTOCOL_ERROR)], [EngineError(AssemblyError(fault))]);
    }

    method OnSettings(ack: bool, ps: seq<SettingsParameter>) returns (out: Output)
      requires Valid()
      modifies `settingsReceived, state
      ensures SettingsHandled(old(State()), ack, ps, State(), out)
    {
      if ack {
        state.Acknowledge();
        return Output([], [LocalSettingsAcked]);
      }
      var ok := state.ApplyRemoteSettings(ps);
      ghost var after := state.State();
      if ok {
        settingsReceived := true;
        out := Output([Settings(true, [])], [SettingsAcked]);
      } else {
        out := Output([GoAwayFor(PROTOCOL_ERROR)], [EngineError(SettingsFault)]);
      }
      assert (State(), out) == SettingsOutcome(old(State()), after, ok);
    }

    method OnFrame(f: H2Frame, decoded: Option<HeaderList>) returns (out: Output)
      requires Valid()
      modifies this, state, continuation
      ensures Valid() && Handled(old(State()), f, decoded, State(), out)
    {
      out := Output([], []);
      match f {
      case Settings(ack, ps) => out := OnSettings(ack, ps);
      case Headers(_, _, _, _, _, _) => out := OnHeaderFrame(f, decoded);
      case Continuation(_, _, _) => out := OnHeaderFrame(f, decoded);
      case Data(sid, data, endStream, padding) => out := OnData(sid, data, endStream, padding);
      case WindowUpdate(sid, increment) => out := OnWindowUpdate(sid, increment);
      case Ping(ack, data) =>
        if !ack {
          out := Output([Ping(true, data)], [PingAck]);
        }
      case GoAway(last, code, debugData) =>
        state.HandleGoAway(last, code);
        out := Output([], [GoAwayReceived(last, code, debugData)]);
      case RstStream(sid, code) => out := OnRstStream(sid, code);
      case PushPromise(_, _, _, _, _) =>
        out := Output([GoAwayFor(PROTOCOL_ERROR)], [EngineError(PushUnsupported)]);
      case Priority(_, _) =>
      case Unknown(_, _, _, _) =>
      }
      HandledFixed(old(State()), f, decoded, State(), out);
    }

    /** `open_stream` and `build_request`. */
    method Request(r: Request) returns (sid: u32, frames: seq<H2Frame>)
      requires Valid()
      modifies this, state
      ensures Valid() && sid == old(state.nextStreamId) && (State(), frames) == SendRequest(old(State()), r)
    {
      sid := state.OpenNew();
      frames := Split(sid, r.block, r.body == [], r.priority, state.remoteSettings.maxFrameSize);
      if r.body == [] {
        state.EndLocalSide(sid);
      } else {
        var sent := BuildData(sid, r.body, true);
        frames := frames + sent;
      }
      AskFixed(old(State()), r);
    }

    /** One more frame of `process`: the chain so far grows by the step it takes. */
    method HandleNext(f: H2Frame, hpack: nat -> Option<HeaderList>, k: nat,
                      ghost es: seq<Engine>, ghost fs: seq<H2Frame>, ghost outs: seq<Output>)
      returns (out: Output, ghost es': seq<Engine>)
      requires Valid() && k == |fs| && Chain(es, fs, hpack, outs) && es[k] == State()
      modifies this, state, continuation
      ensures Valid() && Chain(es', fs + [f], hpack, outs + [out]) && es'[0] == es[0] && es'[k + 1] == State()
      ensures JoinFrames(outs + [out]) == JoinFrames(outs) + out.frames
      ensures JoinEvents(outs + [out]) == JoinEvents(outs) + out.events
    {
      out := OnFrame(f, hpack(k));
      ChainPush(es, fs, hpack, outs, f, State(), out);
      JoinPush(outs, out);
      es' := es + [State()];
    }

    /** `process`: every complete frame in the buffer is decoded and handled in order. */
    method Process(input: Buffer, hpack: nat -> Option<HeaderList>)
      returns (events: seq<H2Event>, outbound: seq<H2Frame>,
               ghost es: seq<Engine>, ghost fs: seq<H2Frame>, ghost outs: seq<Output>)
      requires Valid()
      modifies this, state, continuation, input
      ensures Valid() && Chain(es, fs, hpack, outs) && es[0] == old(State()) && es[|fs|] == State()
      ensures Reported(DecodeAll(codec.maxFrameSize, old(input.content)), fs, input.content, outs, outbound, events)
    {
      events, outbound := [], [];
      es, fs, outs := [State()], [], [];
      var open, handled := true, 0;
      ghost var scan := DecodeAll(codec.maxFrameSize, input.content);
      while open
        invariant Valid() && handled == |fs| && Chain(es, fs, hpack, outs)
        invariant es[0] == old(State()) && es[handled] == State()
        invariant open ==> outbound == JoinFrames(outs) && events == JoinEvents(outs)
                           && scan == Prepend(fs, DecodeAll(codec.maxFrameSize, input.content))
        invariant !open ==> Reported(scan, fs, input.content, outs, outbound, events)
        decreases open, |input.content|
      {
        var r := codec.DecodeStep(input, scan, fs);
        match r
        case Frame(f, _) =>
          var out;
          out, es := HandleNext(f, hpack, handled, es, fs, outs);
          fs, outs := fs + [f], outs + [out];
          outbound, events, handled := outbound + out.frames, events + out.events, handled + 1;
        case NeedMoreData(_) => open := false;
        case Error(e, _) =>
          outbound, events := outbound + [GoAwayFor(PROTOCOL_ERROR)], events + [EngineError(BadFrame(e))];
          open := false;
      }
    }
  }
}
