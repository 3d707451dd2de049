/** The sans-I/O engine (lkh2/src/engine.rs): what each inbound frame and each request does to the
    engine's state, the frames it emits and the events it reports. */
module Engine {
  import opened Wire
  import opened Frames
  import opened Codec
  import opened HeaderBlocks
  import opened Streams
  import opened Connection
  import opened Sender
  import opened Policy

  type HeaderList = seq<(string, string)>

  datatype EngineFault =
    | SettingsFault | FlowControlFault | AssemblyError(fault: AssemblyFault) | CompressionFault
    | UnknownStream | ZeroIncrement | PushUnsupported | BadFrame(error: CodecError)

  datatype H2Event =
    | SettingsAcked
    | LocalSettingsAcked
    | ResponseHeaders(streamId: u32, headers: HeaderList, endStream: bool)
    | ResponseData(streamId: u32, data: bytes, endStream: bool)
    | StreamReset(streamId: u32, errorCode: u32)
    | PingAck
    | GoAwayReceived(lastStreamId: u32, errorCode: u32, debugData: bytes)
    | WindowUpdated(streamId: u32, increment: u32)
    | EngineError(fault: EngineFault)

  datatype Output = Output(frames: seq<H2Frame>, events: seq<H2Event>)

  datatype Engine = Engine(
    send: SendState, assembler: Assembler, policy: FlowPolicy, accumulated: Accumulated,
    initialRecvWindow: u32, settingsReceived: bool)
  {
    function WithConn(c: Conn): Engine {
      this.(send := send.(conn := c))
    }
  }

  const PROTOCOL_ERROR: u32 := 1
  const FLOW_CONTROL_ERROR: u32 := 3
  const STREAM_CLOSED: u32 := 5
  const COMPRESSION_ERROR: u32 := 9

  /** `make_goaway`: the last peer stream id is never advanced, so it is always zero. */
  function GoAwayFor(code: u32): H2Frame {
    GoAway(0, code, [])
  }

  function Fail(e: Engine, code: u32, fault: EngineFault): (Engine, Output) {
    (e, Output([GoAwayFor(code)], [EngineError(fault)]))
  }

  /** `emit_rst_stream` marks the stream closed but leaves it in the table. */
  function EmitRst(e: Engine, sid: u32, code: u32, events: seq<H2Event>): (Engine, Output) {
    (e.WithConn(ResetStream(e.send.conn, sid)), Output([RstStream(sid, code)], events))
  }

  /** `client_with_policies`. */
  function ClientEngine(profile: seq<SettingsParameter>, windowUpdate: u32, blockLimit: nat, policy: FlowPolicy)
    : Engine
  {
    Engine(SendState(ClientConn(profile, windowUpdate), []), Assembler(map[], None, blockLimit), policy, map[],
           Min(DEFAULT_INITIAL_WINDOW + windowUpdate, 0xFFFF_FFFF), false)
  }

  predicate ValidEngine(e: Engine) {
    ValidSettings(e.send.conn.remote)
  }

  // ---- Inbound frames ---------------------------------------------------------------------------

  function HandleWindowUpdate(e: Engine, sid: u32, increment: u32): (Engine, Output)
    requires ValidEngine(e)
  {
    var c := e.send.conn;
    if increment == 0 then
      if sid == 0 then Fail(e, PROTOCOL_ERROR, ZeroIncrement) else EmitRst(e, sid, PROTOCOL_ERROR, [])
    else if sid == 0 then
      match UpdateConnSend(c, increment)
      case None => Fail(e, FLOW_CONTROL_ERROR, FlowControlFault)
      case Some(c') => DrainAfterUpdate(e.WithConn(c'), sid, increment)
    else if sid in c.streams then
      match UpdateSend(c.streams[sid], increment)
      case None => EmitRst(e, sid, FLOW_CONTROL_ERROR, [EngineError(FlowControlFault)])
      case Some(s) => DrainAfterUpdate(e.WithConn(WithStream(c, sid, s)), sid, increment)
    else DrainAfterUpdate(e, sid, increment)
  }

  function DrainAfterUpdate(e: Engine, sid: u32, increment: u32): (Engine, Output)
    requires ValidEngine(e)
  {
    var (s, sent) := Drain(e.send.(pending := []), e.send.pending);
    (e.(send := s), Output(sent, [WindowUpdated(sid, increment)]))
  }

  function HandleRstStream(e: Engine, sid: u32, code: u32): (Engine, Output) {
    (e.WithConn(Cleanup(ResetStream(e.send.conn, sid))), Output([], [StreamReset(sid, code)]))
  }

  function FlowLength(data: bytes, padding: Option<byte>): nat {
    |data| + (if padding.Some? then 1 + padding.value else 0)
  }

  /** Credit for `len` received bytes on the connection; an overflowing update is ignored. */
  function CreditConn(e: Engine, len: nat): (Engine, seq<H2Frame>)
    requires ValidEngine(e)
  {
    var (acc, increment) := OnDataReceived(e.policy, e.accumulated, 0, len, e.initialRecvWindow);
    var c := e.send.conn;
    var c' := if increment.Some? && UpdateConnRecv(c, increment.value).Some?
              then UpdateConnRecv(c, increment.value).value else c;
    (e.WithConn(c').(accumulated := acc), CreditFrame(0, increment))
  }

  /** The same on the stream, if it is known. */
  function CreditStream(e: Engine, sid: u32, len: nat, initial: u32): (Engine, seq<H2Frame>)
    requires ValidEngine(e)
  {
    var (acc, increment) := OnDataReceived(e.policy, e.accumulated, sid, len, initial);
    var c := e.send.conn;
    var c' := if increment.Some? && sid in c.streams && UpdateRecv(c.streams[sid], increment.value).Some?
              then WithStream(c, sid, UpdateRecv(c.streams[sid], increment.value).value) else c;
    (e.WithConn(c').(accumulated := acc), CreditFrame(sid, increment))
  }

  /** Credit for a DATA frame: the connection first, then its stream. */
  function ReturnCredit(e: Engine, sid: u32, len: nat, streamInitial: u32): (Engine, seq<H2Frame>)
    requires ValidEngine(e)
  {
    if len == 0 then (e, [])
    else
      var (e1, conn) := CreditConn(e, len);
      var (e2, stream) := CreditStream(e1, sid, len, streamInitial);
      (e2, conn + stream)
  }

  function CreditFrame(sid: u32, increment: Option<nat>): seq<H2Frame> {
    match increment
    case None => []
    case Some(n) => [WindowUpdate(sid, n % 0x1_0000_0000)]
  }

  function HandleData(e: Engine, sid: u32, data: bytes, endStream: bool, padding: Option<byte>): (Engine, Output)
    requires ValidEngine(e)
  {
    var len := FlowLength(data, padding);
    match ConsumeConnRecv(e.send.conn, len)
    case None => Fail(e, FLOW_CONTROL_ERROR, FlowControlFault)
    case Some(c) =>
      if sid in c.streams && !c.streams[sid].state.CanReceive() then
        EmitRst(e.WithConn(c), sid, STREAM_CLOSED, [])
      else if sid in c.streams && ConsumeRecv(c.streams[sid], len).None? then
        EmitRst(e.WithConn(c), sid, FLOW_CONTROL_ERROR, [StreamReset(sid, FLOW_CONTROL_ERROR)])
      else AcceptData(e, c, sid, data, endStream, len)
  }

  /** The part of `handle_data` after both windows took the frame. */
  function AcceptData(e: Engine, c: Conn, sid: u32, data: bytes, endStream: bool, len: nat): (Engine, Output)
    requires ValidEngine(e) && c.remote == e.send.conn.remote
    requires sid in c.streams ==> ConsumeRecv(c.streams[sid], len).Some?
  {
    var c1 := if sid in c.streams
              then var s := ConsumeRecv(c.streams[sid], len).value;
                   WithStream(c, sid, if endStream then RecvEndStream(s) else s)
              else c;
    var initial := if sid in c.streams then c.streams[sid].initialWindow else DEFAULT_INITIAL_WINDOW;
    var (e1, credit) := ReturnCredit(e.WithConn(c1), sid, len, initial);
    var e2 := if endStream
              then e1.WithConn(Cleanup(e1.send.conn)).(accumulated := OnStreamClosed(e1.policy, e1.accumulated, sid))
              else e1;
    (e2, Output(credit, [ResponseData(sid, data, endStream)]))
  }

  /** `complete_headers`; `decoded` is what the HPACK decoder made of the block. */
  function CompleteHeaders(e: Engine, sid: u32, endStream: bool, decoded: Option<HeaderList>): (Engine, Output) {
    var c := e.send.conn;
    match decoded
    case None => Fail(e, COMPRESSION_ERROR, CompressionFault)
    case Some(headers) =>
      if sid !in c.streams then (e, Output([], [EngineError(UnknownStream)]))
      else
        (if endStream then e.WithConn(WithStream(c, sid, RecvEndStream(c.streams[sid]))) else e,
         Output([], [ResponseHeaders(sid, headers, endStream)]))
  }

  function HandleHeaderFrame(e: Engine, f: H2Frame, decoded: Option<HeaderList>): (Engine, Output)
    requires f.Headers? || f.Continuation?
  {
    var (a, r) := Push(e.assembler, f);
    var e1 := e.(assembler := a);
    match r
    case Incomplete => (e1, Output([], []))
    case Complete(sid, _, endStream) => CompleteHeaders(e1, sid, endStream, decoded)
    case Rejected(fault) => Fail(e1, PROTOCOL_ERROR, AssemblyError(fault))
  }

  /** `handle_settings`; a failed frame has been applied in part. */
  ghost predicate SettingsHandled(e: Engine, ack: bool, ps: seq<SettingsParameter>, e': Engine, out: Output) {
    if ack then e' == e.WithConn(AckSettings(e.send.conn)) && out == Output([], [LocalSettingsAcked])
    else
      exists c', ok :: SettingsApplied(e.send.conn, ps, c', ok)
                       && (e', out) == SettingsOutcome(e, c', ok)
  }

  function SettingsOutcome(e: Engine, c': Conn, ok: bool): (Engine, Output) {
    if ok then (e.WithConn(c').(settingsReceived := true), Output([Settings(true, [])], [SettingsAcked]))
    else Fail(e.WithConn(c'), PROTOCOL_ERROR, SettingsFault)
  }

  /** `handle_frame`: the new state and output an inbound frame may lead to. Only SETTINGS leaves a
      choice, through the hash order of the table. */
  ghost predicate Handled(e: Engine, f: H2Frame, decoded: Option<HeaderList>, e': Engine, out: Output)
    requires ValidEngine(e)
  {
    match f
    case Settings(ack, ps) => SettingsHandled(e, ack, ps, e', out)
    case _ => (e', out) == HandleOther(e, f, decoded)
  }

  function HandleOther(e: Engine, f: H2Frame, decoded: Option<HeaderList>): (Engine, Output)
    requires ValidEngine(e) && !f.Settings?
  {
    match f
    case Headers(_, _, _, _, _, _) => HandleHeaderFrame(e, f, decoded)
    case Continuation(_, _, _) => HandleHeaderFrame(e, f, decoded)
    case Data(sid, data, endStream, padding) => HandleData(e, sid, data, endStream, padding)
    case WindowUpdate(sid, increment) => HandleWindowUpdate(e, sid, increment)
    case RstStream(sid, code) => HandleRstStream(e, sid, code)
    case Ping(ack, data) => (e, if ack then Output([], []) else Output([Ping(true, data)], [PingAck]))
    case GoAway(last, code, debugData) =>
      (e.WithConn(RecordGoAway(e.send.conn, last, code)), Output([], [GoAwayReceived(last, code, debugData)]))
    case PushPromise(_, _, _, _, _) => Fail(e, PROTOCOL_ERROR, PushUnsupported)
    case Priority(_, _) => (e, Output([], []))
    case Unknown(_, _, _, _) => (e, Output([], []))
  }

  // ---- Requests ---------------------------------------------------------------------------------

  /** What a caller asks for: the encoded header block, the priority fields and the body. */
  datatype Request = Request(block: bytes, priority: Option<PrioritySpec>, body: bytes)

  /** `open_stream` followed by `build_request` on the new stream. */
  function SendRequest(e: Engine, r: Request): (Engine, seq<H2Frame>)
    requires ValidEngine(e)
  {
    var sid := e.send.conn.nextStreamId;
    var c1 := OpenStream(e.send.conn);
    var head := SplitBlock(sid, r.block, r.body == [], r.priority, c1.remote.maxFrameSize);
    if r.body == [] then (e.WithConn(EndLocal(c1, sid)), head)
    else
      var (s, sent) := BuildData(e.send.(conn := c1), sid, r.body, true);
      (e.(send := s), head + sent)
  }
}
