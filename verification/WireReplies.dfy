/** From the frame to the caller: what each inbound frame brings the request waiting on a stream, whatever
    the engine and the driver hand over in between. */
module WireReplies {
  import opened Wire
  import opened Frames
  import opened Codec
  import opened HeaderBlocks
  import opened Streams
  import opened Connection
  import opened Policy
  import opened Engine
  import opened EngineLaws
  import opened EngineTheorems
  import opened EngineObject
  import opened RequestDesk
  import opened Replies
  import opened Driver
  import opened DriverRuns
  import opened DriverTheorems
  import opened ResponseBodies
  import opened WholeBodies

  /** A failure: headers if they are still awaited, the body, and the end. */
  function Failure(p: Pending, fault: Fault): seq<Delivery> {
    if p.headers then [Head(p.rank, HeadFailed(fault)), Body(p.rank, BodyFailed(fault)), End(p.rank)]
    else [Body(p.rank, BodyFailed(fault)), End(p.rank)]
  }

  /** The end a graceful GOAWAY brings: of headers still awaited the caller is told, of a body not. */
  function CutShort(p: Pending): seq<Delivery> {
    if p.headers then [Head(p.rank, HeadFailed(GoAwayFault)), End(p.rank)] else [End(p.rank)]
  }

  function Ending(p: Pending, end: bool): seq<Delivery> {
    if end then [End(p.rank)] else []
  }

  /** The connection and the stream, if it is known, have room for a DATA frame, and the stream receives. */
  predicate Welcome(e: Engine, f: H2Frame)
    requires f.Data?
  {
    && Weight(f) <= e.send.conn.recvWindow
    && (f.streamId in e.send.conn.streams ==>
          var s := e.send.conn.streams[f.streamId];
          (s.state.Open? || s.state.HalfClosedLocal?) && Weight(f) <= s.recvWindow)
  }

  /** A DATA frame the connection has room for and its stream, which receives, has not. */
  predicate Overruns(e: Engine, f: H2Frame)
    requires f.Data?
  {
    && Weight(f) <= e.send.conn.recvWindow && f.streamId in e.send.conn.streams
    && var s := e.send.conn.streams[f.streamId];
       (s.state.Open? || s.state.HalfClosedLocal?) && Weight(f) > s.recvWindow
  }

  /** A final response's headers on this stream are complete with the frame. */
  predicate Answers(e: Engine, f: H2Frame, decoded: Option<HeaderList>, sid: u32, status: HeaderList -> nat) {
    && (f.Headers? || f.Continuation?) && decoded.Some? && sid in e.send.conn.streams
    && Push(e.assembler, f).1.Complete? && Push(e.assembler, f).1.streamId == sid
    && !(100 <= status(decoded.value) <= 199)
  }

  /** What the frame brings the caller of `sid`. */
  function Brought(e: Engine, f: H2Frame, decoded: Option<HeaderList>, p: Pending, sid: u32, status: HeaderList -> nat)
    : seq<Delivery>
  {
    match f
    case Data(s, data, endStream, _) =>
      if s != sid then []
      else if Welcome(e, f) then (if data != [] then [Body(p.rank, Chunk(data))] else []) + Ending(p, endStream)
      else if Overruns(e, f) then Failure(p, ResetFault(3))
      else []
    case RstStream(s, code) => if s == sid then Failure(p, ResetFault(code)) else []
    case GoAway(last, code, _) =>
      if code != 0 then Failure(p, GoAwayFault) else if sid > last then CutShort(p) else []
    case _ =>
      if !Answers(e, f, decoded, sid, status) then []
      else
        (if p.headers then [Head(p.rank, Response(status(decoded.value), decoded.value))] else [])
        + Ending(p, Push(e.assembler, f).1.endStream)
  }

  /** The same through the event the engine reports. */
  function RepliedTo(p: Pending, sid: u32, evs: seq<H2Event>, status: HeaderList -> nat): seq<Delivery> {
    if evs == [] then [] else Replied(p, sid, evs[0], status)
  }

  lemma DataBrings(e: Engine, f: H2Frame, p: Pending, sid: u32, status: HeaderList -> nat)
    requires ValidEngine(e) && f.Data? && 0 <= e.send.conn.recvWindow
    requires f.streamId in e.send.conn.streams ==> 0 <= e.send.conn.streams[f.streamId].recvWindow
    ensures RepliedTo(p, sid, HandleData(e, f.streamId, f.data, f.endStream, f.padding).1.events, status)
            == Brought(e, f, None, p, sid, status)
  {
    assert FlowLength(f.data, f.padding) == Weight(f);
  }

  lemma HeadersBring(e: Engine, f: H2Frame, decoded: Option<HeaderList>, p: Pending, sid: u32, status: HeaderList -> nat)
    requires f.Headers? || f.Continuation?
    ensures RepliedTo(p, sid, HandleHeaderFrame(e, f, decoded).1.events, status) == Brought(e, f, decoded, p, sid, status)
  {
  }

  lemma OtherBrings(e: Engine, f: H2Frame, decoded: Option<HeaderList>, e': Engine, out: Output, p: Pending, sid: u32,
                    status: HeaderList -> nat)
    requires ValidEngine(e) && Handled(e, f, decoded, e', out) && !f.Data? && !f.Headers? && !f.Continuation?
    ensures RepliedTo(p, sid, out.events, status) == Brought(e, f, decoded, p, sid, status)
  {
  }

  lemma FrameBrings(w: World, l: Label, w': World, p: Pending, sid: u32, status: HeaderList -> nat)
    requires Reachable(w) && Next(w, l, w') && l.Receive?
    ensures RepliedTo(p, sid, l.output.events, status) == Brought(w.engine, l.frame, l.decoded, p, sid, status)
  {
    WindowsInRange(w);
    if l.frame.Data? {
      DataBrings(w.engine, l.frame, p, sid, status);
    } else if l.frame.Headers? || l.frame.Continuation? {
      HeadersBring(w.engine, l.frame, l.decoded, p, sid, status);
    } else {
      OtherBrings(w.engine, l.frame, l.decoded, w'.engine, l.output, p, sid, status);
    }
  }

  lemma OnlyEvent(d: Desk, evs: seq<H2Event>, hash: HashOrder, status: HeaderList -> nat)
    requires |evs| == 1
    ensures OnEvents(d, evs, hash, status) == OnEvent(d, evs[0], hash, status)
  {
    assert evs[1..] == [];
  }

  lemma EventReplies(d: Desk, ev: H2Event, o: Outside, sid: u32, rank: nat)
    requires DeskInv(d) && ValidOutside(o) && Waits(d, sid, rank)
    ensures Mine(OnEvent(d, ev, o.hash, o.status).log, rank)
            == Mine(d.log, rank) + Replied(d.pending[sid], sid, ev, o.status)
  {
    assert sid in (set k | k in o.hash(d.pending));
    CallersAreIsolated(d, ev, o.hash, o.status, sid);
  }

  lemma EventsReply(d: Desk, evs: seq<H2Event>, o: Outside, sid: u32, rank: nat)
    requires DeskInv(d) && ValidOutside(o) && Waits(d, sid, rank) && |evs| <= 1
    ensures Mine(OnEvents(d, evs, o.hash, o.status).log, rank)
            == Mine(d.log, rank) + RepliedTo(d.pending[sid], sid, evs, o.status)
  {
    if evs != [] {
      OnlyEvent(d, evs, o.hash, o.status);
      EventReplies(d, evs[0], o, sid, rank);
    }
  }

  /** In every step of every run, a frame brings a waiting caller exactly what the frame itself and the state
      of the caller's own stream call for: its data, its headers, the code of its reset, and a GOAWAY by
      the frame's own last id and code. */
  lemma CallerGets(w: World, l: Label, w': World, d: Desk, o: Outside, sid: u32, rank: nat)
    requires Reachable(w) && Next(w, l, w') && l.Receive?
    requires DeskInv(d) && ValidOutside(o) && Waits(d, sid, rank)
    ensures Mine(After(d, l, o).log, rank)
            == Mine(d.log, rank) + Brought(w.engine, l.frame, l.decoded, d.pending[sid], sid, o.status)
  {
    OneEvent(w.engine, l.frame, l.decoded, w'.engine, l.output);
    EventsReply(d, l.output.events, o, sid, rank);
    FrameBrings(w, l, w', d.pending[sid], sid, o.status);
  }
}
