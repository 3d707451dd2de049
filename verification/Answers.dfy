/** How the engine answers what it receives: which frames are connection errors, which are stream errors, with
    which code, and which streams leave the table. */
module Answers {
  import opened Wire
  import opened Frames
  import opened Codec
  import opened HeaderBlocks
  import opened Streams
  import opened Connection
  import opened Sender
  import opened Policy
  import opened Engine
  import opened Runs
  import opened SendRuns
  import opened EngineRuns
  import opened EngineLaws
  import opened EngineTheorems
  import opened StreamCredit
  import opened History

  // ---- Errors -------------------------------------------------------------------------------------

  /** Some stream's send window would pass 2^31-1 under this initial size. */
  predicate Overflows(t: Table, size: u32) {
    exists sid :: sid in t && t[sid].sendWindow + size - t[sid].initialWindow > 0x7FFF_FFFF
  }

  /** The initial size in force after these parameters. */
  function SizeAfter(c: Conn, ps: seq<SettingsParameter>): u32 {
    Or(LastLegal(ps, 4), c.remote.initialWindowSize)
  }

  /** A frame that ends the connection, and the error code for it: PROTOCOL_ERROR is 1, FLOW_CONTROL_ERROR 3
      and COMPRESSION_ERROR 9. */
  function ConnError(e: Engine, f: H2Frame, decoded: Option<HeaderList>): Option<u32> {
    var c := e.send.conn;
    match f
    case Data(_, _, _, _) => if Weight(f) > c.recvWindow then Some(3) else None
    case WindowUpdate(sid, n) =>
      if sid != 0 then None
      else if n == 0 then Some(1)
      else if c.sendWindow + n > 0x7FFF_FFFF then Some(3)
      else None
    case Settings(ack, ps) =>
      if !ack && ((exists i :: 0 <= i < |ps| && !Legal(ps[i])) || Overflows(c.streams, SizeAfter(c, ps))) then Some(1) else None
    case PushPromise(_, _, _, _, _) => Some(1)
    case Headers(_, _, _, _, _, _) => HeaderError(Push(e.assembler, f).1, decoded)
    case Continuation(_, _, _) => HeaderError(Push(e.assembler, f).1, decoded)
    case _ => None
  }

  function HeaderError(r: AssemblyResult, decoded: Option<HeaderList>): Option<u32> {
    match r
    case Rejected(_) => Some(1)
    case Complete(_, _, _) => if decoded.None? then Some(9) else None
    case Incomplete => None
  }

  /** A frame that ends its stream only; STREAM_CLOSED is 5. */
  function StreamError(e: Engine, f: H2Frame): Option<u32> {
    var t := e.send.conn.streams;
    match f
    case Data(sid, _, _, _) =>
      if sid !in t then None
      else if !(t[sid].state.Open? || t[sid].state.HalfClosedLocal?) then Some(5)
      else if Weight(f) > t[sid].recvWindow then Some(3)
      else None
    case WindowUpdate(sid, n) =>
      if sid == 0 then None
      else if n == 0 then Some(1)
      else if sid in t && t[sid].sendWindow + n > 0x7FFF_FFFF then Some(3)
      else None
    case _ => None
  }

  /** No error among these frames. */
  predicate Faultless(fs: seq<H2Frame>) {
    forall i :: 0 <= i < |fs| ==> !fs[i].GoAway? && !fs[i].RstStream?
  }

  /** A connection error is answered with GOAWAY alone, a stream error with RST_STREAM alone, SETTINGS taken
      with its acknowledgement alone, and nothing else with any of these. */
  ghost predicate Fitting(e: Engine, f: H2Frame, decoded: Option<HeaderList>, fs: seq<H2Frame>) {
    if ConnError(e, f, decoded).Some? then fs == [GoAway(0, ConnError(e, f, decoded).value, [])]
    else if StreamError(e, f).Some? then (f.Data? || f.WindowUpdate?) && fs == [RstStream(f.streamId, StreamError(e, f).value)]
    else if f.Settings? && !f.ack then fs == [Settings(true, [])]
    else Faultless(fs) && forall i :: 0 <= i < |fs| ==> !fs[i].Settings?
  }

  lemma DataAnswered(e: Engine, f: H2Frame)
    requires ValidEngine(e) && f.Data? && 0 <= e.send.conn.recvWindow
    requires f.streamId in e.send.conn.streams ==> 0 <= e.send.conn.streams[f.streamId].recvWindow
    ensures Fitting(e, f, None, HandleData(e, f.streamId, f.data, f.endStream, f.padding).1.frames)
  {
    var len := FlowLength(f.data, f.padding);
    assert len == Weight(f);
    var r := ConsumeConnRecv(e.send.conn, len);
    if r.Some? && !Rejects(r.value, f.streamId, len) {
      var c := r.value;
      var c1 := if f.streamId in c.streams
                then var s := ConsumeRecv(c.streams[f.streamId], len).value;
                     WithStream(c, f.streamId, if f.endStream then RecvEndStream(s) else s)
                else c;
      CreditKinds(e.WithConn(c1), f.streamId, len,
                  if f.streamId in c.streams then c.streams[f.streamId].initialWindow else DEFAULT_INITIAL_WINDOW);
    }
  }

  lemma UpdateAnswered(e: Engine, f: H2Frame)
    requires ValidEngine(e) && f.WindowUpdate?
    ensures Fitting(e, f, None, HandleWindowUpdate(e, f.streamId, f.increment).1.frames)
  {
    var c := e.send.conn;
    if f.streamId == 0 && UpdateConnSend(c, f.increment).Some? {
      DrainFrames(SendState(UpdateConnSend(c, f.increment).value, []), e.send.pending);
    } else if f.streamId in c.streams && UpdateSend(c.streams[f.streamId], f.increment).Some? {
      DrainFrames(SendState(WithStream(c, f.streamId, UpdateSend(c.streams[f.streamId], f.increment).value), []), e.send.pending);
    } else {
      DrainFrames(SendState(c, []), e.send.pending);
    }
  }

  lemma SettingsAnswered(e: Engine, f: H2Frame, e': Engine, out: Output)
    requires f.Settings? && SettingsHandled(e, f.ack, f.settings, e', out)
    ensures Fitting(e, f, None, out.frames)
  {
    if !f.ack {
      var c', ok :| SettingsApplied(e.send.conn, f.settings, c', ok) && (e', out) == SettingsOutcome(e, c', ok);
      SettingsVerdict(e.send.conn, f.settings, c', ok);
      ParamsSet(e.send.conn.remote, f.settings);
      assert f.settings[..|f.settings|] == f.settings;
    }
  }

  lemma HeaderAnswered(e: Engine, f: H2Frame, decoded: Option<HeaderList>)
    requires f.Headers? || f.Continuation?
    ensures Fitting(e, f, decoded, HandleHeaderFrame(e, f, decoded).1.frames)
  {
  }

  /** Exactly which frames are errors, and how each is answered, in every step of every run. */
  lemma ErrorsAnswered(w: World, f: H2Frame, decoded: Option<HeaderList>, o: Output, w': World)
    requires Reachable(w) && Next(w, Receive(f, decoded, o), w')
    ensures Fitting(w.engine, f, decoded, o.frames)
  {
    WindowsInRange(w);
    if f.Data? {
      DataAnswered(w.engine, f);
    } else if f.WindowUpdate? {
      UpdateAnswered(w.engine, f);
    } else if f.Settings? {
      SettingsAnswered(w.engine, f, w'.engine, o);
    } else if f.Headers? || f.Continuation? {
      HeaderAnswered(w.engine, f, decoded);
    }
  }

  // ---- The table ----------------------------------------------------------------------------------

  /** RST_STREAM, or DATA with END_STREAM that is no error. */
  predicate Ending(e: Engine, f: H2Frame) {
    f.RstStream? || (f.Data? && f.endStream && ConnError(e, f, None).None? && StreamError(e, f).None?)
  }

  /** Such a frame leaves nothing to send or receive on the stream, or there was nothing before it. */
  predicate Over(e: Engine, f: H2Frame, sid: u32)
    requires sid in e.send.conn.streams && (f.RstStream? || f.Data?)
  {
    var s := e.send.conn.streams[sid].state;
    s.Closed? || (sid == f.streamId && (f.RstStream? || s.HalfClosedLocal?))
  }

  /** The streams in the table afterwards. */
  ghost predicate TableIs(e: Engine, f: H2Frame, e': Engine) {
    forall sid :: sid in e'.send.conn.streams <==> sid in e.send.conn.streams && !(Ending(e, f) && Over(e, f, sid))
  }

  lemma CreditTable(e: Engine, on: u32, len: nat, initial: u32)
    requires ValidEngine(e)
    ensures var t, t' := e.send.conn.streams, ReturnCredit(e, on, len, initial).0.send.conn.streams;
            t'.Keys == t.Keys && forall sid :: sid in t ==> t'[sid].state == t[sid].state
  {
  }

  lemma SameKeys(e: Engine, f: H2Frame, e': Engine)
    requires !Ending(e, f) && e'.send.conn.streams.Keys == e.send.conn.streams.Keys
    ensures TableIs(e, f, e')
  {
  }

  lemma AcceptTable(e: Engine, c: Conn, on: u32, data: bytes, endStream: bool, len: nat)
    requires ValidEngine(e) && ConsumeConnRecv(e.send.conn, len) == Some(c) && !Rejects(c, on, len)
    ensures var e', t := AcceptData(e, c, on, data, endStream, len).0, e.send.conn.streams;
            && (forall sid :: sid in e'.send.conn.streams
                              <==> sid in t && !(endStream && (t[sid].state.Closed? || (sid == on && t[sid].state.HalfClosedLocal?))))
            && (endStream && e.policy.Threshold? ==> Held(e'.accumulated, on) == 0)
  {
    var c1 := if on in c.streams
              then var s := ConsumeRecv(c.streams[on], len).value;
                   WithStream(c, on, if endStream then RecvEndStream(s) else s)
              else c;
    var initial := if on in c.streams then c.streams[on].initialWindow else DEFAULT_INITIAL_WINDOW;
    CreditTable(e.WithConn(c1), on, len, initial);
    ReturnCreditFixed(e.WithConn(c1), on, len, initial);
  }

  lemma DataTable(e: Engine, f: H2Frame)
    requires ValidEngine(e) && f.Data? && 0 <= e.send.conn.recvWindow
    requires f.streamId in e.send.conn.streams ==> 0 <= e.send.conn.streams[f.streamId].recvWindow
    ensures var e' := HandleData(e, f.streamId, f.data, f.endStream, f.padding).0;
            && TableIs(e, f, e')
            && (Ending(e, f) && e.policy.Threshold? ==> Held(e'.accumulated, f.streamId) == 0)
  {
    var len := FlowLength(f.data, f.padding);
    assert len == Weight(f);
    var r := ConsumeConnRecv(e.send.conn, len);
    if r.Some? && !Rejects(r.value, f.streamId, len) {
      AcceptTable(e, r.value, f.streamId, f.data, f.endStream, len);
    } else {
      SameKeys(e, f, HandleData(e, f.streamId, f.data, f.endStream, f.padding).0);
    }
  }

  lemma {:induction false} DrainTable(s: SendState, todo: seq<PendingBody>)
    requires s.conn.remote.maxFrameSize > 0
    ensures Drain(s, todo).0.conn.streams.Keys == s.conn.streams.Keys
    decreases |todo|
  {
    if todo != [] {
      var t := BuildData(s, todo[0].streamId, todo[0].data, todo[0].endStream).0;
      if todo[0].data != [] {
        BuildDataConn(s, todo[0].streamId, todo[0].data, todo[0].endStream);
      }
      DrainTable(t, todo[1..]);
    }
  }

  lemma UpdateTable(e: Engine, on: u32, increment: u32)
    requires ValidEngine(e)
    ensures HandleWindowUpdate(e, on, increment).0.send.conn.streams.Keys == e.send.conn.streams.Keys
  {
    var c := e.send.conn;
    if increment != 0 && on == 0 && UpdateConnSend(c, increment).Some? {
      DrainTable(SendState(UpdateConnSend(c, increment).value, []), e.send.pending);
    } else if increment != 0 && on != 0 && on in c.streams && UpdateSend(c.streams[on], increment).Some? {
      DrainTable(SendState(WithStream(c, on, UpdateSend(c.streams[on], increment).value), []), e.send.pending);
    } else if increment != 0 && on != 0 && on !in c.streams {
      DrainTable(SendState(c, []), e.send.pending);
    }
  }

  lemma SettingsTable(e: Engine, ack: bool, ps: seq<SettingsParameter>, e': Engine, out: Output)
    requires SettingsHandled(e, ack, ps, e', out)
    ensures e'.send.conn.streams.Keys == e.send.conn.streams.Keys
  {
    if !ack {
      var c', ok :| SettingsApplied(e.send.conn, ps, c', ok) && (e', out) == SettingsOutcome(e, c', ok);
      SettingsVerdict(e.send.conn, ps, c', ok);
    }
  }

  /** The table in every step of every run: RST_STREAM and the end of a response clear out every stream that is
      over, and only those; no other frame takes a stream out, and none puts one in. The end of a response
      leaves nothing held back on its stream. */
  lemma TableCleared(w: World, f: H2Frame, decoded: Option<HeaderList>, o: Output, w': World)
    requires Reachable(w) && Next(w, Receive(f, decoded, o), w')
    ensures TableIs(w.engine, f, w'.engine)
    ensures f.Data? && Ending(w.engine, f) && w.engine.policy.Threshold? ==> Held(w'.engine.accumulated, f.streamId) == 0
  {
    WindowsInRange(w);
    if f.Data? {
      DataTable(w.engine, f);
    } else if !f.RstStream? {
      if f.WindowUpdate? {
        UpdateTable(w.engine, f.streamId, f.increment);
      } else if f.Settings? {
        SettingsTable(w.engine, f.ack, f.settings, w'.engine, o);
      }
      SameKeys(w.engine, f, w'.engine);
    }
  }
}
