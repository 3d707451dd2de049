/** Engine and driver on who still waits: over whole runs, exactly when a stream the driver keeps a caller
    waiting for is one on which the engine still receives. */
module Waiters {
  import opened Wire
  import opened Frames
  import opened Codec
  import opened Streams
  import opened Connection
  import opened Sender
  import opened SendRuns
  import opened Policy
  import opened Engine
  import opened EngineLaws
  import opened EngineTheorems
  import opened EngineObject
  import opened StreamCredit
  import opened RequestDesk
  import opened Replies
  import opened Driver
  import opened DriverRuns
  import opened DriverTheorems
  import opened ResponseBodies
  import opened WholeBodies
  import opened WireReplies
  import opened CompleteResponses

  // ---- The engine's side --------------------------------------------------------------------------

  /** The same streams receive. */
  predicate SameListeners(c: Conn, c': Conn) {
    forall sid :: Listens(c', sid) <==> Listens(c, sid)
  }

  lemma BuildListeners(s: SendState, on: u32, data: bytes, fin: bool)
    requires s.conn.remote.maxFrameSize > 0
    ensures SameListeners(s.conn, BuildData(s, on, data, fin).0.conn)
    ensures BuildData(s, on, data, fin).0.conn.remote == s.conn.remote
  {
    if data != [] {
      BuildDataConn(s, on, data, fin);
    }
  }

  lemma {:induction false} DrainListeners(s: SendState, todo: seq<PendingBody>)
    requires s.conn.remote.maxFrameSize > 0
    ensures SameListeners(s.conn, Drain(s, todo).0.conn)
    decreases |todo|
  {
    if todo != [] {
      BuildListeners(s, todo[0].streamId, todo[0].data, todo[0].endStream);
      DrainListeners(BuildData(s, todo[0].streamId, todo[0].data, todo[0].endStream).0, todo[1..]);
    }
  }

  predicate ResetOn(f: H2Frame, sid: u32) {
    f.RstStream? && f.streamId == sid
  }

  /** The events after which nothing more comes on a stream. */
  predicate LastOn(ev: H2Event, sid: u32) {
    || (ev.StreamReset? && ev.streamId == sid)
    || (ev.ResponseData? && ev.streamId == sid && ev.endStream)
    || (ev.ResponseHeaders? && ev.streamId == sid && ev.endStream)
  }

  /** An output that closes the stream's inbound side. */
  predicate Stops(out: Output, sid: u32) {
    || (exists i :: 0 <= i < |out.frames| && ResetOn(out.frames[i], sid))
    || (exists i :: 0 <= i < |out.events| && LastOn(out.events[i], sid))
  }

  /** The stream receives after the step exactly when it did before and the output did not close it. */
  predicate StopsShown(c: Conn, c': Conn, out: Output, sid: u32) {
    Listens(c', sid) <==> Listens(c, sid) && !Stops(out, sid)
  }

  lemma NothingStops(c: Conn, c': Conn, out: Output, sid: u32)
    requires SameListeners(c, c') && (forall i :: 0 <= i < |out.frames| ==> !out.frames[i].RstStream?)
    requires forall i :: 0 <= i < |out.events| ==> !LastOn(out.events[i], sid)
    ensures StopsShown(c, c', out, sid)
  {
  }

  lemma RstStops(e: Engine, on: u32, code: u32, events: seq<H2Event>, sid: u32)
    requires forall i :: 0 <= i < |events| ==> LastOn(events[i], sid) ==> on == sid
    ensures StopsShown(e.send.conn, EmitRst(e, on, code, events).0.send.conn, EmitRst(e, on, code, events).1, sid)
  {
    var out := EmitRst(e, on, code, events).1;
    assert ResetOn(out.frames[0], on);
  }

  lemma UpdateStops(e: Engine, on: u32, increment: u32, sid: u32)
    requires ValidEngine(e)
    ensures StopsShown(e.send.conn, HandleWindowUpdate(e, on, increment).0.send.conn,
                       HandleWindowUpdate(e, on, increment).1, sid)
  {
    var c := e.send.conn;
    var (e', out) := HandleWindowUpdate(e, on, increment);
    if increment == 0 && on != 0 {
      RstStops(e, on, PROTOCOL_ERROR, [], sid);
    } else if increment != 0 && on != 0 && on in c.streams && UpdateSend(c.streams[on], increment).None? {
      RstStops(e, on, FLOW_CONTROL_ERROR, [EngineError(FlowControlFault)], sid);
    } else if increment == 0 || (on == 0 && UpdateConnSend(c, increment).None?) {
      NothingStops(c, e'.send.conn, out, sid);
    } else {
      var c' := if on == 0 then UpdateConnSend(c, increment).value
                else if on in c.streams then WithStream(c, on, UpdateSend(c.streams[on], increment).value)
                else c;
      DrainListeners(SendState(c', []), e.send.pending);
      DrainFrames(SendState(c', []), e.send.pending);
      NothingStops(c, e'.send.conn, out, sid);
    }
  }

  lemma CreditStreamListeners(e: Engine, on: u32, len: nat, initial: u32)
    requires ValidEngine(e)
    ensures SameListeners(e.send.conn, CreditStream(e, on, len, initial).0.send.conn)
  {
  }

  lemma CreditListeners(e: Engine, on: u32, len: nat, initial: u32)
    requires ValidEngine(e)
    ensures SameListeners(e.send.conn, ReturnCredit(e, on, len, initial).0.send.conn)
    ensures forall i :: 0 <= i < |ReturnCredit(e, on, len, initial).1| ==> ReturnCredit(e, on, len, initial).1[i].WindowUpdate?
  {
    if len > 0 {
      CreditStreamListeners(CreditConn(e, len).0, on, len, initial);
    }
  }

  lemma AcceptStops(e: Engine, c: Conn, on: u32, data: bytes, endStream: bool, len: nat, sid: u32)
    requires ValidEngine(e) && ConsumeConnRecv(e.send.conn, len) == Some(c) && !Rejects(c, on, len)
    ensures StopsShown(e.send.conn, AcceptData(e, c, on, data, endStream, len).0.send.conn,
                       AcceptData(e, c, on, data, endStream, len).1, sid)
  {
    var c1 := if on in c.streams
              then var s := ConsumeRecv(c.streams[on], len).value;
                   WithStream(c, on, if endStream then RecvEndStream(s) else s)
              else c;
    var initial := if on in c.streams then c.streams[on].initialWindow else DEFAULT_INITIAL_WINDOW;
    CreditListeners(e.WithConn(c1), on, len, initial);
    var out := AcceptData(e, c, on, data, endStream, len).1;
    assert out.events[0] == ResponseData(on, data, endStream);
    assert Listens(c1, sid) <==> Listens(c, sid) && !(on == sid && endStream);
  }

  lemma DataStops(e: Engine, on: u32, data: bytes, endStream: bool, padding: Option<byte>, sid: u32)
    requires ValidEngine(e)
    ensures StopsShown(e.send.conn, HandleData(e, on, data, endStream, padding).0.send.conn,
                       HandleData(e, on, data, endStream, padding).1, sid)
  {
    var len := FlowLength(data, padding);
    match ConsumeConnRecv(e.send.conn, len)
    case None => NothingStops(e.send.conn, e.send.conn, HandleData(e, on, data, endStream, padding).1, sid);
    case Some(c) =>
      if !Rejects(c, on, len) {
        AcceptStops(e, c, on, data, endStream, len, sid);
      } else {
        RstStops(e.WithConn(c), on, STREAM_CLOSED, [], sid);
        RstStops(e.WithConn(c), on, FLOW_CONTROL_ERROR, [StreamReset(on, FLOW_CONTROL_ERROR)], sid);
      }
  }

  lemma SettingsStops(e: Engine, ack: bool, ps: seq<SettingsParameter>, e': Engine, out: Output, sid: u32)
    requires SettingsHandled(e, ack, ps, e', out)
    ensures StopsShown(e.send.conn, e'.send.conn, out, sid)
  {
    if !ack {
      var c', ok :| SettingsApplied(e.send.conn, ps, c', ok) && (e', out) == SettingsOutcome(e, c', ok);
      var (remote, all) := ApplyParams(e.send.conn.remote, ps);
      if all {
        var done: set<u32> :| VisitEnds(e.send.conn, remote, done, c', ok);
      }
    }
    NothingStops(e.send.conn, e'.send.conn, out, sid);
  }

  lemma HeaderStops(e: Engine, f: H2Frame, decoded: Option<HeaderList>, sid: u32)
    requires f.Headers? || f.Continuation?
    ensures StopsShown(e.send.conn, HandleHeaderFrame(e, f, decoded).0.send.conn, HandleHeaderFrame(e, f, decoded).1, sid)
  {
    var (e', out) := HandleHeaderFrame(e, f, decoded);
    if |out.events| == 1 && out.events[0].ResponseHeaders? {
      assert LastOn(out.events[0], sid) <==> out.events[0].streamId == sid && out.events[0].endStream;
    } else {
      NothingStops(e.send.conn, e'.send.conn, out, sid);
    }
  }

  lemma ResetStops(e: Engine, on: u32, code: u32, sid: u32)
    ensures StopsShown(e.send.conn, HandleRstStream(e, on, code).0.send.conn, HandleRstStream(e, on, code).1, sid)
  {
    assert HandleRstStream(e, on, code).1.events[0] == StreamReset(on, code);
  }

  /** Whatever the frame, what the engine puts out shows exactly which streams stopped receiving. */
  lemma FrameStops(e: Engine, f: H2Frame, decoded: Option<HeaderList>, e': Engine, out: Output, sid: u32)
    requires ValidEngine(e) && Handled(e, f, decoded, e', out)
    ensures StopsShown(e.send.conn, e'.send.conn, out, sid)
  {
    if f.WindowUpdate? {
      UpdateStops(e, f.streamId, f.increment, sid);
    } else if f.Data? {
      DataStops(e, f.streamId, f.data, f.endStream, f.padding, sid);
    } else if f.Settings? {
      SettingsStops(e, f.ack, f.settings, e', out, sid);
    } else if f.Headers? || f.Continuation? {
      HeaderStops(e, f, decoded, sid);
    } else if f.RstStream? {
      ResetStops(e, f.streamId, f.errorCode, sid);
    } else {
      NothingStops(e.send.conn, e'.send.conn, out, sid);
    }
  }

  // ---- The driver's side --------------------------------------------------------------------------

  /** Final headers with END_STREAM end the waiting; interim ones do not. */
  predicate InterimEnd(ev: H2Event, o: Outside, sid: u32) {
    ev.ResponseHeaders? && ev.streamId == sid && ev.endStream && Interim(o.status(ev.headers))
  }

  /** The frame closes the stream's inbound side and the caller is not told: the engine resets the stream
      itself, or an interim response carries END_STREAM. */
  predicate Silences(l: Label, o: Outside, sid: u32) {
    && l.Receive?
    && (|| (exists i :: 0 <= i < |l.output.frames| && ResetOn(l.output.frames[i], sid))
        || (exists i :: 0 <= i < |l.output.events| && InterimEnd(l.output.events[i], o, sid)))
  }

  /** Every other end of a stream ends the waiting for it. */
  lemma LastEndsWaiting(d: Desk, ev: H2Event, o: Outside, sid: u32, rank: nat)
    requires LastOn(ev, sid) && !InterimEnd(ev, o, sid)
    ensures !Waits(OnEvent(d, ev, o.hash, o.status), sid, rank)
  {
    if ev.StreamReset? {
      FailPending(d, sid, ResetFault(ev.errorCode));
    }
  }

  lemma FrameAgrees(c: Conn, l: Label, c': Conn, d: Desk, o: Outside, sid: u32, rank: nat)
    requires l.Receive? && StopsShown(c, c', l.output, sid) && |l.output.events| <= 1
    requires Waits(After(d, l, o), sid, rank)
    ensures Listens(c', sid) <==> Listens(c, sid) && !Silences(l, o, sid)
  {
    var evs := l.output.events;
    if evs != [] {
      OnlyEvent(d, evs, o.hash, o.status);
      if LastOn(evs[0], sid) && !InterimEnd(evs[0], o, sid) {
        LastEndsWaiting(d, evs[0], o, sid, rank);
      }
    }
  }

  predicate SilencedIn(d: Desk, ls: seq<Label>, o: Outside, sid: u32, rank: nat)
    requires Inward(ls)
    decreases |ls|
  {
    ls != [] && Waits(d, sid, rank)
    && (Silences(ls[0], o, sid) || SilencedIn(After(d, ls[0], o), ls[1..], o, sid, rank))
  }

  lemma {:induction false} EventsShrink(d: Desk, evs: seq<H2Event>, o: Outside)
    ensures Shrinks(d.pending, OnEvents(d, evs, o.hash, o.status).pending)
    decreases |evs|
  {
    if evs != [] {
      EventShrinks(d, evs[0], o.hash, o.status);
      EventsShrink(OnEvent(d, evs[0], o.hash, o.status), evs[1..], o);
    }
  }

  /** Every frame reports one event at most. */
  predicate Single(ls: seq<Label>) {
    Inward(ls) && forall i :: 0 <= i < |ls| ==> |ls[i].output.events| <= 1
  }

  lemma HandlesSingle(w: World, ws: seq<World>, ls: seq<Label>)
    requires Handles(w, ws, ls)
    ensures Single(ls)
  {
    forall i | 0 <= i < |ls|
      ensures |ls[i].output.events| <= 1
    {
      OneEvent(ws[i].engine, ls[i].frame, ls[i].decoded, ws[i + 1].engine, ls[i].output);
    }
  }

  /** Every frame of a read shows which streams it stopped. */
  predicate Shown(ws: seq<World>, ls: seq<Label>, sid: u32) {
    && |ws| == |ls| + 1 && Single(ls)
    && forall i :: 0 <= i < |ls| ==> StopsShown(ws[i].engine.send.conn, ws[i + 1].engine.send.conn, ls[i].output, sid)
  }

  lemma HandlesShown(w: World, ws: seq<World>, ls: seq<Label>, sid: u32)
    requires Handles(w, ws, ls)
    ensures Shown(ws, ls, sid)
  {
    HandlesSingle(w, ws, ls);
    forall i | 0 <= i < |ls|
      ensures StopsShown(ws[i].engine.send.conn, ws[i + 1].engine.send.conn, ls[i].output, sid)
    {
      FrameStops(ws[i].engine, ls[i].frame, ls[i].decoded, ws[i + 1].engine, ls[i].output, sid);
    }
  }

  lemma {:induction false} ReadAgrees(d: Desk, ws: seq<World>, ls: seq<Label>, o: Outside, sid: u32, rank: nat)
    requires Shown(ws, ls, sid) && Waits(OnEvents(d, EventsOf(ls), o.hash, o.status), sid, rank)
    ensures Waits(d, sid, rank)
    ensures Receiving(ws[|ls|].engine, sid) <==> Receiving(ws[0].engine, sid) && !SilencedIn(d, ls, o, sid, rank)
    decreases |ls|
  {
    EventsShrink(d, EventsOf(ls), o);
    if ls != [] {
      var d1 := After(d, ls[0], o);
      OnEventsAppend(d, ls[0].output.events, EventsOf(ls[1..]), o.hash, o.status);
      ReadAgrees(d1, ws[1..], ls[1..], o, sid, rank);
      FrameAgrees(ws[0].engine.send.conn, ls[0], ws[1].engine.send.conn, d, o, sid, rank);
    }
  }

  lemma AskListeners(e: Engine, r: Request, sid: u32)
    requires ValidEngine(e)
    ensures Receiving(SendRequest(e, r).0, sid) <==> sid == e.send.conn.nextStreamId || Receiving(e, sid)
  {
    if r.body != [] {
      BuildListeners(e.send.(conn := OpenStream(e.send.conn)), e.send.conn.nextStreamId, r.body, true);
    }
    assert Listens(OpenStream(e.send.conn), sid) <==> sid == e.send.conn.nextStreamId || Listens(e.send.conn, sid);
  }

  /** A caller who waited finds its stream as it was; a new one finds it receiving. */
  predicate Agreeing(w: World, d: Desk, w': World, d': Desk, sid: u32, rank: nat) {
    Waits(d', sid, rank) ==>
      (Receiving(w'.engine, sid) <==> !Waits(d, sid, rank) || Receiving(w.engine, sid))
  }

  lemma OpenAgrees(w: World, d: Desk, sid: u32, rank: nat)
    requires Sound(w, d) && w.opens < MAX_OPENS && d.waiting != []
    ensures var on := w.engine.send.conn.nextStreamId;
            var w1, d1 := AfterAsk(w, d.waiting[0].request), OpenHead(d, on);
            && Agreeing(w, d, w1, d1, sid, rank) && Agreeing(w, d, w1, FailStream(d1, on, IoFault), sid, rank)
            && (Waits(d, sid, rank) ==> Waits(d1, sid, rank))
  {
    var on := w.engine.send.conn.nextStreamId;
    OpenSound(w, d, on);
    AskListeners(w.engine, d.waiting[0].request, sid);
    FailPending(OpenHead(d, on), on, IoFault);
  }

  lemma AgreeingTwice(w: World, d: Desk, w1: World, d1: Desk, w2: World, d2: Desk, sid: u32, rank: nat)
    requires Agreeing(w, d, w1, d1, sid, rank) && Agreeing(w1, d1, w2, d2, sid, rank)
    requires Waits(d, sid, rank) ==> Waits(d1, sid, rank)
    ensures Agreeing(w, d, w2, d2, sid, rank)
  {
  }

  lemma {:induction false} DispatchAgrees(w: World, d: Desk, o: Outside, sid: u32, rank: nat)
    requires Sound(w, d) && Dispatch(w, d, o).0.opens <= MAX_OPENS
    ensures Agreeing(w, d, Dispatch(w, d, o).0, Dispatch(w, d, o).1, sid, rank)
    decreases |d.waiting|
  {
    if d.waiting != [] && CanOpenStream(w.engine.send.conn) {
      if o.gone(d.waiting[0].id) {
        DiscardSound(w, d);
        DispatchAgrees(w, Discard(d, 0), o, sid, rank);
      } else {
        var on := w.engine.send.conn.nextStreamId;
        OpenAgrees(w, d, sid, rank);
        if o.writes(on) {
          var w1, d1 := AfterAsk(w, d.waiting[0].request), OpenHead(d, on);
          OpenSound(w, d, on);
          DispatchAgrees(w1, d1, o, sid, rank);
          AgreeingTwice(w, d, w1, d1, Dispatch(w, d, o).0, Dispatch(w, d, o).1, sid, rank);
        }
      }
    }
  }

  lemma DispatchAllAgrees(w: World, d: Desk, o: Outside, sid: u32, rank: nat)
    requires Sound(w, d) && DispatchAll(w, d, o).0.opens <= MAX_OPENS
    ensures Agreeing(w, d, DispatchAll(w, d, o).0, DispatchAll(w, d, o).1, sid, rank)
  {
    if w.engine.send.conn.error.Some? {
      WaitingShrinks(d, GoAwayFault);
    } else {
      DispatchAgrees(w, d, o, sid, rank);
    }
  }

  lemma ArmAgrees(s: System, o: Outside, sid: u32, rank: nat)
    requires Sound(s.world, s.desk) && ValidOutside(o) && AfterArm(s, o).world.opens <= MAX_OPENS
    ensures Agreeing(s.world, s.desk, AfterArm(s, o).world, AfterArm(s, o).desk, sid, rank)
  {
    var (w, d, ok) := DispatchAll(s.world, s.desk, o);
    DispatchAllAgrees(s.world, s.desk, o, sid, rank);
    if !ok {
      DispatchAllKeeps(s.world, s.desk, o);
      NotifyBothKeeps(w, d, o, IoFault);
    }
  }

  lemma TurnAgrees(s: System, s1: System, o: Outside, sid: u32, rank: nat)
    requires Sound(s1.world, s1.desk) && ValidOutside(o) && AfterArm(s1, o).world.opens <= MAX_OPENS
    requires s1.world == s.world && s1.desk.pending == s.desk.pending
    ensures Agreeing(s.world, s.desk, AfterArm(s1, o).world, AfterArm(s1, o).desk, sid, rank)
  {
    ArmAgrees(s1, o, sid, rank);
  }

  lemma CancelAgrees(s: System, s1: System, o: Outside, id: nat, sid: u32, rank: nat)
    requires Sound(s.world, s.desk) && ValidOutside(o) && s1.world == s.world && s1.desk == RemoveWaiting(s.desk, id)
    requires ValidEngine(s1.world.engine) && AfterArm(s1, o).world.opens <= MAX_OPENS
    ensures Agreeing(s.world, s.desk, AfterArm(s1, o).world, AfterArm(s1, o).desk, sid, rank)
  {
    RemoveSound(s.world, s.desk, id);
    TurnAgrees(s, s1, o, sid, rank);
  }

  lemma CommandAgrees(s: System, o: Outside, sid: u32, rank: nat)
    requires Sound(s.world, s.desk) && ValidOutside(o) && s.channel != []
    requires AfterArm(TakeCommand(s, o), o).world.opens <= MAX_OPENS
    ensures var s' := AfterArm(TakeCommand(s, o), o); Agreeing(s.world, s.desk, s'.world, s'.desk, sid, rank)
  {
    TakeSound(s, o);
    TurnAgrees(s, TakeCommand(s, o), o, sid, rank);
  }

  lemma QuietTurnAgrees(s: System, a: Arm, o: Outside, s': System, sid: u32, rank: nat)
    requires Sound(s.world, s.desk) && SysNext(s, a, o, s') && (a.OnCancel? || a.OnShutdown? || a.OnCancelClosed?)
    ensures Agreeing(s.world, s.desk, s'.world, s'.desk, sid, rank)
  {
    if a.OnCancel? {
      var s1 := Settle(s, RemoveWaiting(s.desk, s.cancels[0])).(cancels := s.cancels[1..]);
      CancelAgrees(s, s1, o, s.cancels[0], sid, rank);
    } else if a.OnCancelClosed? {
      TurnAgrees(s, s.(cancelOpen := false), o, sid, rank);
    } else if !AllDone(s.desk) {
      TurnAgrees(s, s.(shutdown := true), o, sid, rank);
    }
  }

  lemma EndingAgrees(s: System, a: Arm, o: Outside, s': System, sid: u32, rank: nat)
    requires Sound(s.world, s.desk) && SysNext(s, a, o, s') && (a.OnClosed? || a.OnTimeout? || (a.OnRead? && !a.wrote))
    ensures !Waits(s'.desk, sid, rank)
  {
    NotifyBothKeeps(s.world, s.desk, o, if a.OnTimeout? then ShutdownFault else IoFault);
  }

  lemma SilentAgrees(s: System, a: Arm, o: Outside, s': System, sid: u32, rank: nat)
    requires Sound(s.world, s.desk) && SysNext(s, a, o, s') && Silently(a)
    ensures Agreeing(s.world, s.desk, s'.world, s'.desk, sid, rank)
  {
    if a.OnCommand? {
      CommandAgrees(s, o, sid, rank);
    } else if a.OnCancel? || a.OnShutdown? || a.OnCancelClosed? {
      QuietTurnAgrees(s, a, o, s', sid, rank);
    } else if a.OnClosed? || a.OnTimeout? || a.OnRead? {
      EndingAgrees(s, a, o, s', sid, rank);
    }
  }

  // ---- Whole runs ---------------------------------------------------------------------------------

  /** While the caller waited its stream was closed without a word to it. */
  predicate SilencedFor(t: Trace, sid: u32, rank: nat) {
    match t
    case Begun(_, _) => false
    case Then(before, a, o, _) =>
      SilencedFor(before, sid, rank) || (Reports(a) && SilencedIn(before.s.desk, a.ls, o, sid, rank))
  }

  lemma ReadSound(s: System, ws: seq<World>, ls: seq<Label>, bad: Option<CodecError>, o: Outside, d: Desk)
    requires SysInv(s) && Handles(s.world, ws, ls) && d == OnEvents(s.desk, Events(ls, bad), o.hash, o.status)
    ensures Sound(ws[|ls|], d) && d.openings == s.desk.openings
    ensures d == OnEvents(s.desk, EventsOf(ls), o.hash, o.status)
  {
    HandlesReaches(s.world, ws, ls, |ls|);
    BadIsQuiet(s.desk, ls, bad, o);
    EventsSound(s.world, s.desk, Events(ls, bad), o, ws[|ls|]);
    EventsKeepOpenings(s.desk, Events(ls, bad), o);
  }

  /** The events of a read, then dispatch. */
  lemma ThenDispatch(d: Desk, t: System, o: Outside, ws: seq<World>, ls: seq<Label>, sid: u32, rank: nat)
    requires Shown(ws, ls, sid) && t.world == ws[|ls|] && t.desk == OnEvents(d, EventsOf(ls), o.hash, o.status)
    requires Sound(t.world, t.desk) && ValidOutside(o) && AfterArm(t, o).world.opens <= MAX_OPENS
    requires PendingOk(d) && OpenedOk(d) && t.desk.openings == d.openings && Waits(AfterArm(t, o).desk, sid, rank)
    ensures Receiving(AfterArm(t, o).world.engine, sid)
            <==> !Waits(d, sid, rank) || (Receiving(ws[0].engine, sid) && !SilencedIn(d, ls, o, sid, rank))
  {
    ArmAgrees(t, o, sid, rank);
    if Waits(t.desk, sid, rank) {
      ReadAgrees(d, ws, ls, o, sid, rank);
    } else {
      StaysDone(d, t.desk, AfterArm(t, o).desk, t, o, sid, rank);
    }
  }

  lemma ReadStepAgrees(s: System, ws: seq<World>, ls: seq<Label>, bad: Option<CodecError>, o: Outside, s': System,
                       sid: u32, rank: nat)
    requires SysInv(s) && SysNext(s, OnRead(ws, ls, bad, true), o, s') && Waits(s'.desk, sid, rank)
    ensures Receiving(s'.world.engine, sid)
            <==> !Waits(s.desk, sid, rank) || (Receiving(s.world.engine, sid) && !SilencedIn(s.desk, ls, o, sid, rank))
  {
    var d := OnEvents(s.desk, Events(ls, bad), o.hash, o.status);
    ReadSound(s, ws, ls, bad, o, d);
    HandlesShown(s.world, ws, ls, sid);
    DeskFacts(s);
    ThenDispatch(s.desk, Settle(s.(world := ws[|ls|]), d), o, ws, ls, sid, rank);
  }

  lemma StaysDone(d: Desk, d1: Desk, d2: Desk, t: System, o: Outside, sid: u32, rank: nat)
    requires Sound(t.world, t.desk) && t.desk == d1 && AfterArm(t, o).world.opens <= MAX_OPENS && d2 == AfterArm(t, o).desk
    requires PendingOk(d) && OpenedOk(d) && d1.openings == d.openings && !Waits(d1, sid, rank) && Waits(d2, sid, rank)
    ensures !Waits(d, sid, rank)
  {
    AfterArmGrown(t, o);
    if Waits(d, sid, rank) {
      OpenedOnce(d, sid, rank);
    }
  }

  lemma StepAgrees(s: System, a: Arm, o: Outside, s': System, sid: u32, rank: nat)
    requires SysInv(s) && SysNext(s, a, o, s') && Waits(s'.desk, sid, rank)
    ensures Receiving(s'.world.engine, sid)
            <==> || !Waits(s.desk, sid, rank)
                 || (Receiving(s.world.engine, sid) && !(Reports(a) && SilencedIn(s.desk, a.ls, o, sid, rank)))
  {
    if Silently(a) {
      SilentAgrees(s, a, o, s', sid, rank);
    } else {
      ReadStepAgrees(s, a.ws, a.ls, a.bad, o, s', sid, rank);
    }
  }

  lemma {:induction false} SilencedWaits(t: Trace, sid: u32, rank: nat)
    requires SysRun(t) && SilencedFor(t, sid, rank)
    ensures Opening(rank, sid) in t.s.desk.openings
  {
    SysRunInv(t.before);
    DeskFacts(t.before.s);
    GrowsOpenings(t.before.s, t.arm, t.outside, t.s, rank);
    if SilencedFor(t.before, sid, rank) {
      SilencedWaits(t.before, sid, rank);
    }
    assert Opening(rank, sid) in t.before.s.desk.openings;
  }

  /** A caller that waits anew was never silenced. */
  lemma NewlyWaiting(t: Trace, sid: u32, rank: nat)
    requires SysRun(t) && t.Then? && Waits(t.s.desk, sid, rank) && !Waits(t.before.s.desk, sid, rank)
    ensures !SilencedFor(t, sid, rank)
  {
    SysRunInv(t.before);
    DeskFacts(t.before.s);
    if SilencedFor(t.before, sid, rank) {
      SilencedWaits(t.before, sid, rank);
      LaterDelivery(t, sid, rank);
    }
  }

  lemma FirstAgrees(w: World, limit: Option<nat>, r: Request, o: Outside, sid: u32, rank: nat)
    requires ValidEngine(w.engine) && Waits(WithFirst(Base(w, limit), r, o).desk, sid, rank)
    ensures Receiving(WithFirst(Base(w, limit), r, o).world.engine, sid)
  {
    AskListeners(w.engine, r, sid);
    FirstRejected(w.engine.send.conn.nextStreamId);
  }

  lemma BegunAgrees(s: System, first: Option<Request>, sid: u32, rank: nat)
    requires DriverTheorems.Fresh(s, first) && Waits(s.desk, sid, rank)
    ensures Receiving(s.world.engine, sid)
  {
    var limit, o :| Begins(s, first, limit, o);
    var w, profile, windowUpdate, blockLimit, policy :|
      BeginsWith(s, first, limit, o, w, profile, windowUpdate, blockLimit, policy);
    if first.Some? {
      FirstAgrees(w, limit, first.value, o, sid, rank);
    }
  }

  /** Engine and driver agree, over every run: a stream some caller waits for still receives, exactly
      unless, while that caller waited, the engine reset the stream itself or an interim response on it
      carried END_STREAM. In those two cases nothing more can come and the caller is not told. */
  lemma {:induction false} WaitersAgree(t: Trace, sid: u32, rank: nat)
    requires SysRun(t) && Waits(t.s.desk, sid, rank)
    ensures Receiving(t.s.world.engine, sid) <==> !SilencedFor(t, sid, rank)
  {
    if t.Begun? {
      BegunAgrees(t.s, t.first, sid, rank);
    } else {
      SysRunInv(t.before);
      StepAgrees(t.before.s, t.arm, t.outside, t.s, sid, rank);
      if Waits(t.before.s.desk, sid, rank) {
        WaitersAgree(t.before, sid, rank);
      } else {
        NewlyWaiting(t, sid, rank);
      }
    }
  }
}
