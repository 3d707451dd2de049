/** Runs that reach the states in which the engine falls short: the conditions proved elsewhere are met
    in practice. */
module Witnesses {
  import opened Wire
  import opened Frames
  import opened Codec
  import opened HeaderBlocks
  import opened Streams
  import opened Connection
  import opened Sender
  import opened Policy
  import opened Engine
  import opened Runs
  import opened SendRuns
  import opened EngineRuns
  import opened EngineLaws
  import opened EngineTheorems
  import opened EngineObject
  import opened StreamCredit

  function Fresh(policy: FlowPolicy): World {
    World(ClientEngine([], 0, 0, policy), [], [], map[], 0, 0, [])
  }

  lemma FreshReachable(policy: FlowPolicy)
    ensures Reachable(Fresh(policy)) && ValidEngine(Fresh(policy).engine)
  {
    assert Start(Fresh(policy), [], 0, 0, policy);
    assert Reaches([Fresh(policy)], [], [], 0, 0, policy, Fresh(policy));
  }

  /** The peer announces an initial window size before any stream is open. */
  function Sized(policy: FlowPolicy, size: u32): World
    requires size <= I32_MAX
  {
    var w := Fresh(policy);
    var c := w.engine.send.conn;
    World(w.engine.WithConn(c.(remote := c.remote.(initialWindowSize := size))).(settingsReceived := true),
          [Settings(true, [])], [], map[], 0, 0, [Arrival(Settings(false, [SettingsParameter(4, size)]), true)])
  }

  lemma SizedReachable(policy: FlowPolicy, size: u32)
    requires size <= I32_MAX
    ensures Reachable(Sized(policy, size)) && ValidEngine(Sized(policy, size).engine)
  {
    var w, w' := Fresh(policy), Sized(policy, size);
    var ps := [SettingsParameter(4, size)];
    var o := Output([Settings(true, [])], [SettingsAcked]);
    FreshReachable(policy);
    var c := w.engine.send.conn;
    assert ps[1..] == [];
    assert ApplyParams(c.remote, ps) == (c.remote.(initialWindowSize := size), true);
    assert ResizedTable(map[], {}, size) == map[];
    assert VisitEnds(c, c.remote.(initialWindowSize := size), {}, w'.engine.send.conn, true);
    assert SettingsApplied(c, ps, w'.engine.send.conn, true);
    assert (w'.engine, o) == SettingsOutcome(w.engine, w'.engine.send.conn, true);
    assert Handled(w.engine, Settings(false, ps), None, w'.engine, o);
    assert [] + o.frames == o.frames;
    assert w' == AfterReceive(w, Settings(false, ps), o, w'.engine);
    ReachableStep(w, Receive(Settings(false, ps), None, o), w');
  }

  /** A request whose stream has no credit keeps its whole body back. */
  lemma AskBlocked(e: Engine, r: Request)
    requires ValidEngine(e) && e.send.pending == [] && e.send.conn.remote.initialWindowSize == 0 && r.body != []
    ensures var e' := SendRequest(e, r).0;
            var sid := e.send.conn.nextStreamId;
            && e'.send.pending == [PendingBody(sid, r.body, true)] && e'.send.conn.sendWindow == e.send.conn.sendWindow
            && sid in e'.send.conn.streams && e'.send.conn.streams[sid].sendWindow == 0
            && e'.send.conn.streams[sid].initialWindow == 0
            && e'.send.conn.streams[sid].recvWindow == AsI32(EffectiveLocalWindow(e.send.conn))
  {
    SendBlocked(e.send.(conn := OpenStream(e.send.conn)), e.send.conn.nextStreamId, r.body, true);
  }

  lemma AskReachable(w: World, r: Request)
    requires Reachable(w) && ValidEngine(w.engine) && w.opens < 0x8000_0000
    ensures Reachable(AfterAsk(w, r)) && ValidEngine(AfterAsk(w, r).engine)
  {
    AskFixed(w.engine, r);
    ReachableStep(w, Ask(r), AfterAsk(w, r));
  }

  function Took(w: World, f: H2Frame): World
    requires ValidEngine(w.engine) && !f.Settings?
  {
    AfterReceive(w, f, HandleOther(w.engine, f, None).1, HandleOther(w.engine, f, None).0)
  }

  lemma TookReachable(w: World, f: H2Frame)
    requires Reachable(w) && ValidEngine(w.engine) && !f.Settings? && Fits(MAX_FRAME_SIZE_LIMIT, f)
    ensures Reachable(Took(w, f)) && ValidEngine(Took(w, f).engine)
    ensures Took(w, f).out == w.out + HandleOther(w.engine, f, None).1.frames
  {
    var (e, o) := HandleOther(w.engine, f, None);
    HandledFixed(w.engine, f, None, e, o);
    ReachableStep(w, Receive(f, None, o), Took(w, f));
  }

  /** RST_STREAM on a stream and, later, DATA on it. */
  predicate SendsAfterReset(out: seq<H2Frame>, sid: u32) {
    exists i, j :: 0 <= i < j < |out| && out[i].RstStream? && out[i].streamId == sid
                   && out[j].Data? && out[j].streamId == sid
  }

  lemma ResetThenData(w: World, sid: u32, body: bytes, w1: World, w2: World)
    requires HeldBack(w, sid, body)
    requires w1 == Took(w, WindowUpdate(sid, 0)) && ValidEngine(w1.engine) && w2 == Took(w1, WindowUpdate(sid, 1))
    ensures Reachable(w2) && SendsAfterReset(w2.out, sid)
  {
    ResetStreamStillSends(w.engine, sid, body, 1);
    TookReachable(w, WindowUpdate(sid, 0));
    TookReachable(w1, WindowUpdate(sid, 1));
    var i, j := |w.out|, |w1.out|;
    assert w1.out[i] == RstStream(sid, PROTOCOL_ERROR);
    assert w2.out[i] == w1.out[i] && w2.out[j].Data? && w2.out[j].streamId == sid;
  }

  /** A reachable world before its first request: nothing buffered, no streams, default windows of ours. */
  ghost predicate Unused(w: World, size: u32) {
    && Reachable(w) && ValidEngine(w.engine) && w.opens == 0 && w.dropped == 0 && w.engine.send.pending == []
    && w.engine.initialRecvWindow == 65535 && w.engine.accumulated == map[]
    && var c := w.engine.send.conn;
       && c.remote.initialWindowSize == size && c.nextStreamId == 1 && c.streams == map[]
       && c.sendWindow == 65535 && c.recvWindow == 65535 && EffectiveLocalWindow(c) == 65535
  }

  lemma SizedUnused(policy: FlowPolicy, size: u32)
    requires size <= I32_MAX
    ensures Unused(Sized(policy, size), size) && Sized(policy, size).engine.policy == policy
  {
    SizedReachable(policy, size);
  }

  /** A body held back on a stream. */
  ghost predicate HeldBack(w: World, sid: u32, body: bytes) {
    && Reachable(w) && ValidEngine(w.engine) && w.engine.send.pending == [PendingBody(sid, body, true)] && body != []
    && 0 < sid < 0x8000_0000 && sid in w.engine.send.conn.streams && InRange(w.engine.send.conn.streams[sid])
    && w.engine.send.conn.streams[sid].sendWindow == 0 && w.engine.send.conn.sendWindow > 0
  }

  lemma SendsAfterResetFrom(w: World, sid: u32, body: bytes)
    requires HeldBack(w, sid, body)
    ensures exists w' :: Reachable(w') && SendsAfterReset(w'.out, sid)
  {
    TookReachable(w, WindowUpdate(sid, 0));
    var w1 := Took(w, WindowUpdate(sid, 0));
    ResetThenData(w, sid, body, w1, Took(w1, WindowUpdate(sid, 1)));
  }

  /** A run in which the engine resets a stream and afterwards sends its body. */
  lemma SendsAfterResetIsReachable(r: Request)
    requires r.body != []
    ensures exists w :: Reachable(w) && SendsAfterReset(w.out, 1)
  {
    var w := Sized(Immediate, 0);
    SizedUnused(Immediate, 0);
    BlockedSends(w, r, 1);
  }

  lemma BlockedSends(w: World, r: Request, sid: u32)
    requires Unused(w, 0) && r.body != [] && sid == w.engine.send.conn.nextStreamId
    ensures exists w' :: Reachable(w') && SendsAfterReset(w'.out, sid)
  {
    AskReachable(w, r);
    AskBlocked(w.engine, r);
    SendsAfterResetFrom(AfterAsk(w, r), sid, r.body);
  }

  // ---- Dropped credit -----------------------------------------------------------------------------

  /** A request without a body: its stream receives, with the window we announced. */
  lemma AskBodiless(e: Engine, r: Request)
    requires ValidEngine(e) && r.body == [] && EffectiveLocalWindow(e.send.conn) <= I32_MAX
    ensures var e' := SendRequest(e, r).0;
            var sid := e.send.conn.nextStreamId;
            && sid in e'.send.conn.streams && e'.send.conn.streams[sid].state == HalfClosedLocal
            && e'.send.conn.streams[sid].recvWindow == EffectiveLocalWindow(e.send.conn)
            && e'.send.conn.streams[sid].initialWindow == e.send.conn.remote.initialWindowSize
            && e'.send.conn.recvWindow == e.send.conn.recvWindow && e'.accumulated == e.accumulated
            && e'.policy == e.policy && e'.initialRecvWindow == e.initialRecvWindow
            && e'.send.conn.streams.Keys == e.send.conn.streams.Keys + {sid}
            && e'.send.conn.nextStreamId == (sid + 2) % 0x1_0000_0000
            && EffectiveLocalWindow(e'.send.conn) == EffectiveLocalWindow(e.send.conn)
  {
  }

  /** DATA that fills the connection window, on a stream that may not receive. */
  lemma DropsAll(w: World, data: bytes)
    requires Reachable(w) && ValidEngine(w.engine) && w.dropped == 0 && 1 in w.engine.send.conn.streams
    requires !w.engine.send.conn.streams[1].state.CanReceive()
    requires w.engine.send.conn.recvWindow == |data| == w.engine.initialRecvWindow == 65535
    ensures exists w' :: Reachable(w') && w'.dropped == w'.engine.initialRecvWindow
  {
    var f := Data(1, data, false, None);
    TookReachable(w, f);
    DroppedAmount(w.engine, 1, data, false, None);
    HandledFixed(w.engine, f, None, Took(w, f).engine, HandleOther(w.engine, f, None).1);
    assert Reachable(Took(w, f)) && Took(w, f).dropped == Took(w, f).engine.initialRecvWindow;
  }

  lemma ZeroUpdateCloses(w: World)
    requires ValidEngine(w.engine) && 1 in w.engine.send.conn.streams
    ensures var w' := Took(w, WindowUpdate(1, 0));
            && 1 in w'.engine.send.conn.streams && w'.engine.send.conn.streams[1].state == StreamState.Closed
            && w'.engine.send.conn.recvWindow == w.engine.send.conn.recvWindow
            && w'.engine.initialRecvWindow == w.engine.initialRecvWindow && w'.dropped == w.dropped
  {
  }

  lemma DropFrom(w0: World, r: Request, data: bytes)
    requires Unused(w0, 0) && r.body == [] && |data| == 65535
    ensures exists w :: Reachable(w) && w.dropped == w.engine.initialRecvWindow
  {
    AskReachable(w0, r);
    AskBodiless(w0.engine, r);
    var w := AfterAsk(w0, r);
    ZeroUpdateCloses(w);
    TookReachable(w, WindowUpdate(1, 0));
    DropsAll(Took(w, WindowUpdate(1, 0)), data);
  }

  /** A run in which the whole connection window has been dropped. */
  lemma AllCreditLostIsReachable()
    ensures exists w :: Reachable(w) && w.dropped == w.engine.initialRecvWindow
  {
    var w, data := Sized(Immediate, 0), Zeros(65535);
    SizedUnused(Immediate, 0);
    DropFrom(w, Request([], None, []), data);
  }

  // ---- A stalled stream ---------------------------------------------------------------------------

  /** Half the window, as the presets have it. */
  function HalfPolicy(): FlowPolicy {
    Threshold((n: u32) => n / 2)
  }

  predicate Stalled(w: World, sid: u32) {
    Receiving(w.engine, sid) && w.engine.send.conn.streams[sid].recvWindow == 0
  }

  lemma StallFrom(w0: World, r: Request, data: bytes)
    requires Unused(w0, 0x7FFF_FFFF) && w0.engine.policy == HalfPolicy() && r.body == [] && |data| == 65535
    ensures exists w :: Reachable(w) && Stalled(w, 1) && w.engine.policy == HalfPolicy()
  {
    AskReachable(w0, r);
    AskBodiless(w0.engine, r);
    var w, f := AfterAsk(w0, r), Data(1, data, false, None);
    assert Exact(w.engine, 1) && Takes(w.engine, 1, data, None);
    StreamStallsIff(w.engine, 1, data, None);
    TookReachable(w, f);
    HandledFixed(w.engine, f, None, Took(w, f).engine, HandleOther(w.engine, f, None).1);
    assert Stalled(Took(w, f), 1);
  }

  /** A run in which, with the presets' threshold and a peer announcing the largest window, the peer has
      used up a stream and will never be told to go on. */
  lemma StallIsReachable()
    ensures exists w :: Reachable(w) && Stalled(w, 1) && w.engine.policy == HalfPolicy()
  {
    var w, data := Sized(HalfPolicy(), 0x7FFF_FFFF), Zeros(65535);
    SizedUnused(HalfPolicy(), 0x7FFF_FFFF);
    StallFrom(w, Request([], None, []), data);
  }

  // ---- A stalled connection -----------------------------------------------------------------------

  /** Two streams open, nothing received yet. */
  ghost predicate Paired(w: World) {
    && Reachable(w) && ValidEngine(w.engine) && w.dropped == 0 && w.engine.accumulated == map[]
    && w.engine.send.conn.recvWindow == w.engine.initialRecvWindow == 65535
    && 1 in w.engine.send.conn.streams && Receiving(w.engine, 3)
    && w.engine.send.conn.streams[3].recvWindow == 65535
  }

  lemma SecondStream(w: World, r: Request)
    requires Reachable(w) && ValidEngine(w.engine) && w.opens == 1 && w.dropped == 0 && w.engine.accumulated == map[]
    requires w.engine.send.conn.recvWindow == w.engine.initialRecvWindow == 65535 && 1 in w.engine.send.conn.streams
    requires w.engine.send.conn.nextStreamId == 3 && EffectiveLocalWindow(w.engine.send.conn) == 65535 && r.body == []
    ensures Paired(AfterAsk(w, r)) && AfterAsk(w, r).engine.policy == w.engine.policy
  {
    AskReachable(w, r);
    AskBodiless(w.engine, r);
  }

  lemma TwoStreams(w: World, r: Request)
    requires Unused(w, 0) && r.body == []
    ensures ValidEngine(AfterAsk(w, r).engine)
    ensures var w' := AfterAsk(AfterAsk(w, r), r); Paired(w') && w'.engine.policy == w.engine.policy
  {
    AskReachable(w, r);
    AskBodiless(w.engine, r);
    SecondStream(AfterAsk(w, r), r);
  }

  /** The first stream is reset, and its DATA dropped. */
  lemma DropSome(w: World, data: bytes)
    requires Paired(w) && |data| <= 65535
    ensures ValidEngine(Took(w, WindowUpdate(1, 0)).engine)
    ensures var w' := Took(Took(w, WindowUpdate(1, 0)), Data(1, data, false, None));
            && Reachable(w') && ValidEngine(w'.engine) && w'.dropped == |data|
            && w'.engine.send.conn.recvWindow == 65535 - |data| && Receiving(w'.engine, 3)
            && w'.engine.send.conn.streams[3].recvWindow == 65535 && w'.engine.initialRecvWindow == 65535
            && w'.engine.policy == w.engine.policy
  {
    var f := Data(1, data, false, None);
    ZeroUpdateCloses(w);
    TookReachable(w, WindowUpdate(1, 0));
    var w1 := Took(w, WindowUpdate(1, 0));
    TookReachable(w1, f);
    DroppedAmount(w1.engine, 1, data, false, None);
  }

  /** The connection window is used up although bytes of it were only held back, and no credit will come. */
  predicate ConnectionStalled(w: World) {
    w.engine.send.conn.recvWindow == 0 && w.dropped < w.engine.initialRecvWindow && Starved(w.engine, w.dropped)
  }

  lemma FillRest(w: World, data: bytes)
    requires Reachable(w) && ValidEngine(w.engine) && Starved(w.engine, w.dropped) && Receiving(w.engine, 3)
    requires 0 < |data| == w.engine.send.conn.recvWindow <= w.engine.send.conn.streams[3].recvWindow
    requires |data| <= MAX_FRAME_SIZE_LIMIT
    ensures var w' := Took(w, Data(3, data, false, None));
            Reachable(w') && ConnectionStalled(w') && w'.engine.policy == w.engine.policy
  {
    var f := Data(3, data, false, None);
    ReachableInv(w);
    TookReachable(w, f);
    HandledFixed(w.engine, f, None, Took(w, f).engine, HandleOther(w.engine, f, None).1);
    DroppedAmount(w.engine, 3, data, false, None);
    ConnectionStallsIff(w.engine, 3, data, false, None, w.dropped);
  }

  lemma ConnectionStallFrom(w: World, r: Request, d1: bytes, d2: bytes)
    requires Unused(w, 0) && w.engine.policy == HalfPolicy() && r.body == [] && |d1| == 32769 && |d2| == 32766
    ensures exists w' :: Reachable(w') && ConnectionStalled(w') && w'.engine.policy == HalfPolicy()
  {
    TwoStreams(w, r);
    var w2 := AfterAsk(AfterAsk(w, r), r);
    DropSome(w2, d1);
    FillRest(Took(Took(w2, WindowUpdate(1, 0)), Data(1, d1, false, None)), d2);
  }

  /** A run with the presets' threshold in which just over half the window was dropped, the peer has used
      the rest, and no credit for the connection is ever announced again. */
  lemma ConnectionStallIsReachable()
    ensures exists w :: Reachable(w) && ConnectionStalled(w) && w.engine.policy == HalfPolicy()
  {
    var w, d1, d2 := Sized(HalfPolicy(), 0), Zeros(32769), Zeros(32766);
    SizedUnused(HalfPolicy(), 0);
    ConnectionStallFrom(w, Request([], None, []), d1, d2);
  }
}
