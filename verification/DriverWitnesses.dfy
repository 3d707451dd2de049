/** A run of the whole client in which a response looks complete, the peer has ended it, and bytes of
    its body are missing. */
module DriverWitnesses {
  import opened Wire
  import opened Frames
  import opened Codec
  import opened Streams
  import opened Connection
  import opened Policy
  import opened Engine
  import opened EngineLaws
  import opened EngineTheorems
  import opened EngineObject
  import opened RequestDesk
  import opened Replies
  import opened Driver
  import opened DriverRuns
  import opened DriverTheorems
  import opened ResponseBodies
  import opened WholeBodies
  import opened WireReplies
  import opened CompleteResponses
  import Waiters
  import Witnesses

  // ---- One frame after the other ------------------------------------------------------------------

  function LabelOf(w: World, f: H2Frame, decoded: Option<HeaderList>): Label
    requires ValidEngine(w.engine) && !f.Settings?
  {
    Receive(f, decoded, HandleOther(w.engine, f, decoded).1)
  }

  function Took(w: World, f: H2Frame, decoded: Option<HeaderList>): World
    requires ValidEngine(w.engine) && !f.Settings?
  {
    AfterReceive(w, f, HandleOther(w.engine, f, decoded).1, HandleOther(w.engine, f, decoded).0)
  }

  lemma TookNext(w: World, f: H2Frame, decoded: Option<HeaderList>)
    requires ValidEngine(w.engine) && !f.Settings? && Fits(MAX_FRAME_SIZE_LIMIT, f)
    ensures Next(w, LabelOf(w, f, decoded), Took(w, f, decoded)) && ValidEngine(Took(w, f, decoded).engine)
  {
    var (e, o) := HandleOther(w.engine, f, decoded);
    HandledFixed(w.engine, f, decoded, e, o);
  }

  /** Headers without END_STREAM touch no window. */
  lemma HeadersArrive(w: World, sid: u32, h: HeaderList) returns (l: Label, w': World)
    requires ValidEngine(w.engine) && sid in w.engine.send.conn.streams && 0 < sid < 0x8000_0000
    ensures l.Receive? && Next(w, l, w') && ValidEngine(w'.engine) && !l.frame.GoAway?
    ensures l.output.events == [ResponseHeaders(sid, h, false)] && w'.engine.send.conn == w.engine.send.conn
    ensures PayloadOf(l, sid) == []
  {
    var f := Headers(sid, [], false, true, None, None);
    TookNext(w, f, Some(h));
    l, w' := LabelOf(w, f, Some(h)), Took(w, f, Some(h));
  }

  /** A WINDOW_UPDATE of zero closes the stream and reports nothing. */
  lemma ZeroCloses(w: World, sid: u32) returns (l: Label, w': World)
    requires ValidEngine(w.engine) && sid in w.engine.send.conn.streams && 0 < sid < 0x8000_0000
    ensures l.Receive? && Next(w, l, w') && ValidEngine(w'.engine) && !l.frame.GoAway?
    ensures l.output.events == [] && w'.engine.send.conn == ResetStream(w.engine.send.conn, sid)
    ensures PayloadOf(l, sid) == []
  {
    var f := WindowUpdate(sid, 0);
    TookNext(w, f, None);
    l, w' := LabelOf(w, f, None), Took(w, f, None);
  }

  /** DATA on it is dropped and nothing reported. */
  lemma ClosedDrops(w: World, sid: u32, data: bytes) returns (l: Label, w': World)
    requires ValidEngine(w.engine) && 0 < sid < 0x8000_0000 && 0 < |data| <= MAX_FRAME_SIZE_LIMIT
    requires sid in w.engine.send.conn.streams && w.engine.send.conn.streams[sid].state.Closed?
    requires |data| <= w.engine.send.conn.recvWindow
    ensures l.Receive? && Next(w, l, w') && ValidEngine(w'.engine) && !l.frame.GoAway?
    ensures l.output.events == [] && Drops(w, l, sid) && PayloadOf(l, sid) == data
    ensures w'.engine.send.conn.streams == w.engine.send.conn.streams
    ensures w'.engine.send.conn.recvWindow == w.engine.send.conn.recvWindow - |data|
  {
    var f := Data(sid, data, false, None);
    TookNext(w, f, None);
    l, w' := LabelOf(w, f, None), Took(w, f, None);
  }

  /** The end of another stream clears the closed one out of the table. */
  lemma EndClears(w: World, sid: u32, other: u32) returns (l: Label, w': World)
    requires ValidEngine(w.engine) && 0 < other < 0x8000_0000 && sid != other
    requires sid in w.engine.send.conn.streams && w.engine.send.conn.streams[sid].state.Closed?
    requires other in w.engine.send.conn.streams && w.engine.send.conn.streams[other].state == HalfClosedLocal
    requires 0 <= w.engine.send.conn.streams[other].recvWindow && 0 <= w.engine.send.conn.recvWindow
    ensures l.Receive? && Next(w, l, w') && ValidEngine(w'.engine) && !l.frame.GoAway?
    ensures l.output.events == [ResponseData(other, [], true)] && sid !in w'.engine.send.conn.streams
    ensures PayloadOf(l, sid) == []
    ensures w'.engine.send.conn.recvWindow == w.engine.send.conn.recvWindow
  {
    var f := Data(other, [], true, None);
    TookNext(w, f, None);
    l, w' := LabelOf(w, f, None), Took(w, f, None);
  }

  /** And DATA on a stream that is not in the table is taken. */
  lemma UnknownTakes(w: World, sid: u32, data: bytes) returns (l: Label, w': World)
    requires ValidEngine(w.engine) && 0 < sid < 0x8000_0000 && |data| <= MAX_FRAME_SIZE_LIMIT
    requires sid !in w.engine.send.conn.streams && |data| <= w.engine.send.conn.recvWindow
    ensures l.Receive? && Next(w, l, w') && ValidEngine(w'.engine) && !l.frame.GoAway?
    ensures l.output.events == [ResponseData(sid, data, true)] && PayloadOf(l, sid) == data
  {
    var f := Data(sid, data, true, None);
    TookNext(w, f, None);
    l, w' := LabelOf(w, f, None), Took(w, f, None);
  }

  // ---- The read -----------------------------------------------------------------------------------

  lemma {:induction false} EventsOfAppend(ls: seq<Label>, ms: seq<Label>)
    requires Inward(ls) && Inward(ms)
    ensures EventsOf(ls + ms) == EventsOf(ls) + EventsOf(ms)
    decreases |ls|
  {
    if ls == [] {
      assert ls + ms == ms;
    } else {
      assert (ls + ms)[1..] == ls[1..] + ms;
      EventsOfAppend(ls[1..], ms);
    }
  }

  lemma EventsOfPair(ls: seq<Label>)
    requires |ls| == 2 && Inward(ls)
    ensures EventsOf(ls) == ls[0].output.events + ls[1].output.events
  {
    assert ls[1..][1..] == [] && EventsOf(ls[1..]) == ls[1].output.events + EventsOf([]);
  }

  /** Two streams that wait for their responses, with room for the bytes. */
  predicate TwoWait(c: Conn, a: u32, b: u32, room: nat) {
    && a in c.streams && b in c.streams && a != b && 0 < a < 0x8000_0000 && 0 < b < 0x8000_0000
    && c.streams[b].state == HalfClosedLocal && 0 <= c.streams[b].recvWindow && room <= c.recvWindow
  }

  /** What a read with a hole in it reports: headers; nothing for a WINDOW_UPDATE of zero and for DATA that
      is dropped; the end of the other stream; and DATA with END_STREAM. */
  predicate HoleReport(ls: seq<Label>, a: u32, b: u32, h: HeaderList, d2: bytes) {
    && |ls| == 5 && Inward(ls)
    && ls[0].output.events == [ResponseHeaders(a, h, false)] && ls[1].output.events == []
    && ls[2].output.events == [] && ls[3].output.events == [ResponseData(b, [], true)]
    && ls[4].output.events == [ResponseData(a, d2, true)]
    && forall i :: 0 <= i < 5 ==> !ls[i].frame.GoAway?
  }

  ghost predicate Hole(ws: seq<World>, ls: seq<Label>, a: u32, b: u32, h: HeaderList, d1: bytes, d2: bytes) {
    && HoleReport(ls, a, b, h, d2) && |ws| == 6 && Handles(ws[0], ws, ls)
    && Drops(ws[2], ls[2], a) && HoleSent(ls, a, d1, d2)
  }

  /** And what the peer sent on the stream with it. */
  predicate HoleSent(ls: seq<Label>, a: u32, d1: bytes, d2: bytes)
    requires |ls| == 5
  {
    && PayloadOf(ls[0], a) == [] == PayloadOf(ls[1], a) && PayloadOf(ls[2], a) == d1
    && PayloadOf(ls[3], a) == [] && PayloadOf(ls[4], a) == d2
  }

  /** The first three frames: the stream is closed, still in the table, and its DATA gone. */
  lemma DropsQuietly(w: World, a: u32, b: u32, h: HeaderList, d1: bytes, room: nat) returns (ws: seq<World>, ls: seq<Label>)
    requires ValidEngine(w.engine) && TwoWait(w.engine.send.conn, a, b, |d1| + room) && 0 < |d1| <= MAX_FRAME_SIZE_LIMIT
    ensures |ws| == 4 && |ls| == 3 && ws[0] == w && Handles(w, ws, ls) && forall i :: 0 <= i < 3 ==> !ls[i].frame.GoAway?
    ensures ls[0].output.events == [ResponseHeaders(a, h, false)] && ls[1].output.events == [] == ls[2].output.events
    ensures Drops(ws[2], ls[2], a) && PayloadOf(ls[2], a) == d1 && PayloadOf(ls[0], a) == [] == PayloadOf(ls[1], a)
    ensures TwoWait(ws[3].engine.send.conn, a, b, room) && ws[3].engine.send.conn.streams[a].state.Closed?
  {
    var l0, w1 := HeadersArrive(w, a, h);
    var l1, w2 := ZeroCloses(w1, a);
    var l2, w3 := ClosedDrops(w2, a, d1);
    ws, ls := [w, w1, w2, w3], [l0, l1, l2];
  }

  /** The last two: the table forgets the stream, and takes the rest of its body. */
  lemma TakesQuietly(w: World, a: u32, b: u32, d2: bytes) returns (ws: seq<World>, ls: seq<Label>)
    requires ValidEngine(w.engine) && TwoWait(w.engine.send.conn, a, b, |d2|) && |d2| <= MAX_FRAME_SIZE_LIMIT
    requires w.engine.send.conn.streams[a].state.Closed?
    ensures |ws| == 3 && |ls| == 2 && ws[0] == w && Handles(w, ws, ls) && forall i :: 0 <= i < 2 ==> !ls[i].frame.GoAway?
    ensures ls[0].output.events == [ResponseData(b, [], true)] && ls[1].output.events == [ResponseData(a, d2, true)]
    ensures PayloadOf(ls[0], a) == [] && PayloadOf(ls[1], a) == d2
  {
    var l3, w4 := EndClears(w, a, b);
    var l4, w5 := UnknownTakes(w4, a, d2);
    ws, ls := [w, w4, w5], [l3, l4];
  }

  ghost predicate StepAt(ws: seq<World>, ls: seq<Label>, i: nat) {
    i < |ls| && |ws| == |ls| + 1 && ls[i].Receive? && Next(ws[i], ls[i], ws[i + 1])
  }

  lemma HandlesSteps(w: World, ws: seq<World>, ls: seq<Label>)
    requires |ws| == |ls| + 1 && ws[0] == w && ValidEngine(ws[|ls|].engine)
    ensures Handles(w, ws, ls) <==> forall i :: 0 <= i < |ls| ==> StepAt(ws, ls, i)
  {
    if forall i :: 0 <= i < |ls| ==> StepAt(ws, ls, i) {
      forall i | 0 <= i < |ls|
        ensures ls[i].Receive? && Next(ws[i], ls[i], ws[i + 1])
      {
        assert StepAt(ws, ls, i);
      }
    }
  }

  lemma StepMoves(ws: seq<World>, ls: seq<Label>, i: nat, xs: seq<World>, ks: seq<Label>, k: nat)
    requires StepAt(ws, ls, i) && k < |ks| && |xs| == |ks| + 1
    requires ks[k] == ls[i] && xs[k] == ws[i] && xs[k + 1] == ws[i + 1]
    ensures StepAt(xs, ks, k)
  {
  }

  lemma HandlesBoth(w: World, ws: seq<World>, ls: seq<Label>, vs: seq<World>, ms: seq<Label>)
    requires Handles(w, ws, ls) && Handles(ws[|ls|], vs, ms)
    ensures Handles(w, ws + vs[1..], ls + ms)
  {
    var xs, ks := ws + vs[1..], ls + ms;
    HandlesSteps(w, ws, ls);
    HandlesSteps(ws[|ls|], vs, ms);
    forall i | 0 <= i < |ks|
      ensures StepAt(xs, ks, i)
    {
      if i < |ls| {
        StepMoves(ws, ls, i, xs, ks, i);
      } else {
        StepMoves(vs, ms, i - |ls|, xs, ks, i);
      }
    }
    assert xs[|ks|] == vs[|ms|];
    HandlesSteps(w, xs, ks);
  }

  lemma HoleExists(w: World, a: u32, b: u32, h: HeaderList, d1: bytes, d2: bytes) returns (ws: seq<World>, ls: seq<Label>)
    requires ValidEngine(w.engine) && TwoWait(w.engine.send.conn, a, b, |d1| + |d2|) && d1 != []
    requires |d1| <= MAX_FRAME_SIZE_LIMIT && |d2| <= MAX_FRAME_SIZE_LIMIT
    ensures Hole(ws, ls, a, b, h, d1, d2) && ws[0] == w
  {
    var vs, ks := DropsQuietly(w, a, b, h, d1, |d2|);
    var us, ms := TakesQuietly(vs[3], a, b, d2);
    ws, ls := vs + us[1..], ks + ms;
    HandlesBoth(w, vs, ks, us, ms);
  }

  // ---- The caller ---------------------------------------------------------------------------------

  /** A frame dropped while the caller waits is lost to it. */
  lemma {:induction false} LosesAt(d: Desk, ws: seq<World>, ls: seq<Label>, o: Outside, sid: u32, rank: nat, k: nat)
    requires |ws| == |ls| + 1 && Inward(ls) && k < |ls| && Drops(ws[k], ls[k], sid)
    requires Waits(OnEvents(d, EventsOf(ls[..k]), o.hash, o.status), sid, rank)
    ensures Loses(d, ws, ls, o, sid, rank)
    decreases k
  {
    Waiters.EventsShrink(d, EventsOf(ls[..k]), o);
    if k > 0 {
      assert ls[..k][0] == ls[0] && ls[..k][1..] == ls[1..][..k - 1];
      OnEventsAppend(d, ls[0].output.events, EventsOf(ls[1..][..k - 1]), o.hash, o.status);
      LosesAt(After(d, ls[0], o), ws[1..], ls[1..], o, sid, rank, k - 1);
    }
  }

  function PayloadsOf(ls: seq<Label>, sid: u32): bytes {
    if ls == [] then [] else PayloadOf(ls[0], sid) + PayloadsOf(ls[1..], sid)
  }

  /** A caller that waits until the last frame is offered all of them. */
  lemma {:induction false} OfferedAll(d: Desk, ls: seq<Label>, o: Outside, sid: u32, rank: nat)
    requires Inward(ls) && ls != [] && Waits(OnEvents(d, EventsOf(ls[..|ls| - 1]), o.hash, o.status), sid, rank)
    ensures Offered(d, ls, o, sid, rank) == PayloadsOf(ls, sid)
    decreases |ls|
  {
    Waiters.EventsShrink(d, EventsOf(ls[..|ls| - 1]), o);
    if |ls| > 1 {
      var later := ls[1..][..|ls| - 2];
      assert ls[..|ls| - 1][0] == ls[0] && ls[..|ls| - 1][1..] == later;
      OnEventsAppend(d, ls[0].output.events, EventsOf(later), o.hash, o.status);
      OfferedAll(After(d, ls[0], o), ls[1..], o, sid, rank);
    }
  }

  lemma {:induction false} NeverCut(d: Desk, ls: seq<Label>, o: Outside, sid: u32, rank: nat)
    requires Inward(ls) && forall i :: 0 <= i < |ls| ==> !CutBy(ls[i], sid)
    ensures !CutIn(d, ls, o, sid, rank)
    decreases |ls|
  {
    if ls != [] {
      NeverCut(After(d, ls[0], o), ls[1..], o, sid, rank);
    }
  }

  lemma HeadersSeen(d: Desk, o: Outside, a: u32, rank: nat, h: HeaderList)
    requires DeskInv(d) && ValidOutside(o) && Waits(d, a, rank) && Silent(d.log, rank) && !Interim(o.status(h))
    ensures var d' := OnEvent(d, ResponseHeaders(a, h, false), o.hash, o.status);
            DeskInv(d') && Waits(d', a, rank) && Mine(d'.log, rank) == [Head(rank, Response(o.status(h), h))]
  {
    MineNone(d.log, rank);
    assert d.pending[a].headers;
    EventReplies(d, ResponseHeaders(a, h, false), o, a, rank);
    OnEventKeeps(d, ResponseHeaders(a, h, false), o.hash, o.status);
  }

  lemma OtherSeen(d: Desk, o: Outside, a: u32, b: u32, rank: nat)
    requires DeskInv(d) && ValidOutside(o) && Waits(d, a, rank) && a != b
    ensures var d' := OnEvent(d, ResponseData(b, [], true), o.hash, o.status);
            DeskInv(d') && Waits(d', a, rank) && Mine(d'.log, rank) == Mine(d.log, rank)
  {
    EventReplies(d, ResponseData(b, [], true), o, a, rank);
    OnEventKeeps(d, ResponseData(b, [], true), o.hash, o.status);
  }

  lemma EndSeen(d: Desk, o: Outside, a: u32, rank: nat, d2: bytes, head: HeadReply)
    requires DeskInv(d) && ValidOutside(o) && Waits(d, a, rank) && head.Response? && Mine(d.log, rank) == [Head(rank, head)]
    ensures var d' := OnEvent(d, ResponseData(a, d2, true), o.hash, o.status);
            SeesComplete(d', rank) && Chunks(d'.log, rank) == d2
  {
    var d' := OnEvent(d, ResponseData(a, d2, true), o.hash, o.status);
    EventReplies(d, ResponseData(a, d2, true), o, a, rank);
    HoleLooks(Mine(d'.log, rank), rank, head, d2);
    ChunksMine(d'.log, rank);
  }

  lemma {:induction false} ChunksMine(log: seq<Delivery>, rank: nat)
    ensures Chunks(log, rank) == Chunks(Mine(log, rank), rank)
  {
    if log != [] {
      var init, x := log[..|log| - 1], log[|log| - 1];
      ChunksMine(init, rank);
      if x.who == rank {
        assert Mine(log, rank) == Mine(init, rank) + [x];
        assert Mine(log, rank)[..|Mine(log, rank)| - 1] == Mine(init, rank);
      } else {
        assert Mine(log, rank) == Mine(init, rank);
      }
    }
  }

  lemma TwoEvents(d: Desk, evs: seq<H2Event>, hash: HashOrder, status: HeaderList -> nat)
    requires |evs| == 2
    ensures OnEvents(d, evs, hash, status) == OnEvent(OnEvent(d, evs[0], hash, status), evs[1], hash, status)
  {
    assert evs == [evs[0]] + [evs[1]];
    OnEventsAppend(d, [evs[0]], [evs[1]], hash, status);
    OnlyEvent(d, [evs[0]], hash, status);
    OnlyEvent(OnEvent(d, evs[0], hash, status), [evs[1]], hash, status);
  }

  lemma ThreeEvents(d: Desk, evs: seq<H2Event>, hash: HashOrder, status: HeaderList -> nat)
    requires |evs| == 3
    ensures OnEvents(d, evs, hash, status)
            == OnEvent(OnEvent(OnEvent(d, evs[0], hash, status), evs[1], hash, status), evs[2], hash, status)
  {
    assert evs == evs[..2] + [evs[2]];
    OnEventsAppend(d, evs[..2], [evs[2]], hash, status);
    TwoEvents(d, evs[..2], hash, status);
    OnlyEvent(OnEvents(d, evs[..2], hash, status), [evs[2]], hash, status);
  }

  /** The events of the hole, as the caller sees them. */
  lemma HoleSeen(d: Desk, o: Outside, a: u32, b: u32, rank: nat, h: HeaderList, d2: bytes, evs: seq<H2Event>)
    requires DeskInv(d) && ValidOutside(o) && Waits(d, a, rank) && a != b && Silent(d.log, rank) && !Interim(o.status(h))
    requires |evs| == 3 && evs[0] == ResponseHeaders(a, h, false) && evs[1] == ResponseData(b, [], true)
    requires evs[2] == ResponseData(a, d2, true)
    ensures SeesComplete(OnEvents(d, evs, o.hash, o.status), rank)
    ensures Chunks(OnEvents(d, evs, o.hash, o.status).log, rank) == d2
  {
    var d1 := OnEvent(d, evs[0], o.hash, o.status);
    ThreeEvents(d, evs, o.hash, o.status);
    HeadersSeen(d, o, a, rank, h);
    OtherSeen(d1, o, a, b, rank);
    EndSeen(OnEvent(d1, evs[1], o.hash, o.status), o, a, rank, d2, Response(o.status(h), h));
  }

  lemma HoleLooks(xs: seq<Delivery>, rank: nat, head: HeadReply, d2: bytes)
    requires head.Response?
    requires xs == [Head(rank, head)] + (if d2 != [] then [Body(rank, Chunk(d2))] else []) + [End(rank)]
    ensures Complete(xs, rank) && Chunks(xs, rank) == d2
  {
    assert IsResponse(xs[0]) && xs[|xs| - 1] == End(rank);
    var head, tail := [Head(rank, head)], (if d2 != [] then [Body(rank, Chunk(d2))] else []);
    ChunksQuiet(head + tail, [End(rank)], rank);
    ChunksAppend(head, tail, rank);
    ChunksNone(head, rank);
    if d2 != [] {
      assert tail[..0] == [];
    }
  }

  /** With nothing queued a turn ends as it began. */
  lemma QuietArm(s: System, o: Outside)
    requires ValidEngine(s.world.engine) && s.desk.waiting == []
    ensures AfterArm(s, o).desk == s.desk && AfterArm(s, o).world == s.world
  {
  }

  lemma {:induction false} EventsLeaveQueue(d: Desk, evs: seq<H2Event>, o: Outside)
    ensures OnEvents(d, evs, o.hash, o.status).waiting == d.waiting
    ensures OnEvents(d, evs, o.hash, o.status).openings == d.openings
    decreases |evs|
  {
    if evs != [] {
      OnEventQueue(d, evs[0], o.hash, o.status);
      EventsLeaveQueue(OnEvent(d, evs[0], o.hash, o.status), evs[1..], o);
    }
  }

  /** A read with nothing queued: the desk is as the events left it. */
  lemma HoleRead(s: System, o: Outside, ws: seq<World>, ls: seq<Label>) returns (s': System)
    requires s.running && s.desk.waiting == [] && ValidOutside(o) && Handles(s.world, ws, ls)
    requires ws[|ls|].opens <= MAX_OPENS
    ensures SysNext(s, OnRead(ws, ls, None, true), o, s')
    ensures s'.desk == OnEvents(s.desk, EventsOf(ls), o.hash, o.status) && s'.desk.openings == s.desk.openings
  {
    var d := OnEvents(s.desk, Events(ls, None), o.hash, o.status);
    EventsLeaveQueue(s.desk, Events(ls, None), o);
    BadIsQuiet(s.desk, ls, None, o);
    var t := Settle(s.(world := ws[|ls|]), d);
    QuietArm(t, o);
    s' := AfterArm(t, o);
  }

  lemma ReadOpens(s: System, ws: seq<World>, ls: seq<Label>)
    requires SysInv(s) && Handles(s.world, ws, ls)
    ensures ws[|ls|].opens <= MAX_OPENS
  {
    HandlesReaches(s.world, ws, ls, |ls|);
  }

  lemma HoleThen(t: Trace, o: Outside, ws: seq<World>, ls: seq<Label>, sid: u32, rank: nat) returns (t': Trace)
    requires SysRun(t) && t.s.running && t.s.desk.waiting == [] && ValidOutside(o) && Handles(t.s.world, ws, ls)
    requires OpenedOn(t.s.desk, sid, rank) && !CutOff(t, sid, rank) && ws[|ls|].opens <= MAX_OPENS
    requires Loses(t.s.desk, ws, ls, o, sid, rank) && !CutIn(t.s.desk, ls, o, sid, rank)
    ensures SysRun(t') && Earlier(t, t') && OpenedOn(t'.s.desk, sid, rank)
    ensures OfferedTo(t', sid, rank) == OfferedTo(t, sid, rank) + Offered(t.s.desk, ls, o, sid, rank)
    ensures t'.s.desk == OnEvents(t.s.desk, EventsOf(ls), o.hash, o.status)
    ensures !CutOff(t', sid, rank) && LostFor(t', sid, rank)
  {
    var s' := HoleRead(t.s, o, ws, ls);
    t' := Then(t, OnRead(ws, ls, None, true), o, s');
    assert Earlier(t, t);
  }

  lemma DeskInvOf(t: Trace)
    requires SysRun(t)
    ensures DeskInv(t.s.desk) && ValidEngine(t.s.world.engine) && SysInv(t.s)
  {
    SysRunInv(t);
  }

  lemma EventsOfOne(ls: seq<Label>)
    requires |ls| == 1 && Inward(ls)
    ensures EventsOf(ls) == ls[0].output.events
  {
    assert ls[1..] == [] && EventsOf([]) == [];
  }

  lemma HoleStart(ls: seq<Label>, a: u32, b: u32, h: HeaderList, d2: bytes)
    requires HoleReport(ls, a, b, h, d2)
    ensures EventsOf(ls[..2]) == [ResponseHeaders(a, h, false)]
    ensures EventsOf(ls[..4]) == [ResponseHeaders(a, h, false)] + [ResponseData(b, [], true)]
  {
    EventsOfPair(ls[..2]);
    EventsOfPair(ls[2..4]);
    EventsOfAppend(ls[..2], ls[2..4]);
    assert ls[..4] == ls[..2] + ls[2..4];
  }

  lemma HoleEvents(ls: seq<Label>, a: u32, b: u32, h: HeaderList, d2: bytes)
    requires HoleReport(ls, a, b, h, d2)
    ensures EventsOf(ls)
            == [ResponseHeaders(a, h, false)] + [ResponseData(b, [], true)] + [ResponseData(a, d2, true)]
  {
    HoleStart(ls, a, b, h, d2);
    EventsOfOne(ls[4..]);
    EventsOfAppend(ls[..4], ls[4..]);
    assert ls == ls[..4] + ls[4..];
  }

  lemma HoleUncut(ls: seq<Label>, a: u32, b: u32, h: HeaderList, d2: bytes, i: nat)
    requires HoleReport(ls, a, b, h, d2) && i < |ls|
    ensures !CutBy(ls[i], a)
  {
  }

  lemma HolePayloads(ls: seq<Label>, a: u32, d1: bytes, d2: bytes)
    requires |ls| == 5 && HoleSent(ls, a, d1, d2)
    ensures PayloadsOf(ls, a) == d1 + d2
  {
    var l1, l2, l3, l4 := ls[1..], ls[2..], ls[3..], ls[4..];
    assert l1[1..] == l2 && l2[1..] == l3 && l3[1..] == l4 && l4[1..] == [];
    assert PayloadsOf(l4, a) == d2 + PayloadsOf([], a);
    assert PayloadsOf(l3, a) == PayloadOf(ls[3], a) + PayloadsOf(l4, a);
    assert PayloadsOf(l2, a) == d1 + PayloadsOf(l3, a);
    assert PayloadsOf(l1, a) == PayloadOf(ls[1], a) + PayloadsOf(l2, a);
  }

  /** The caller waits until the last frame. */
  lemma HoleWaits(d: Desk, o: Outside, ls: seq<Label>, a: u32, b: u32, rank: nat, h: HeaderList, d2: bytes)
    requires HoleReport(ls, a, b, h, d2) && a != b
    requires DeskInv(d) && ValidOutside(o) && Waits(d, a, rank) && Silent(d.log, rank) && !Interim(o.status(h))
    ensures Waits(OnEvents(d, EventsOf(ls[..2]), o.hash, o.status), a, rank)
    ensures Waits(OnEvents(d, EventsOf(ls[..4]), o.hash, o.status), a, rank)
  {
    var e0, e1 := ResponseHeaders(a, h, false), ResponseData(b, [], true);
    HoleStart(ls, a, b, h, d2);
    OnlyEvent(d, [e0], o.hash, o.status);
    TwoEvents(d, [e0] + [e1], o.hash, o.status);
    HeadersSeen(d, o, a, rank, h);
    OtherSeen(OnEvent(d, e0, o.hash, o.status), o, a, b, rank);
  }

  lemma HoleOffers(d: Desk, o: Outside, ls: seq<Label>, a: u32, rank: nat, d1: bytes, d2: bytes)
    requires |ls| == 5 && Inward(ls) && HoleSent(ls, a, d1, d2)
    requires Waits(OnEvents(d, EventsOf(ls[..4]), o.hash, o.status), a, rank)
    ensures Offered(d, ls, o, a, rank) == d1 + d2
  {
    assert ls[..|ls| - 1] == ls[..4];
    OfferedAll(d, ls, o, a, rank);
    HolePayloads(ls, a, d1, d2);
  }

  lemma HoleLoses(d: Desk, o: Outside, ws: seq<World>, ls: seq<Label>, a: u32, b: u32, rank: nat, h: HeaderList,
                  d1: bytes, d2: bytes)
    requires HoleReport(ls, a, b, h, d2) && HoleSent(ls, a, d1, d2) && a != b && |ws| == 6 && Drops(ws[2], ls[2], a)
    requires DeskInv(d) && ValidOutside(o) && Waits(d, a, rank) && Silent(d.log, rank) && !Interim(o.status(h))
    ensures Loses(d, ws, ls, o, a, rank) && !CutIn(d, ls, o, a, rank) && Offered(d, ls, o, a, rank) == d1 + d2
    ensures var d' := OnEvents(d, EventsOf(ls), o.hash, o.status); SeesComplete(d', rank) && Chunks(d'.log, rank) == d2
  {
    HoleWaits(d, o, ls, a, b, rank, h, d2);
    LosesAt(d, ws, ls, o, a, rank, 2);
    HoleOffers(d, o, ls, a, rank, d1, d2);
    forall i | 0 <= i < |ls|
      ensures !CutBy(ls[i], a)
    {
      HoleUncut(ls, a, b, h, d2, i);
    }
    NeverCut(d, ls, o, a, rank);
    HoleEvents(ls, a, b, h, d2);
    HoleSeen(d, o, a, b, rank, h, d2, EventsOf(ls));
  }

  lemma NotCutYet(t: Trace, sid: u32, rank: nat)
    requires SysRun(t) && OpenedOn(t.s.desk, sid, rank) && Waits(t.s.desk, sid, rank)
    ensures !CutOff(t, sid, rank)
  {
    SysRunInv(t);
    RunExplained(t, sid, rank);
    WaitingSees(t.s.desk, sid, rank);
  }

  lemma WaitsOpened(t: Trace, sid: u32, rank: nat)
    requires SysRun(t) && Waits(t.s.desk, sid, rank)
    ensures OpenedOn(t.s.desk, sid, rank)
  {
    SysRunInv(t);
    DeskFacts(t.s);
    var j :| 0 <= j < |t.s.desk.openings| && t.s.desk.openings[j] == Opening(rank, sid);
  }

  /** From every run in which a caller waits beside another one there is a continuation that shows it a
      complete response, ended by the peer, with a hole: of two pieces sent it gets the second. No GOAWAY
      is involved. */
  lemma HoleAhead(t: Trace, o: Outside, a: u32, b: u32, rank: nat, h: HeaderList, d1: bytes, d2: bytes) returns (t': Trace)
    requires SysRun(t) && t.s.running && t.s.desk.waiting == [] && ValidOutside(o)
    requires Waits(t.s.desk, a, rank) && Silent(t.s.desk.log, rank) && !Interim(o.status(h))
    requires TwoWait(t.s.world.engine.send.conn, a, b, |d1| + |d2|) && d1 != []
    requires |d1| <= MAX_FRAME_SIZE_LIMIT && |d2| <= MAX_FRAME_SIZE_LIMIT
    ensures SysRun(t') && Earlier(t, t') && OpenedOn(t'.s.desk, a, rank)
    ensures SeesComplete(t'.s.desk, rank) && !CutOff(t', a, rank) && LostFor(t', a, rank)
    ensures Chunks(t'.s.desk.log, rank) == d2 && OfferedTo(t', a, rank) == OfferedTo(t, a, rank) + (d1 + d2)
  {
    DeskInvOf(t);
    WaitsOpened(t, a, rank);
    NotCutYet(t, a, rank);
    var ws, ls := HoleExists(t.s.world, a, b, h, d1, d2);
    ReadOpens(t.s, ws, ls);
    HoleLoses(t.s.desk, o, ws, ls, a, b, rank, h, d1, d2);
    t' := HoleThen(t, o, ws, ls, a, rank);
  }

  // ---- The run ------------------------------------------------------------------------------------

  ghost function Listing(ids: set<u32>): (order: seq<u32>)
    ensures forall sid: u32 :: sid in order <==> sid in ids
  {
    if ids == {} then []
    else
      var x :| x in ids;
      [x] + Listing(ids - {x})
  }

  /** Callers stay, writes succeed, and every final response is a 200. */
  ghost function Usual(): (o: Outside)
    ensures ValidOutside(o) && o.status([]) == 200 && (forall k: nat :: !o.gone(k)) && forall k: u32 :: o.writes(k)
  {
    assert forall m: map<u32, Pending> :: (set sid | sid in Listing(m.Keys)) == m.Keys;
    Outside((m: map<u32, Pending>) => Listing(m.Keys), _ => 200, _ => false, _ => true)
  }

  /** Nothing has been read so far. */
  predicate Unread(t: Trace) {
    t.Begun? || (!t.arm.OnRead? && Unread(t.before))
  }

  lemma {:induction false} NothingRead(t: Trace, sid: u32, rank: nat)
    requires Unread(t)
    ensures OfferedTo(t, sid, rank) == []
  {
    if t.Then? {
      NothingRead(t.before, sid, rank);
    }
  }

  /** Ready for a second request. */
  ghost predicate Idle(s: System) {
    && s.running && !s.shutdown && s.channel == [] && s.limit.None? && s.desk.waiting == [] && s.nextId == 0
    && s.senders == {} && ValidEngine(s.world.engine) && s.world.engine.send.conn.error.None?
    && s.world.engine.send.conn.remote.maxConcurrentStreams.None? && s.world.opens < MAX_OPENS
  }

  /** Its permit, its place in the channel, and the turn of the loop that opens its stream. */
  function Acquired(s: System): System {
    s.(senders := s.senders + {s.nextId}, nextId := s.nextId + 1, free := s.free - 1)
  }

  function Queueing(s: System, r: Request): System {
    s.(senders := s.senders - {0}, channel := s.channel + [Command(0, r)])
  }

  lemma QueueingSteps(s: System, r: Request, o: Outside)
    requires Idle(s) && ValidOutside(o)
    ensures SysNext(s, Acquire, o, Acquired(s)) && SysNext(Acquired(s), Enqueue(0, r), o, Queueing(Acquired(s), r))
  {
  }

  lemma OneDispatched(w: World, d: Desk, r: Request, o: Outside)
    requires ValidEngine(w.engine) && |d.waiting| == 1 && d.waiting[0].request == r
    requires (forall k: nat :: !o.gone(k)) && forall k: u32 :: o.writes(k)
    requires w.engine.send.conn.error.None? && w.engine.send.conn.remote.maxConcurrentStreams.None?
    ensures DispatchAll(w, d, o) == (AfterAsk(w, r), OpenHead(d, w.engine.send.conn.nextStreamId), true)
  {
    AskFixed(w.engine, r);
    var d1 := OpenHead(d, w.engine.send.conn.nextStreamId);
    assert d1.waiting == [];
    assert Dispatch(AfterAsk(w, r), d1, o) == (AfterAsk(w, r), d1, true);
  }

  lemma CommandOpens(s: System, r: Request, o: Outside)
    requires s.running && !s.shutdown && s.channel == [Command(0, r)] && s.desk.waiting == []
    requires (forall k: nat :: !o.gone(k)) && forall k: u32 :: o.writes(k)
    requires ValidEngine(s.world.engine) && s.world.engine.send.conn.error.None?
    requires s.world.engine.send.conn.remote.maxConcurrentStreams.None?
    ensures var s' := AfterArm(TakeCommand(s, o), o);
            && s'.running && s'.world == AfterAsk(s.world, r)
            && s'.desk == OpenHead(Arrive(s.desk, 0, r), s.world.engine.send.conn.nextStreamId)
  {
    var t := TakeCommand(s, o);
    assert t.desk == Arrive(s.desk, 0, r) && t.desk.waiting == [Waiting(0, s.desk.arrivals, r)];
    OneDispatched(t.world, t.desk, r, o);
  }

  lemma Commanded(s: System, r: Request, o: Outside) returns (s': System)
    requires s.running && !s.shutdown && s.channel == [Command(0, r)] && s.desk.waiting == [] && o == Usual()
    requires ValidEngine(s.world.engine) && s.world.engine.send.conn.error.None? && s.world.opens < MAX_OPENS
    requires s.world.engine.send.conn.remote.maxConcurrentStreams.None?
    ensures SysNext(s, OnCommand, o, s') && s'.running && s'.world == AfterAsk(s.world, r)
    ensures s'.desk == OpenHead(Arrive(s.desk, 0, r), s.world.engine.send.conn.nextStreamId)
  {
    CommandOpens(s, r, o);
    s' := AfterArm(TakeCommand(s, o), o);
  }

  lemma SecondRequest(t: Trace, r: Request) returns (t': Trace)
    requires SysRun(t) && Idle(t.s)
    ensures SysRun(t') && t'.s.running && t'.s.world == AfterAsk(t.s.world, r) && t'.s.desk.waiting == []
    ensures Unread(t) ==> Unread(t')
    ensures t'.s.desk.log == t.s.desk.log
    ensures t'.s.desk.pending == t.s.desk.pending[t.s.world.engine.send.conn.nextStreamId := Pending(t.s.desk.arrivals, true)]
  {
    var o, s1 := Usual(), Acquired(t.s);
    var s2 := Queueing(s1, r);
    QueueingSteps(t.s, r, o);
    var s3 := Commanded(s2, r, o);
    t' := Then(Then(Then(t, Acquire, o, s1), Enqueue(0, r), o, s2), OnCommand, o, s3);
  }

  lemma FirstIdle(w: World, r: Request, o: Outside)
    requires ValidEngine(w.engine) && w == Witnesses.Fresh(Immediate) && r.body == [] && forall k: u32 :: o.writes(k)
    ensures var s := WithFirst(Base(w, None), r, o);
            && Idle(s) && s.world == AfterAsk(w, r) && s.desk == OpenFirst(EMPTY_DESK, 1)
  {
    AskFixed(w.engine, r);
  }

  lemma FirstBegins(w: World, r: Request, o: Outside, s: System)
    requires Start(w, [], 0, 0, Immediate) && ValidEngine(w.engine) && s == WithFirst(Base(w, None), r, o)
    ensures DriverTheorems.Fresh(s, Some(r))
  {
    assert BeginsWith(s, Some(r), None, o, w, [], 0, 0, Immediate);
    assert Begins(s, Some(r), None, o);
  }

  /** A client started with a first request. */
  lemma FirstRequest(r: Request) returns (t: Trace)
    requires r.body == []
    ensures t.Begun? && SysRun(t) && Idle(t.s) && t.s.world == AfterAsk(Witnesses.Fresh(Immediate), r)
    ensures t.s.desk == OpenFirst(EMPTY_DESK, 1)
  {
    var w, o := Witnesses.Fresh(Immediate), Usual();
    Witnesses.FreshReachable(Immediate);
    FirstIdle(w, r, o);
    var s := WithFirst(Base(w, None), r, o);
    FirstBegins(w, r, o, s);
    t := Begun(Some(r), s);
  }

  lemma TwoStreamsWait(w: World, r: Request)
    requires w == Witnesses.Fresh(Immediate) && r.body == []
    ensures ValidEngine(w.engine) && ValidEngine(AfterAsk(w, r).engine)
    ensures AfterAsk(w, r).engine.send.conn.nextStreamId == 3
    ensures TwoWait(AfterAsk(AfterAsk(w, r), r).engine.send.conn, 1, 3, 65535)
  {
    Witnesses.FreshReachable(Immediate);
    AskFixed(w.engine, r);
    Witnesses.AskBodiless(w.engine, r);
    Witnesses.AskBodiless(AfterAsk(w, r).engine, r);
  }

  /** The caller sees a complete response, which the peer has ended and no GOAWAY cut off; the peer sent
      this body, and the caller got that one. */
  ghost predicate Mistaken(t: Trace, sid: u32, rank: nat, sent: bytes, got: bytes) {
    && SysRun(t) && SeesComplete(t.s.desk, rank) && PeerDone(t, sid, rank) && !CutOff(t, sid, rank)
    && OfferedTo(t, sid, rank) == sent && Chunks(t.s.desk.log, rank) == got
  }

  lemma MistakenAhead(t: Trace, o: Outside, a: u32, b: u32, rank: nat, h: HeaderList, d1: bytes, d2: bytes)
    requires SysRun(t) && Unread(t) && t.s.running && t.s.desk.waiting == [] && ValidOutside(o)
    requires Waits(t.s.desk, a, rank) && Silent(t.s.desk.log, rank) && !Interim(o.status(h))
    requires TwoWait(t.s.world.engine.send.conn, a, b, |d1| + |d2|) && d1 != []
    requires |d1| <= MAX_FRAME_SIZE_LIMIT && |d2| <= MAX_FRAME_SIZE_LIMIT
    ensures exists t' :: Mistaken(t', a, rank, d1 + d2, d2)
  {
    var t' := HoleAhead(t, o, a, b, rank, h, d1, d2);
    NothingRead(t, a, rank);
    CompleteIsWholeIff(t', a, rank);
    assert Mistaken(t', a, rank, d1 + d2, d2);
  }

  /** Two callers wait, on streams 1 and 3. */
  lemma BothWait(r: Request) returns (t: Trace)
    requires r.body == []
    ensures SysRun(t) && t.s.running && t.s.desk.waiting == [] && t.s.desk.log == [] && Unread(t)
    ensures Waits(t.s.desk, 1, 0) && TwoWait(t.s.world.engine.send.conn, 1, 3, 65535)
  {
    var t0 := FirstRequest(r);
    TwoStreamsWait(Witnesses.Fresh(Immediate), r);
    t := SecondRequest(t0, r);
  }

  /** For any two pieces of a body that fit the connection window there is a run in which the peer sends both
      on stream 1 and ends it, and the caller sees a complete response with the second piece alone. */
  lemma HoleIsReachable(r: Request, d1: bytes, d2: bytes)
    requires r.body == [] && d1 != [] && |d1| + |d2| <= 65535
    ensures exists t :: Mistaken(t, 1, 0, d1 + d2, d2)
  {
    var t := BothWait(r);
    MistakenAhead(t, Usual(), 1, 3, 0, [], d1, d2);
  }
}
