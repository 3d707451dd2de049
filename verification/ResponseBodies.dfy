/** Response bodies end to end: over whole runs, the chunks a caller is sent are the DATA payloads the
    engine accepted on its stream since it was opened. */
module ResponseBodies {
  import opened Wire
  import opened Frames
  import opened Codec
  import opened Streams
  import opened Connection
  import opened Policy
  import opened Engine
  import opened EngineLaws
  import opened EngineTheorems
  import opened EngineObject
  import opened RequestDesk
  import opened Replies
  import opened Driver
  import opened DriverRuns
  import opened DriverTheorems

  // ---- What the caller got ------------------------------------------------------------------------

  predicate IsChunk(x: Delivery, rank: nat) {
    x.Body? && x.who == rank && x.body.Chunk?
  }

  /** The body bytes sent to a caller, in order. */
  function Chunks(log: seq<Delivery>, rank: nat): bytes {
    if log == [] then []
    else Chunks(log[..|log| - 1], rank) + (if IsChunk(log[|log| - 1], rank) then log[|log| - 1].body.data else [])
  }

  lemma {:induction false} ChunksAppend(a: seq<Delivery>, b: seq<Delivery>, rank: nat)
    ensures Chunks(a + b, rank) == Chunks(a, rank) + Chunks(b, rank)
    decreases |b|
  {
    if b == [] {
      assert a + b == a;
    } else {
      assert (a + b)[..|a + b| - 1] == a + b[..|b| - 1];
      ChunksAppend(a, b[..|b| - 1], rank);
    }
  }

  lemma {:induction false} ChunksNone(xs: seq<Delivery>, rank: nat)
    requires forall i :: 0 <= i < |xs| ==> !IsChunk(xs[i], rank)
    ensures Chunks(xs, rank) == []
  {
    if xs != [] {
      ChunksNone(xs[..|xs| - 1], rank);
    }
  }

  /** Deliveries without a chunk for the caller change nothing. */
  lemma ChunksQuiet(log: seq<Delivery>, more: seq<Delivery>, rank: nat)
    requires forall i :: 0 <= i < |more| ==> !IsChunk(more[i], rank)
    ensures Chunks(log + more, rank) == Chunks(log, rank)
  {
    ChunksAppend(log, more, rank);
    ChunksNone(more, rank);
  }

  // ---- Only events carry chunks -------------------------------------------------------------------

  lemma EndChunks(d: Desk, sid: u32, fault: Fault, body: bool, rank: nat)
    ensures Chunks(EndStream(d, sid, fault, body).log, rank) == Chunks(d.log, rank)
  {
    if sid in d.pending {
      EndLog(d, sid, fault, body);
      ChunksQuiet(d.log, Farewell(d.pending[sid], fault, body), rank);
    }
  }

  ghost predicate Chunkless(f: Ending, rank: nat) {
    forall d: Desk, sid: u32 :: Chunks(f(d, sid).log, rank) == Chunks(d.log, rank)
  }

  lemma {:induction false} EachChunks(d: Desk, order: seq<u32>, f: Ending, rank: nat)
    requires Chunkless(f, rank)
    ensures Chunks(Each(d, order, f).log, rank) == Chunks(d.log, rank)
    decreases |order|
  {
    if order != [] {
      EachChunks(f(d, order[0]), order[1..], f, rank);
    }
  }

  lemma NotifyAllChunks(d: Desk, order: seq<u32>, fault: Fault, rank: nat)
    ensures Chunks(NotifyAll(d, order, fault).log, rank) == Chunks(d.log, rank)
  {
    forall x: Desk, sid: u32
      ensures Chunks(Failing(fault)(x, sid).log, rank) == Chunks(x.log, rank)
    {
      EndChunks(x, sid, fault, true, rank);
    }
    EachChunks(d, order, Failing(fault), rank);
  }

  lemma RejectAboveChunks(d: Desk, order: seq<u32>, last: u32, rank: nat)
    ensures Chunks(RejectAbove(d, order, last).log, rank) == Chunks(d.log, rank)
  {
    forall x: Desk, sid: u32
      ensures Chunks(Rejecting(last)(x, sid).log, rank) == Chunks(x.log, rank)
    {
      EndChunks(x, sid, GoAwayFault, false, rank);
    }
    EachChunks(d, order, Rejecting(last), rank);
  }

  lemma {:induction false} NotifyWaitingChunks(d: Desk, fault: Fault, rank: nat)
    ensures Chunks(NotifyWaiting(d, fault).log, rank) == Chunks(d.log, rank)
    decreases |d.waiting|
  {
    if d.waiting != [] {
      var said := Regret(d.waiting[0].rank, fault);
      ChunksQuiet(d.log, said, rank);
      NotifyWaitingChunks(Leave(d, 0, said), fault, rank);
    }
  }

  lemma NotifyBothChunks(d: Desk, o: Outside, fault: Fault, rank: nat)
    ensures Chunks(NotifyBoth(d, o, fault).log, rank) == Chunks(d.log, rank)
  {
    NotifyAllChunks(d, o.hash(d.pending), fault, rank);
    NotifyWaitingChunks(NotifyAll(d, o.hash(d.pending), fault), fault, rank);
  }

  lemma DiscardChunks(d: Desk, i: nat, rank: nat)
    requires i < |d.waiting|
    ensures Chunks(Discard(d, i).log, rank) == Chunks(d.log, rank)
  {
    ChunksQuiet(d.log, [End(d.waiting[i].rank)], rank);
  }

  lemma {:induction false} DispatchChunks(w: World, d: Desk, o: Outside, rank: nat)
    requires ValidEngine(w.engine)
    ensures Chunks(Dispatch(w, d, o).1.log, rank) == Chunks(d.log, rank)
    decreases |d.waiting|
  {
    if d.waiting != [] && CanOpenStream(w.engine.send.conn) {
      if o.gone(d.waiting[0].id) {
        DiscardChunks(d, 0, rank);
        DispatchChunks(w, Discard(d, 0), o, rank);
      } else {
        var sid := w.engine.send.conn.nextStreamId;
        AskFixed(w.engine, d.waiting[0].request);
        if o.writes(sid) {
          DispatchChunks(AfterAsk(w, d.waiting[0].request), OpenHead(d, sid), o, rank);
        } else {
          EndChunks(OpenHead(d, sid), sid, IoFault, true, rank);
        }
      }
    }
  }

  lemma DispatchAllChunks(w: World, d: Desk, o: Outside, rank: nat)
    requires ValidEngine(w.engine)
    ensures Chunks(DispatchAll(w, d, o).1.log, rank) == Chunks(d.log, rank)
  {
    if w.engine.send.conn.error.Some? {
      NotifyWaitingChunks(d, GoAwayFault, rank);
    } else {
      DispatchChunks(w, d, o, rank);
    }
  }

  lemma AfterArmChunks(s: System, o: Outside, rank: nat)
    requires ValidEngine(s.world.engine)
    ensures Chunks(AfterArm(s, o).desk.log, rank) == Chunks(s.desk.log, rank)
  {
    var (w, d, ok) := DispatchAll(s.world, s.desk, o);
    DispatchAllChunks(s.world, s.desk, o, rank);
    if !ok {
      NotifyBothChunks(d, o, IoFault, rank);
    }
  }

  // ---- Events -------------------------------------------------------------------------------------

  /** The data reported on a stream. */
  function DataOn(evs: seq<H2Event>, sid: u32): bytes {
    if evs == [] then []
    else (if evs[0].ResponseData? && evs[0].streamId == sid then evs[0].data else []) + DataOn(evs[1..], sid)
  }

  predicate Waits(d: Desk, sid: u32, rank: nat) {
    sid in d.pending && d.pending[sid].rank == rank
  }

  /** An event brings a caller its own stream's data, while it waits, and nothing else. */
  lemma EventChunks(d: Desk, ev: H2Event, hash: HashOrder, status: HeaderList -> nat, sid: u32, rank: nat)
    requires OnlyOn(d, sid, rank)
    ensures Chunks(OnEvent(d, ev, hash, status).log, rank)
            == Chunks(d.log, rank) + (if Waits(d, sid, rank) then DataOn([ev], sid) else [])
  {
    assert [ev][1..] == [];
    match ev
    case ResponseHeaders(s, headers, endStream) =>
      if s in d.pending && !Interim(status(headers)) {
        var p := d.pending[s];
        var more := (if p.headers then [Head(p.rank, Response(status(headers), headers))] else [])
                    + (if endStream then [End(p.rank)] else []);
        assert OnEvent(d, ev, hash, status).log == d.log + more;
        ChunksQuiet(d.log, more, rank);
      }
    case ResponseData(s, data, endStream) =>
      if s in d.pending {
        DataChunks(d, s, data, endStream, rank);
      }
    case StreamReset(s, code) => EndChunks(d, s, ResetFault(code), true, rank);
    case GoAwayReceived(last, code, _) =>
      NotifyAllChunks(d, hash(d.pending), GoAwayFault, rank);
      RejectAboveChunks(d, hash(d.pending), last, rank);
    case _ =>
  }

  lemma DataChunks(d: Desk, s: u32, data: bytes, endStream: bool, rank: nat)
    requires s in d.pending
    ensures var d1 := if data != [] then SendBody(d, s, Chunk(data)) else d;
            Chunks((if endStream then Finish(d1, s) else d1).log, rank)
            == Chunks(d.log, rank) + if d.pending[s].rank == rank then data else []
  {
    var r := d.pending[s].rank;
    var chunk, end := Body(r, Chunk(data)), End(r);
    assert (d.log + [chunk])[..|d.log|] == d.log;
    assert (d.log + [chunk] + [end])[..|d.log| + 1] == d.log + [chunk];
    assert (d.log + [end])[..|d.log|] == d.log;
  }

  /** Streams only leave the map, and keep their caller. */
  predicate Shrinks(p: map<u32, Pending>, p': map<u32, Pending>) {
    forall t :: t in p' ==> t in p && p'[t].rank == p[t].rank
  }

  lemma EventShrinks(d: Desk, ev: H2Event, hash: HashOrder, status: HeaderList -> nat)
    ensures Shrinks(d.pending, OnEvent(d, ev, hash, status).pending)
  {
    match ev
    case StreamReset(s, code) => FailPending(d, s, ResetFault(code));
    case GoAwayReceived(last, code, _) =>
      NotifyAllKeeps(d, hash(d.pending), GoAwayFault);
      RejectAboveKeeps(d, hash(d.pending), last);
    case _ =>
  }

  /** Over a list of events the caller gets a prefix of its stream's data, and all of it if it still
      waits at the end. */
  lemma {:induction false} EventsChunks(d: Desk, evs: seq<H2Event>, hash: HashOrder, status: HeaderList -> nat,
                                        sid: u32, rank: nat)
    requires OnlyOn(d, sid, rank)
    ensures var d' := OnEvents(d, evs, hash, status);
            && Shrinks(d.pending, d'.pending)
            && Chunks(d.log, rank) <= Chunks(d'.log, rank) <= Chunks(d.log, rank) + DataOn(evs, sid)
            && (!Waits(d, sid, rank) ==> Chunks(d'.log, rank) == Chunks(d.log, rank))
            && (Waits(d', sid, rank) ==> Chunks(d'.log, rank) == Chunks(d.log, rank) + DataOn(evs, sid))
    decreases |evs|
  {
    if evs == [] {
      assert Chunks(d.log, rank) + [] == Chunks(d.log, rank);
    } else {
      var d1 := OnEvent(d, evs[0], hash, status);
      EventChunks(d, evs[0], hash, status, sid, rank);
      EventShrinks(d, evs[0], hash, status);
      EventsChunks(d1, evs[1..], hash, status, sid, rank);
      assert DataOn(evs, sid) == DataOn([evs[0]], sid) + DataOn(evs[1..], sid) by {
        assert [evs[0]][1..] == [];
      }
      Assoc(Chunks(d.log, rank), DataOn([evs[0]], sid), DataOn(evs[1..], sid));
    }
  }

  /** How many of the events find the caller still waiting. */
  function HandledFor(d: Desk, evs: seq<H2Event>, hash: HashOrder, status: HeaderList -> nat, sid: u32, rank: nat): (n: nat)
    ensures n <= |evs|
    decreases |evs|
  {
    if evs == [] || !Waits(d, sid, rank) then 0
    else 1 + HandledFor(OnEvent(d, evs[0], hash, status), evs[1..], hash, status, sid, rank)
  }

  /** Exactly: the caller gets the data reported on its stream up to and including the event that finishes
      it. What the engine drops is not reported; `WholeBodies.BodyWholeIff` says when that is nothing. */
  lemma {:induction false} EventsExact(d: Desk, evs: seq<H2Event>, hash: HashOrder, status: HeaderList -> nat,
                                       sid: u32, rank: nat)
    requires OnlyOn(d, sid, rank)
    ensures var n := HandledFor(d, evs, hash, status, sid, rank);
            Chunks(OnEvents(d, evs, hash, status).log, rank) == Chunks(d.log, rank) + DataOn(evs[..n], sid)
    decreases |evs|
  {
    if evs == [] || !Waits(d, sid, rank) {
      EventsChunks(d, evs, hash, status, sid, rank);
      assert Chunks(d.log, rank) + [] == Chunks(d.log, rank);
    } else {
      var d1 := OnEvent(d, evs[0], hash, status);
      var m := HandledFor(d1, evs[1..], hash, status, sid, rank);
      EventChunks(d, evs[0], hash, status, sid, rank);
      EventShrinks(d, evs[0], hash, status);
      EventsExact(d1, evs[1..], hash, status, sid, rank);
      assert evs[..m + 1] == [evs[0]] + evs[1..][..m];
      DataOnAppend([evs[0]], evs[1..][..m], sid);
      Assoc(Chunks(d.log, rank), DataOn([evs[0]], sid), DataOn(evs[1..][..m], sid));
    }
  }

  // ---- Frames -------------------------------------------------------------------------------------

  /** The engine takes a DATA frame: both windows have room for it, and its stream, if known, receives. */
  predicate Accepts(e: Engine, f: H2Frame)
    requires f.Data?
  {
    var len := FlowLength(f.data, f.padding);
    && 0 <= e.send.conn.recvWindow && len <= e.send.conn.recvWindow
    && !Rejects(e.send.conn, f.streamId, len)
  }

  function AcceptedFrom(w: World, l: Label, sid: u32): bytes {
    if l.Receive? && l.frame.Data? && l.frame.streamId == sid && Accepts(w.engine, l.frame) then l.frame.data else []
  }

  /** The payloads accepted on a stream in the course of a read. */
  function Accepted(ws: seq<World>, ls: seq<Label>, sid: u32): bytes
    requires |ws| == |ls| + 1
    decreases |ls|
  {
    if ls == [] then [] else AcceptedFrom(ws[0], ls[0], sid) + Accepted(ws[1..], ls[1..], sid)
  }

  lemma DataEvents(e: Engine, f: H2Frame, sid: u32)
    requires ValidEngine(e) && f.Data?
    ensures DataOn(HandleData(e, f.streamId, f.data, f.endStream, f.padding).1.events, sid)
            == if f.streamId == sid && Accepts(e, f) then f.data else []
  {
    var evs := HandleData(e, f.streamId, f.data, f.endStream, f.padding).1.events;
    assert |evs| <= 1;
    if evs != [] {
      assert evs[1..] == [];
    }
  }

  lemma OtherEvents(e: Engine, f: H2Frame, decoded: Option<HeaderList>, e': Engine, out: Output, sid: u32)
    requires ValidEngine(e) && Handled(e, f, decoded, e', out) && !f.Data?
    ensures DataOn(out.events, sid) == []
  {
    assert |out.events| <= 1;
    if out.events != [] {
      assert out.events[1..] == [];
    }
  }

  lemma LabelData(w: World, l: Label, w': World, sid: u32)
    requires Next(w, l, w') && l.Receive?
    ensures DataOn(l.output.events, sid) == AcceptedFrom(w, l, sid)
  {
    if l.frame.Data? {
      DataEvents(w.engine, l.frame, sid);
    } else {
      OtherEvents(w.engine, l.frame, l.decoded, w'.engine, l.output, sid);
    }
  }

  lemma {:induction false} DataOnAppend(a: seq<H2Event>, b: seq<H2Event>, sid: u32)
    ensures DataOn(a + b, sid) == DataOn(a, sid) + DataOn(b, sid)
  {
    if a == [] {
      assert a + b == b;
    } else {
      assert (a + b)[1..] == a[1..] + b;
      DataOnAppend(a[1..], b, sid);
    }
  }

  lemma {:induction false} ReadData(w: World, ws: seq<World>, ls: seq<Label>, sid: u32)
    requires Handles(w, ws, ls)
    ensures DataOn(EventsOf(ls), sid) == Accepted(ws, ls, sid)
    decreases |ls|
  {
    if ls != [] {
      assert Next(ws[0], ls[0], ws[1]);
      LabelData(ws[0], ls[0], ws[1], sid);
      assert Handles(ws[1], ws[1..], ls[1..]);
      ReadData(ws[1], ws[1..], ls[1..], sid);
      DataOnAppend(ls[0].output.events, EventsOf(ls[1..]), sid);
    }
  }

  /** What an arm's events carry for a stream: the payloads the engine accepted in that read. */
  function Inbound(a: Arm, sid: u32): bytes {
    if a.OnRead? && a.wrote && |a.ws| == |a.ls| + 1 then Accepted(a.ws, a.ls, sid) else []
  }

  lemma ReadEvents(w: World, ws: seq<World>, ls: seq<Label>, bad: Option<CodecError>, sid: u32)
    requires Handles(w, ws, ls)
    ensures DataOn(Events(ls, bad), sid) == Accepted(ws, ls, sid)
  {
    ReadData(w, ws, ls, sid);
    var tail := if bad.Some? then [EngineError(BadFrame(bad.value))] else [];
    DataOnAppend(EventsOf(ls), tail, sid);
    if bad.Some? {
      assert tail[1..] == [];
    }
  }

  // ---- Steps --------------------------------------------------------------------------------------

  /** Entries of the map were there before, or are on stream ids not handed out before. */
  predicate Grown(d: Desk, d': Desk) {
    && d.openings <= d'.openings
    && forall t :: t in d'.pending ==>
         (t in d.pending && d'.pending[t].rank == d.pending[t].rank) || t > 2 * |d.openings|
  }

  lemma OpenThenGrown(d: Desk, sid: u32, d2: Desk)
    requires d.waiting != [] && sid == 2 * |d.openings| + 1 && Grown(OpenHead(d, sid), d2)
    ensures Grown(d, d2)
  {
  }

  lemma OpenFailGrown(d: Desk, sid: u32)
    requires d.waiting != [] && sid == 2 * |d.openings| + 1
    ensures Grown(d, FailStream(OpenHead(d, sid), sid, IoFault))
  {
    FailPending(OpenHead(d, sid), sid, IoFault);
  }

  lemma NextIsFresh(w: World, d: Desk)
    requires Sound(w, d) && w.opens < MAX_OPENS
    ensures w.engine.send.conn.nextStreamId == 2 * |d.openings| + 1
  {
    RequestGetsNthId(w);
  }

  lemma {:induction false} DispatchGrown(w: World, d: Desk, o: Outside)
    requires Sound(w, d) && Dispatch(w, d, o).0.opens <= MAX_OPENS
    ensures Grown(d, Dispatch(w, d, o).1)
    decreases |d.waiting|
  {
    if d.waiting != [] && CanOpenStream(w.engine.send.conn) {
      if o.gone(d.waiting[0].id) {
        DiscardSound(w, d);
        DispatchGrown(w, Discard(d, 0), o);
      } else {
        var sid := w.engine.send.conn.nextStreamId;
        NextIsFresh(w, d);
        if o.writes(sid) {
          OpenSound(w, d, sid);
          DispatchGrown(AfterAsk(w, d.waiting[0].request), OpenHead(d, sid), o);
          OpenThenGrown(d, sid, Dispatch(w, d, o).1);
        } else {
          OpenFailGrown(d, sid);
        }
      }
    }
  }

  lemma BothShrinks(d: Desk, o: Outside, fault: Fault)
    ensures Shrinks(d.pending, NotifyBoth(d, o, fault).pending) && NotifyBoth(d, o, fault).openings == d.openings
  {
    NotifyAllKeeps(d, o.hash(d.pending), fault);
    WaitingShrinks(NotifyAll(d, o.hash(d.pending), fault), fault);
  }

  lemma {:induction false} WaitingShrinks(d: Desk, fault: Fault)
    ensures NotifyWaiting(d, fault).pending == d.pending && NotifyWaiting(d, fault).openings == d.openings
    decreases |d.waiting|
  {
    if d.waiting != [] {
      WaitingShrinks(Leave(d, 0, Regret(d.waiting[0].rank, fault)), fault);
    }
  }

  lemma DispatchAllGrown(w: World, d: Desk, o: Outside)
    requires Sound(w, d) && DispatchAll(w, d, o).0.opens <= MAX_OPENS
    ensures Grown(d, DispatchAll(w, d, o).1)
  {
    if w.engine.send.conn.error.Some? {
      WaitingShrinks(d, GoAwayFault);
    } else {
      DispatchGrown(w, d, o);
    }
  }

  lemma GrownThenShrinks(d: Desk, d1: Desk, d2: Desk)
    requires Grown(d, d1) && Shrinks(d1.pending, d2.pending) && d2.openings == d1.openings
    ensures Grown(d, d2)
  {
  }

  lemma AfterArmGrown(s: System, o: Outside)
    requires Sound(s.world, s.desk) && AfterArm(s, o).world.opens <= MAX_OPENS
    ensures Grown(s.desk, AfterArm(s, o).desk)
  {
    var (w, d, ok) := DispatchAll(s.world, s.desk, o);
    DispatchAllGrown(s.world, s.desk, o);
    if !ok {
      BothShrinks(d, o, IoFault);
      GrownThenShrinks(s.desk, d, NotifyBoth(d, o, IoFault));
    }
  }

  /** What a step does to a caller on a stream already handed out. */
  ghost predicate Delivers(d: Desk, d': Desk, sid: u32, rank: nat, inbound: bytes) {
    && Chunks(d.log, rank) <= Chunks(d'.log, rank) <= Chunks(d.log, rank) + inbound
    && (!Waits(d, sid, rank) ==> Chunks(d'.log, rank) == Chunks(d.log, rank))
    && (Waits(d, sid, rank) && Waits(d', sid, rank) ==> Chunks(d'.log, rank) == Chunks(d.log, rank) + inbound)
    && Grown(d, d')
  }

  lemma Quietly(d: Desk, d': Desk, sid: u32, rank: nat, inbound: bytes)
    requires Chunks(d'.log, rank) == Chunks(d.log, rank) && Grown(d, d')
    requires Waits(d, sid, rank) && Waits(d', sid, rank) ==> inbound == []
    ensures Delivers(d, d', sid, rank, inbound)
  {
    assert Chunks(d.log, rank) + [] == Chunks(d.log, rank);
  }

  /** Events, then the rest of the turn. */
  lemma EventsThenArm(d: Desk, d1: Desk, d2: Desk, sid: u32, rank: nat, inbound: bytes)
    requires Shrinks(d.pending, d1.pending) && d1.openings == d.openings && sid <= 2 * |d.openings|
    requires Chunks(d.log, rank) <= Chunks(d1.log, rank) <= Chunks(d.log, rank) + inbound
    requires !Waits(d, sid, rank) ==> Chunks(d1.log, rank) == Chunks(d.log, rank)
    requires Waits(d1, sid, rank) ==> Chunks(d1.log, rank) == Chunks(d.log, rank) + inbound
    requires Chunks(d2.log, rank) == Chunks(d1.log, rank) && Grown(d1, d2)
    ensures Delivers(d, d2, sid, rank, inbound)
  {
  }

  lemma ReadDelivers(s: System, ws: seq<World>, ls: seq<Label>, bad: Option<CodecError>, o: Outside, s': System,
                     sid: u32, rank: nat)
    requires SysInv(s) && SysNext(s, OnRead(ws, ls, bad, true), o, s') && OnlyOn(s.desk, sid, rank)
    requires sid <= 2 * |s.desk.openings|
    ensures Delivers(s.desk, s'.desk, sid, rank, Accepted(ws, ls, sid))
  {
    HandlesReaches(s.world, ws, ls, |ls|);
    var evs := Events(ls, bad);
    var d := OnEvents(s.desk, evs, o.hash, o.status);
    var t := Settle(s.(world := ws[|ls|]), d);
    ReadEvents(s.world, ws, ls, bad, sid);
    EventsChunks(s.desk, evs, o.hash, o.status, sid, rank);
    EventsSound(s.world, s.desk, evs, o, ws[|ls|]);
    EventsKeepOpenings(s.desk, evs, o);
    AfterArmChunks(t, o, rank);
    AfterArmGrown(t, o);
    EventsThenArm(s.desk, d, s'.desk, sid, rank, Accepted(ws, ls, sid));
  }

  /** A turn that starts from `s1` without having told this caller anything. */
  lemma ArmDelivers(d: Desk, s1: System, o: Outside, sid: u32, rank: nat)
    requires Sound(s1.world, s1.desk) && AfterArm(s1, o).world.opens <= MAX_OPENS
    requires Chunks(s1.desk.log, rank) == Chunks(d.log, rank) && s1.desk.pending == d.pending
    requires s1.desk.openings == d.openings
    ensures Delivers(d, AfterArm(s1, o).desk, sid, rank, [])
  {
    AfterArmChunks(s1, o, rank);
    AfterArmGrown(s1, o);
    Quietly(d, AfterArm(s1, o).desk, sid, rank, []);
  }

  lemma AbortDelivers(s: System, o: Outside, fault: Fault, sid: u32, rank: nat)
    ensures Delivers(s.desk, Abort(s, o, fault).desk, sid, rank, [])
  {
    NotifyBothChunks(s.desk, o, fault, rank);
    BothShrinks(s.desk, o, fault);
    Quietly(s.desk, Abort(s, o, fault).desk, sid, rank, []);
  }

  lemma RemoveChunks(d: Desk, id: nat, rank: nat)
    ensures Chunks(RemoveWaiting(d, id).log, rank) == Chunks(d.log, rank)
  {
    if Position(d.waiting, id) < |d.waiting| {
      DiscardChunks(d, Position(d.waiting, id), rank);
    }
  }

  lemma CancelDelivers(s: System, s1: System, o: Outside, id: nat, sid: u32, rank: nat)
    requires Sound(s.world, s.desk) && s1.world == s.world && s1.desk == RemoveWaiting(s.desk, id)
    requires ValidEngine(s1.world.engine) && AfterArm(s1, o).world.opens <= MAX_OPENS
    ensures Delivers(s.desk, AfterArm(s1, o).desk, sid, rank, [])
  {
    RemoveSound(s.world, s.desk, id);
    RemoveChunks(s.desk, id, rank);
    ArmDelivers(s.desk, s1, o, sid, rank);
  }

  lemma CommandDelivers(s: System, o: Outside, sid: u32, rank: nat)
    requires Sound(s.world, s.desk) && s.channel != []
    requires AfterArm(TakeCommand(s, o), o).world.opens <= MAX_OPENS
    ensures Delivers(s.desk, AfterArm(TakeCommand(s, o), o).desk, sid, rank, [])
  {
    TakeSound(s, o);
    ArmDelivers(s.desk, TakeCommand(s, o), o, sid, rank);
  }

  lemma ShutdownDelivers(s: System, o: Outside, s': System, sid: u32, rank: nat)
    requires Sound(s.world, s.desk) && SysNext(s, OnShutdown, o, s')
    ensures Delivers(s.desk, s'.desk, sid, rank, [])
  {
    if AllDone(s.desk) {
      Quietly(s.desk, s'.desk, sid, rank, []);
    } else {
      ArmDelivers(s.desk, s.(shutdown := true), o, sid, rank);
    }
  }

  lemma ClosedDelivers(s: System, o: Outside, s': System, sid: u32, rank: nat)
    requires Sound(s.world, s.desk) && SysNext(s, OnCancelClosed, o, s')
    ensures Delivers(s.desk, s'.desk, sid, rank, [])
  {
    ArmDelivers(s.desk, s.(cancelOpen := false), o, sid, rank);
  }

  lemma CallerDelivers(s: System, a: Arm, o: Outside, s': System, sid: u32, rank: nat)
    requires SysNext(s, a, o, s') && (a.Acquire? || a.Enqueue? || a.Abandon? || a.Cancel?)
    ensures Delivers(s.desk, s'.desk, sid, rank, [])
  {
    Quietly(s.desk, s'.desk, sid, rank, []);
  }

  /** The arms that end the loop at once. */
  lemma EndingDelivers(s: System, a: Arm, o: Outside, s': System, sid: u32, rank: nat)
    requires SysNext(s, a, o, s') && (a.OnClosed? || a.OnTimeout? || (a.OnRead? && !a.wrote))
    ensures Delivers(s.desk, s'.desk, sid, rank, [])
  {
    match a
    case OnRead(ws, ls, bad, wrote) => AbortDelivers(s.(world := ws[|ls|]), o, IoFault, sid, rank);
    case OnClosed => AbortDelivers(s, o, IoFault, sid, rank);
    case OnTimeout => AbortDelivers(s, o, ShutdownFault, sid, rank);
  }

  /** The arms that tell nobody anything before dispatch. */
  lemma TurnDelivers(s: System, a: Arm, o: Outside, s': System, sid: u32, rank: nat)
    requires Sound(s.world, s.desk) && SysNext(s, a, o, s') && (a.OnCancel? || a.OnCommand? || a.OnShutdown? || a.OnCancelClosed?)
    ensures Delivers(s.desk, s'.desk, sid, rank, [])
  {
    match a
    case OnCancel =>
      var s1 := Settle(s, RemoveWaiting(s.desk, s.cancels[0])).(cancels := s.cancels[1..]);
      CancelDelivers(s, s1, o, s.cancels[0], sid, rank);
    case OnCancelClosed => ClosedDelivers(s, o, s', sid, rank);
    case OnCommand => CommandDelivers(s, o, sid, rank);
    case OnShutdown => ShutdownDelivers(s, o, s', sid, rank);
  }

  predicate Silently(a: Arm) {
    !(a.OnRead? && a.wrote)
  }

  lemma SilentDelivers(s: System, a: Arm, o: Outside, s': System, sid: u32, rank: nat)
    requires Sound(s.world, s.desk) && SysNext(s, a, o, s') && Silently(a)
    ensures Delivers(s.desk, s'.desk, sid, rank, [])
  {
    if a.OnCancel? || a.OnCommand? || a.OnShutdown? || a.OnCancelClosed? {
      TurnDelivers(s, a, o, s', sid, rank);
    } else if a.OnClosed? || a.OnTimeout? || a.OnRead? {
      EndingDelivers(s, a, o, s', sid, rank);
    } else {
      CallerDelivers(s, a, o, s', sid, rank);
    }
  }

  /** Every step brings a caller exactly what its read accepted on its stream, while it waits. */
  lemma StepDelivers(s: System, a: Arm, o: Outside, s': System, sid: u32, rank: nat)
    requires SysInv(s) && SysNext(s, a, o, s') && OnlyOn(s.desk, sid, rank) && sid <= 2 * |s.desk.openings|
    ensures Delivers(s.desk, s'.desk, sid, rank, Inbound(a, sid))
  {
    if Silently(a) {
      SilentDelivers(s, a, o, s', sid, rank);
    } else {
      ReadDelivers(s, a.ws, a.ls, a.bad, o, s', sid, rank);
    }
  }

  // ---- Runs ---------------------------------------------------------------------------------------

  /** The DATA payloads accepted on a stream after the step that opened it for this request. */
  function Received(t: Trace, sid: u32, rank: nat): bytes {
    match t
    case Begun(_, _) => []
    case Then(before, a, _, _) =>
      if Opening(rank, sid) in before.s.desk.openings then Received(before, sid, rank) + Inbound(a, sid) else []
  }

  predicate NeverOpened(d: Desk, rank: nat) {
    forall i :: 0 <= i < |d.openings| ==> d.openings[i].rank != rank
  }

  lemma OpenedOnce(d: Desk, sid: u32, rank: nat)
    requires OpenedOk(d) && PendingOk(d) && Opening(rank, sid) in d.openings
    ensures OnlyOn(d, sid, rank) && sid <= 2 * |d.openings|
  {
    var i :| 0 <= i < |d.openings| && d.openings[i] == Opening(rank, sid);
    forall t | t in d.pending && t != sid
      ensures d.pending[t].rank != rank
    {
      var j :| 0 <= j < |d.openings| && d.openings[j] == Opening(d.pending[t].rank, t);
      assert j != i;
    }
  }

  lemma NoEntry(d: Desk, rank: nat)
    requires PendingOk(d) && NeverOpened(d, rank)
    ensures OnlyOn(d, 0, rank) && !Waits(d, 0, rank)
  {
  }

  lemma FirstChunks(w: World, limit: Option<nat>, r: Request, o: Outside, rank: nat)
    requires ValidEngine(w.engine)
    ensures Chunks(WithFirst(Base(w, limit), r, o).desk.log, rank) == []
  {
    var sid := w.engine.send.conn.nextStreamId;
    EndChunks(OpenFirst(EMPTY_DESK, sid), sid, IoFault, false, rank);
  }

  lemma BegunChunks(s: System, first: Option<Request>, rank: nat)
    requires Fresh(s, first)
    ensures Chunks(s.desk.log, rank) == []
  {
    var limit, o :| Begins(s, first, limit, o);
    var w, profile, windowUpdate, blockLimit, policy :|
      BeginsWith(s, first, limit, o, w, profile, windowUpdate, blockLimit, policy);
    if first.Some? {
      FirstChunks(w, limit, first.value, o, rank);
    }
  }

  lemma DeskFacts(s: System)
    requires SysInv(s)
    ensures OpenedOk(s.desk) && PendingOk(s.desk)
  {
  }

  lemma {:induction false} NothingBeforeOpening(t: Trace, rank: nat)
    requires SysRun(t) && NeverOpened(t.s.desk, rank)
    ensures Chunks(t.s.desk.log, rank) == []
  {
    match t
    case Begun(first, s) => BegunChunks(s, first, rank);
    case Then(before, a, o, s) =>
      SysRunInv(before);
      DeskFacts(before.s);
      GrowsOpenings(before.s, a, o, s, rank);
      NothingBeforeOpening(before, rank);
  }

  lemma GrowsOpenings(s: System, a: Arm, o: Outside, s': System, rank: nat)
    requires SysInv(s) && SysNext(s, a, o, s')
    ensures s.desk.openings <= s'.desk.openings
    ensures NeverOpened(s'.desk, rank) ==> NeverOpened(s.desk, rank)
    ensures NeverOpened(s.desk, rank) ==> Chunks(s'.desk.log, rank) == Chunks(s.desk.log, rank)
  {
    DeskFacts(s);
    if NeverOpened(s.desk, rank) {
      NoEntry(s.desk, rank);
      StepDelivers(s, a, o, s', 0, rank);
    } else {
      var i :| 0 <= i < |s.desk.openings| && s.desk.openings[i].rank == rank;
      OpenedOnce(s.desk, s.desk.openings[i].sid, rank);
      StepDelivers(s, a, o, s', s.desk.openings[i].sid, rank);
      assert s'.desk.openings[i] == s.desk.openings[i];
    }
  }

  lemma FirstOpening(t: Trace, sid: u32, rank: nat)
    requires SysRun(t) && t.Then? && Opening(rank, sid) in t.s.desk.openings
    requires Opening(rank, sid) !in t.before.s.desk.openings
    ensures Chunks(t.s.desk.log, rank) == []
  {
    SysRunInv(t.before);
    SysRunInv(t);
    DeskFacts(t.s);
    GrowsOpenings(t.before.s, t.arm, t.outside, t.s, rank);
    NotOpenedElsewhere(t.before.s.desk, t.s.desk, sid, rank);
    NothingBeforeOpening(t.before, rank);
  }

  lemma NotOpenedElsewhere(d: Desk, d': Desk, sid: u32, rank: nat)
    requires d.openings <= d'.openings && OpenedOk(d') && Opening(rank, sid) in d'.openings
    requires Opening(rank, sid) !in d.openings
    ensures NeverOpened(d, rank)
  {
    var j :| 0 <= j < |d'.openings| && d'.openings[j] == Opening(rank, sid);
    forall i | 0 <= i < |d.openings|
      ensures d.openings[i].rank != rank
    {
      assert d'.openings[i] == d.openings[i];
    }
  }

  lemma LaterDelivery(t: Trace, sid: u32, rank: nat)
    requires SysRun(t) && t.Then? && Opening(rank, sid) in t.before.s.desk.openings
    ensures Delivers(t.before.s.desk, t.s.desk, sid, rank, Inbound(t.arm, sid)) && sid <= 2 * |t.before.s.desk.openings|
  {
    SysRunInv(t.before);
    DeskFacts(t.before.s);
    OpenedOnce(t.before.s.desk, sid, rank);
    StepDelivers(t.before.s, t.arm, t.outside, t.s, sid, rank);
  }

  lemma DeliveryStep(d: Desk, d': Desk, sid: u32, rank: nat, inbound: bytes, got: bytes)
    requires Delivers(d, d', sid, rank, inbound) && sid <= 2 * |d.openings|
    requires Chunks(d.log, rank) <= got && (Waits(d, sid, rank) ==> Chunks(d.log, rank) == got)
    ensures Chunks(d'.log, rank) <= got + inbound
    ensures Waits(d', sid, rank) ==> Chunks(d'.log, rank) == got + inbound
  {
    if !Waits(d, sid, rank) {
      assert got <= got + inbound;
    }
  }

  /** Response bodies over every run: while a caller waits, the chunks it was sent are exactly the DATA
      payloads accepted on its stream since the stream was opened for it; once it is finished they are
      what had come until then. */
  lemma {:induction false} ResponseBodyDelivered(t: Trace, sid: u32, rank: nat)
    requires SysRun(t) && Opening(rank, sid) in t.s.desk.openings
    ensures Chunks(t.s.desk.log, rank) <= Received(t, sid, rank)
    ensures Waits(t.s.desk, sid, rank) ==> Chunks(t.s.desk.log, rank) == Received(t, sid, rank)
  {
    if t.Begun? {
      BegunChunks(t.s, t.first, rank);
    } else if Opening(rank, sid) in t.before.s.desk.openings {
      ResponseBodyDelivered(t.before, sid, rank);
      LaterDelivery(t, sid, rank);
      DeliveryStep(t.before.s.desk, t.s.desk, sid, rank, Inbound(t.arm, sid), Received(t.before, sid, rank));
    } else {
      FirstOpening(t, sid, rank);
    }
  }
}
